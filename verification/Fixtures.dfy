/**
 The counting secret source (`pkg/memorytest/fixtures.go`, lines 25 to 53): one counter behind
 every kind of secret. It discharges the assumption that no secret is drawn twice, for as
 long as its 64-bit counter has not come round.
 */
module Fixtures {
  import opened Scopes
  import opened Model
  import opened TextOrder
  import opened Timestamps

  const WIDTH: nat := 40

  /** `fmt.Sprintf("%s-%040d", prefix, n)`; a `uint64` never needs more than 40 digits. */
  function Value(prefix: string, n: uint64): string {
    prefix + "-" + Pad(n, WIDTH)
  }

  /** `newOpaque`. */
  function NewOpaque(raw: string): Option<string> {
    var s := TrimSpace(raw);
    if 16 <= |s| <= 512 && forall c | c in " \t\r\n" :: c !in s then Some(s) else None
  }

  lemma PadInjective(a: nat, b: nat, width: nat)
    requires a < Pow10(width) && b < Pow10(width) && Pad(a, width) == Pad(b, width)
    ensures a == b
  {
    Irreflexive(Pad(a, width));
    if a < b {
      PadInOrder(a, b, width);
    } else if b < a {
      PadInOrder(b, a, width);
    }
  }

  /** Twenty digits hold every `uint64`, so forty do. */
  lemma {:induction false} WideEnough(width: nat)
    requires width >= 20
    ensures UINT64_SIZE <= Pow10(width)
  {
    if width == 20 {
      assert Pow10(5) == 100000;
      assert Pow10(10) == 100000 * Pow10(5);
      assert Pow10(15) == 100000 * Pow10(10);
      assert Pow10(20) == 100000 * Pow10(15);
    } else {
      WideEnough(width - 1);
    }
  }

  /** Prefix and number can be read back off the text. */
  lemma ValueInjective(p: string, m: uint64, q: string, n: uint64)
    ensures Value(p, m) == Value(q, n) <==> p == q && m == n
  {
    if Value(p, m) == Value(q, n) {
      var v, k := Value(p, m), |p|;
      assert |p| == |q|;
      assert v[..k] == p && v[..k] == q;
      assert v[k + 1..] == Pad(m, WIDTH) && v[k + 1..] == Pad(n, WIDTH);
      WideEnough(WIDTH);
      PadInjective(m, n, WIDTH);
    }
  }

  /** What a new source hands out when it is asked for these prefixes, one after the other. */
  function Drawn(prefixes: seq<string>): (r: seq<string>)
    ensures |r| == |prefixes|
  {
    seq(|prefixes|, i requires 0 <= i < |prefixes| => Value(prefixes[i], (i + 1) % UINT64_SIZE))
  }

  /** Two draws give the same secret exactly when they have one prefix and lie a whole turn of the counter apart. */
  lemma DrawsRepeat(prefixes: seq<string>, i: nat, j: nat)
    requires i < j < |prefixes|
    ensures Drawn(prefixes)[i] == Drawn(prefixes)[j] <==> prefixes[i] == prefixes[j] && (j - i) % UINT64_SIZE == 0
  {
    ValueInjective(prefixes[i], (i + 1) % UINT64_SIZE, prefixes[j], (j + 1) % UINT64_SIZE);
    SameRemainder(i + 1, j + 1, UINT64_SIZE);
  }

  lemma SameRemainder(a: int, b: int, m: int)
    requires m > 0
    ensures a % m == b % m <==> (b - a) % m == 0
  {
    var x, y, k := a / m, b / m, (b - a) / m;
    if a % m == b % m {
      assert b - a == m * (y - x);
      Remainder(b - a, m, y - x, 0);
    } else if (b - a) % m == 0 {
      assert b == m * (x + k) + a % m;
      Remainder(b, m, x + k, a % m);
    }
  }

  lemma Remainder(n: int, m: int, q: int, r: int)
    requires 0 <= r < m && n == m * q + r
    ensures n % m == r
  {
    var k := n / m - q;
    assert m * k == r - n % m;
    if k >= 1 {
      AtLeast(m, k);
    } else if k <= -1 {
      AtLeast(m, -k);
    }
  }

  lemma AtLeast(m: int, k: int)
    requires m > 0 && k >= 1
    ensures m * k >= m
  {
  }

  /** No secret repeats in the first 2^64 draws. */
  lemma FreshUntilTheCounterTurns(prefixes: seq<string>)
    requires |prefixes| <= UINT64_SIZE
    ensures forall i, j | 0 <= i < j < |prefixes| :: Drawn(prefixes)[i] != Drawn(prefixes)[j]
  {
    forall i, j | 0 <= i < j < |prefixes|
      ensures Drawn(prefixes)[i] != Drawn(prefixes)[j]
    {
      DrawsRepeat(prefixes, i, j);
    }
  }

  /** Every value passes the constructors that it is handed to. */
  lemma ValueAccepted(prefix: string, n: uint64)
    requires IsIdentifier(prefix) && |prefix| <= 200
    ensures NewIdentifier(Value(prefix, n)) == Some(Value(prefix, n))
    ensures NewOpaque(Value(prefix, n)) == Some(Value(prefix, n))
  {
    var v := Value(prefix, n);
    forall i | 0 <= i < |v|
      ensures IsIdentifierChar(v[i])
    {
      if i > |prefix| {
        assert v[i] == Pad(n, WIDTH)[i - |prefix| - 1];
      }
    }
    IdentifierIsOwnText(v);
  }

  lemma OneMore(asked: seq<string>, prefix: string, n: uint64)
    requires n == |asked| % UINT64_SIZE
    ensures Increment(n) == |asked + [prefix]| % UINT64_SIZE
    ensures Drawn(asked + [prefix]) == Drawn(asked) + [Value(prefix, Increment(n))]
    ensures |asked| < UINT64_SIZE ==> Value(prefix, Increment(n)) !in Drawn(asked)
  {
    hide Value;
    Successor(|asked|, UINT64_SIZE);
    assert Drawn(asked + [prefix]) == Drawn(asked) + [Value(prefix, Increment(n))];
    if |asked| < UINT64_SIZE {
      FreshUntilTheCounterTurns(asked + [prefix]);
      forall i | 0 <= i < |asked|
        ensures Drawn(asked)[i] != Value(prefix, Increment(n))
      {
        var all := Drawn(asked + [prefix]);
        assert all[i] == Drawn(asked)[i] && all[|asked|] == Value(prefix, Increment(n));
      }
    }
  }

  lemma Successor(k: nat, m: int)
    requires m > 1
    ensures (k % m + 1) % m == (k + 1) % m
  {
    var q := k / m;
    if k % m + 1 < m {
      Remainder(k + 1, m, q, k % m + 1);
      Remainder(k % m + 1, m, 0, k % m + 1);
    } else {
      Remainder(k + 1, m, q + 1, 0);
      Remainder(k % m + 1, m, 1, 0);
    }
  }

  class Secrets {
    var next: uint64
    /** The prefixes asked for so far. */
    ghost var asked: seq<string>

    ghost predicate Valid()
      reads this
    {
      next == |asked| % UINT64_SIZE
    }

    constructor ()
      ensures Valid() && asked == []
    {
      next, asked := 0, [];
    }

    method Draw(prefix: string) returns (s: string)
      requires Valid()
      modifies this
      ensures Valid() && asked == old(asked) + [prefix]
      ensures Drawn(asked) == Drawn(old(asked)) + [s] && s == Value(prefix, next)
      ensures |old(asked)| < UINT64_SIZE ==> s !in Drawn(old(asked))
    {
      hide Drawn, Value;
      OneMore(asked, prefix, next);
      next := Increment(next);
      s := Value(prefix, next);
      asked := asked + [prefix];
    }

    method NewClientID() returns (r: Option<ClientID>)
      requires Valid()
      modifies this
      ensures Valid() && asked == old(asked) + ["client"] && r.Some? && Drawn(asked) == Drawn(old(asked)) + [r.value]
    {
      var s := Draw("client");
      ValueAccepted("client", next);
      r := NewIdentifier(s);
    }

    method Opaque(prefix: string) returns (r: Option<string>)
      requires Valid() && IsIdentifier(prefix) && |prefix| <= 200
      modifies this
      ensures Valid() && asked == old(asked) + [prefix] && r.Some? && Drawn(asked) == Drawn(old(asked)) + [r.value]
    {
      var s := Draw(prefix);
      ValueAccepted(prefix, next);
      r := NewOpaque(s);
    }

    method NewTransactionToken() returns (r: Option<string>)
      requires Valid()
      modifies this
      ensures Valid() && asked == old(asked) + ["tx"] && r.Some? && Drawn(asked) == Drawn(old(asked)) + [r.value]
    {
      r := Opaque("tx");
    }

    method NewConsentToken() returns (r: Option<string>)
      requires Valid()
      modifies this
      ensures Valid() && asked == old(asked) + ["consent"] && r.Some? && Drawn(asked) == Drawn(old(asked)) + [r.value]
    {
      r := Opaque("consent");
    }

    method NewAuthorizationCode() returns (r: Option<string>)
      requires Valid()
      modifies this
      ensures Valid() && asked == old(asked) + ["code"] && r.Some? && Drawn(asked) == Drawn(old(asked)) + [r.value]
    {
      r := Opaque("code");
    }

    method NewRefreshToken() returns (r: Option<string>)
      requires Valid()
      modifies this
      ensures Valid() && asked == old(asked) + ["refresh"] && r.Some? && Drawn(asked) == Drawn(old(asked)) + [r.value]
    {
      r := Opaque("refresh");
    }

    method NewRefreshFamilyID() returns (r: Option<string>)
      requires Valid()
      modifies this
      ensures Valid() && asked == old(asked) + ["family"] && r.Some? && Drawn(asked) == Drawn(old(asked)) + [r.value]
    {
      r := Opaque("family");
    }
  }
}
