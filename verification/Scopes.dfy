/**
 Scope sets (`pkg/oauthserver/scopes.go`) and the identifier grammar their members obey
 (`pkg/oauthserver/identifiers.go`). A scope set is the strictly sorted sequence of its
 members; the Go type keeps that sequence private, which the subset type states.
 */
module Scopes {
  import opened TextOrder

  datatype Option<+T> = None | Some(value: T)

  type Scope = string

  // -------------------------------------------------------------------------
  // Text: white space, trimming, splitting, joining
  // -------------------------------------------------------------------------

  /** Go's `unicode.IsSpace`. */
  predicate IsSpace(c: char) {
    || '\t' <= c <= '\r'
    || c == ' ' || c == '\U{85}' || c == '\U{A0}' || c == '\U{1680}'
    || '\U{2000}' <= c <= '\U{200A}'
    || c == '\U{2028}' || c == '\U{2029}' || c == '\U{202F}' || c == '\U{205F}' || c == '\U{3000}'
  }

  predicate NoSpace(s: string) {
    forall i | 0 <= i < |s| :: !IsSpace(s[i])
  }

  /** Go's `strings.TrimSpace`. */
  function TrimSpace(s: string): string {
    if s == [] then []
    else if IsSpace(s[0]) then TrimSpace(s[1..])
    else if IsSpace(s[|s| - 1]) then TrimSpace(s[..|s| - 1])
    else s
  }

  /** Go's `strings.Fields`; `word` is the field being read. */
  function Fields(s: string, word: string := ""): seq<string>
    decreases |s|
  {
    if s == [] then (if word == [] then [] else [word])
    else if IsSpace(s[0]) then (if word == [] then [] else [word]) + Fields(s[1..], "")
    else Fields(s[1..], word + [s[0]])
  }

  /** Go's `strings.Join` with a single space. */
  function Join(words: seq<string>): string {
    if words == [] then ""
    else if |words| == 1 then words[0]
    else words[0] + " " + Join(words[1..])
  }

  lemma {:induction false} FieldsReadsWord(word: string, rest: string, read: string)
    requires NoSpace(word)
    ensures Fields(word + rest, read) == Fields(rest, read + word)
    decreases |word|
  {
    if word == [] {
      assert word + rest == rest && read + word == read;
    } else {
      assert (word + rest)[1..] == word[1..] + rest;
      FieldsReadsWord(word[1..], rest, read + [word[0]]);
      assert read + [word[0]] + word[1..] == read + word;
    }
  }

  /** Splitting undoes joining for words that are non-empty and free of white space. */
  lemma {:induction false} FieldsOfJoin(words: seq<string>)
    requires forall i | 0 <= i < |words| :: words[i] != [] && NoSpace(words[i])
    ensures Fields(Join(words)) == words
  {
    if |words| == 1 {
      FieldsReadsWord(words[0], "", "");
      assert words[0] + "" == words[0] && "" + words[0] == words[0];
    } else if |words| > 1 {
      var rest := " " + Join(words[1..]);
      assert Join(words) == words[0] + rest;
      FieldsReadsWord(words[0], rest, "");
      assert "" + words[0] == words[0];
      assert rest[1..] == Join(words[1..]);
      FieldsOfJoin(words[1..]);
    }
  }

  // -------------------------------------------------------------------------
  // Identifiers
  // -------------------------------------------------------------------------

  predicate IsAlphanumeric(c: char) {
    'A' <= c <= 'Z' || 'a' <= c <= 'z' || '0' <= c <= '9'
  }

  predicate IsIdentifierChar(c: char) {
    IsAlphanumeric(c) || c == '.' || c == '_' || c == ':' || c == '-'
  }

  /** The pattern `^[A-Za-z0-9][A-Za-z0-9._:-]{0,255}$`. */
  predicate IsIdentifier(s: string) {
    && 1 <= |s| <= 256
    && IsAlphanumeric(s[0])
    && forall i | 0 <= i < |s| :: IsIdentifierChar(s[i])
  }

  /** `newIdentifier`: trim, then match the pattern. */
  function NewIdentifier(raw: string): Option<string> {
    var s := TrimSpace(raw);
    if IsIdentifier(s) then Some(s) else None
  }

  lemma IdentifierIsOwnText(s: string)
    requires IsIdentifier(s)
    ensures NoSpace(s) && s != [] && TrimSpace(s) == s && NewIdentifier(s) == Some(s)
  {
    forall i | 0 <= i < |s|
      ensures !IsSpace(s[i])
    {
      assert IsIdentifierChar(s[i]);
    }
  }

  // -------------------------------------------------------------------------
  // Canonical sequences
  // -------------------------------------------------------------------------

  predicate Sorted(s: seq<Scope>) {
    forall i, j | 0 <= i < j < |s| :: Less(s[i], s[j])
  }

  predicate Canonical(s: seq<Scope>) {
    Sorted(s) && forall i | 0 <= i < |s| :: IsIdentifier(s[i])
  }

  type ScopeSet = s: seq<Scope> | Canonical(s) witness []

  function Elements(s: seq<Scope>): set<Scope> {
    set x | x in s
  }

  /** Strictly sorted sequences with the same members are the same sequence. */
  lemma {:induction false} CanonicalUnique(a: seq<Scope>, b: seq<Scope>)
    requires Sorted(a) && Sorted(b)
    requires forall x :: x in a <==> x in b
    ensures a == b
  {
    assert a == [] || a[0] in a;
    assert b == [] || b[0] in b;
    if a != [] && b != [] {
      assert a[0] in b && b[0] in a;
      var i :| 0 <= i < |b| && b[i] == a[0];
      var j :| 0 <= j < |a| && a[j] == b[0];
      if i > 0 && j > 0 {
        Asymmetric(a[0], a[j]);
      }
      assert a[0] == b[0];
      forall x
        ensures x in a[1..] <==> x in b[1..]
      {
        Irreflexive(a[0]);
        assert x in a[1..] ==> x in a && x != a[0];
        assert x in b[1..] ==> x in b && x != b[0];
      }
      CanonicalUnique(a[1..], b[1..]);
    }
  }

  lemma SameElements(a: ScopeSet, b: ScopeSet)
    requires Elements(a) == Elements(b)
    ensures a == b
  {
    forall x
      ensures x in a <==> x in b
    {
      assert x in Elements(a) <==> x in Elements(b);
    }
    CanonicalUnique(a, b);
  }

  /** Insertion that keeps a canonical sequence canonical and ignores a member. */
  function Insert(s: ScopeSet, x: Scope): (r: ScopeSet)
    requires IsIdentifier(x)
    ensures forall y :: y in r <==> y == x || y in s
  {
    if s == [] then [x]
    else if s[0] == x then s
    else if Less(x, s[0]) then
      LessThanAll(x, s);
      [x] + s
    else
      var tail: ScopeSet := s[1..];
      var rest := Insert(tail, x);
      Total(x, s[0]);
      var r := [s[0]] + rest;
      assert forall i | 0 <= i < |rest| :: rest[i] == x || rest[i] in tail;
      r
  }

  lemma LessThanAll(x: Scope, s: ScopeSet)
    requires s != [] && Less(x, s[0])
    ensures forall i | 0 <= i < |s| :: Less(x, s[i])
  {
    forall i | 0 < i < |s|
      ensures Less(x, s[i])
    {
      Transitive(x, s[0], s[i]);
    }
  }

  /** The canonical form of a list of valid scopes. */
  function Canonicalize(values: seq<Scope>): (r: ScopeSet)
    requires forall i | 0 <= i < |values| :: IsIdentifier(values[i])
    ensures forall y :: y in r <==> y in values
  {
    if values == [] then [] else Insert(Canonicalize(values[1..]), values[0])
  }

  predicate AllIdentifiers(values: seq<string>) {
    forall i | 0 <= i < |values| :: IsIdentifier(TrimSpace(values[i]))
  }

  function TrimAll(values: seq<string>): (r: seq<string>)
    ensures |r| == |values| && forall i | 0 <= i < |values| :: r[i] == TrimSpace(values[i])
  {
    seq(|values|, i requires 0 <= i < |values| => TrimSpace(values[i]))
  }

  /** What `NewScopeSet` returns, as a function of its arguments. */
  function FromValues(values: seq<string>): Option<ScopeSet> {
    if AllIdentifiers(values) then Some(Canonicalize(TrimAll(values))) else None
  }

  /** What `ParseScopes` returns. */
  function Parse(raw: string): Option<ScopeSet> {
    if TrimSpace(raw) == "" then FromValues([]) else FromValues(Fields(raw))
  }

  /** `ScopeSet.String`. */
  function Text(s: ScopeSet): string {
    Join(s)
  }

  /** `MarshalJSON` before JSON quoting: the array of member texts. */
  function ToJsonArray(s: ScopeSet): seq<string> {
    s
  }

  /** `UnmarshalJSON` after JSON unquoting: the array is joined and parsed again. */
  function FromJsonArray(values: seq<string>): Option<ScopeSet> {
    Parse(Join(values))
  }

  // -------------------------------------------------------------------------
  // The loops of scopes.go, proved against the functions above
  // -------------------------------------------------------------------------

  /** Stands for the library call `sort.Slice` on distinct values. */
  method SortDistinct(values: seq<Scope>) returns (r: ScopeSet)
    requires forall i | 0 <= i < |values| :: IsIdentifier(values[i])
    ensures r == Canonicalize(values)
  {
    r := [];
    var i := |values|;
    while i > 0
      invariant 0 <= i <= |values|
      invariant r == Canonicalize(values[i..])
    {
      i := i - 1;
      assert values[i..][1..] == values[i + 1..];
      r := Insert(r, values[i]);
    }
    assert values[0..] == values;
  }

  method NewScopeSet(values: seq<string>) returns (r: Option<ScopeSet>)
    ensures r == FromValues(values)
  {
    var seen: set<Scope> := {};
    var canonical: seq<Scope> := [];
    for i := 0 to |values|
      invariant forall k | 0 <= k < i :: IsIdentifier(TrimSpace(values[k]))
      invariant forall k | 0 <= k < |canonical| :: IsIdentifier(canonical[k])
      invariant forall x :: x in canonical <==> x in seen
      invariant forall x :: x in seen <==> x in TrimAll(values)[..i]
    {
      var raw := TrimSpace(values[i]);
      assert TrimAll(values)[..i + 1] == TrimAll(values)[..i] + [raw];
      if raw == "" {
        return None;
      }
      if !IsIdentifier(raw) {
        return None;
      }
      if raw in seen {
        continue;
      }
      seen := seen + {raw};
      canonical := canonical + [raw];
    }
    assert TrimAll(values)[..|values|] == TrimAll(values);
    var sorted := SortDistinct(canonical);
    CanonicalUnique(sorted, Canonicalize(TrimAll(values)));
    r := Some(sorted);
  }

  method ParseScopes(raw: string) returns (r: Option<ScopeSet>)
    ensures r == Parse(raw)
  {
    if TrimSpace(raw) == "" {
      r := NewScopeSet([]);
      return;
    }
    var parts := Fields(raw);
    var values: seq<Scope> := [];
    for i := 0 to |parts|
      invariant values == parts[..i]
    {
      values := values + [parts[i]];
    }
    assert parts[..|parts|] == parts;
    r := NewScopeSet(values);
  }

  /** The binary search of `sort.Find`. */
  method Contains(s: ScopeSet, scope: Scope) returns (found: bool)
    ensures found <==> scope in s
  {
    var i, j := 0, |s|;
    while i < j
      invariant 0 <= i <= j <= |s|
      invariant forall k | 0 <= k < i :: Less(s[k], scope)
      invariant forall k | j <= k < |s| :: !Less(s[k], scope)
    {
      var h := (i + j) / 2;
      if Less(s[h], scope) {
        forall k | 0 <= k < h
          ensures Less(s[k], scope)
        {
          Transitive(s[k], s[h], scope);
        }
        i := h + 1;
      } else {
        forall k | h <= k < |s|
          ensures !Less(s[k], scope)
        {
          if k > h && Less(s[k], scope) {
            Transitive(s[h], s[k], scope);
          }
        }
        j := h;
      }
    }
    found := i < |s| && s[i] == scope;
    Irreflexive(scope);
    assert forall k | 0 <= k < |s| && k > i :: Less(s[i], s[k]);
  }

  /** The members of `a` that are also in `b`, in the order of `a`. */
  function Common(a: seq<Scope>, b: seq<Scope>): (r: seq<Scope>)
    ensures forall x :: x in r <==> x in a && x in b
  {
    if a == [] then []
    else if a[0] in b then [a[0]] + Common(a[1..], b)
    else Common(a[1..], b)
  }

  lemma {:induction false} CommonCanonical(a: seq<Scope>, b: seq<Scope>)
    requires Canonical(a)
    ensures Canonical(Common(a, b))
  {
    if a != [] {
      CommonCanonical(a[1..], b);
      var rest := Common(a[1..], b);
      forall i | 0 <= i < |rest|
        ensures Less(a[0], rest[i]) && IsIdentifier(rest[i])
      {
        assert rest[i] in a[1..];
      }
    }
  }

  lemma {:induction false} CommonIgnores(a: seq<Scope>, b: seq<Scope>)
    requires b != [] && b[0] !in a
    ensures Common(a, b) == Common(a, b[1..])
  {
    if a != [] {
      assert a[0] in b <==> a[0] in b[1..];
      CommonIgnores(a[1..], b);
    }
  }

  /** What `Intersect` returns. */
  function Intersection(a: ScopeSet, b: ScopeSet): (r: ScopeSet)
    ensures forall x :: x in r <==> x in a && x in b
  {
    CommonCanonical(a, b);
    Common(a, b)
  }

  /** The two-finger merge. */
  method Intersect(s: ScopeSet, other: ScopeSet) returns (r: ScopeSet)
    ensures r == Intersection(s, other)
  {
    var values: seq<Scope> := [];
    var left, right := 0, 0;
    while left < |s| && right < |other|
      invariant 0 <= left <= |s| && 0 <= right <= |other|
      invariant values + Common(s[left..], other[right..]) == Common(s, other)
      decreases |s| - left + |other| - right
    {
      var x, y := s[left], other[right];
      if Less(x, y) {
        NotBelowHead(x, other[right..]);
        left := left + 1;
      } else if Less(y, x) {
        NotBelowHead(y, s[left..]);
        CommonIgnores(s[left..], other[right..]);
        right := right + 1;
      } else {
        Total(x, y);
        Irreflexive(x);
        assert x !in s[left + 1..];
        assert s[left..][1..] == s[left + 1..];
        CommonIgnores(s[left + 1..], other[right..]);
        assert other[right..][1..] == other[right + 1..];
        assert values + ([x] + Common(s[left + 1..], other[right + 1..]))
            == values + [x] + Common(s[left + 1..], other[right + 1..]);
        values := values + [x];
        left := left + 1;
        right := right + 1;
      }
    }
    assert Common(s[left..], other[right..]) == [] by {
      EmptyOrMember(Common(s[left..], other[right..]));
    }
    CommonCanonical(s, other);
    assert values + [] == values;
    r := values;
  }

  lemma EmptyOrMember(s: seq<Scope>)
    ensures s == [] || exists x :: x in s
  {
    if s != [] {
      assert s[0] in s;
    }
  }

  lemma NotBelowHead(x: Scope, s: seq<Scope>)
    requires Sorted(s) && s != [] && Less(x, s[0])
    ensures x !in s
  {
    if x in s {
      var k :| 0 <= k < |s| && s[k] == x;
      Irreflexive(x);
      Transitive(x, s[0], s[k]);
    }
  }

  // -------------------------------------------------------------------------
  // What the representation decides
  // -------------------------------------------------------------------------

  lemma {:induction false} CommonLength(a: seq<Scope>, b: seq<Scope>)
    ensures |Common(a, b)| <= |a|
    ensures |Common(a, b)| == |a| <==> forall x | x in a :: x in b
  {
    if a != [] {
      CommonLength(a[1..], b);
      assert forall x :: x in a <==> x == a[0] || x in a[1..];
    }
  }

  /** Comparing lengths after the merge decides inclusion. */
  predicate IsSubsetOf(s: ScopeSet, other: ScopeSet)
    ensures IsSubsetOf(s, other) <==> Elements(s) <= Elements(other)
  {
    CommonLength(s, other);
    assert Elements(s) <= Elements(other) <==> forall x | x in s :: x in other by {
      assert forall x :: x in Elements(s) <==> x in s;
      assert forall x :: x in Elements(other) <==> x in other;
    }
    |Intersection(s, other)| == |s|
  }

  lemma IntersectionElements(a: ScopeSet, b: ScopeSet)
    ensures Elements(Intersection(a, b)) == Elements(a) * Elements(b)
  {
  }

  lemma IntersectionLaws(a: ScopeSet, b: ScopeSet, c: ScopeSet)
    ensures Intersection(a, b) == Intersection(b, a)
    ensures Intersection(Intersection(a, b), c) == Intersection(a, Intersection(b, c))
    ensures Intersection(a, a) == a
    ensures IsSubsetOf(Intersection(a, b), a) && IsSubsetOf(Intersection(a, b), b)
  {
    CanonicalUnique(Intersection(a, b), Intersection(b, a));
    CanonicalUnique(Intersection(Intersection(a, b), c), Intersection(a, Intersection(b, c)));
    CanonicalUnique(Intersection(a, a), a);
  }

  /** Two lists give one scope set exactly when they have the same members, whatever order and repetition. */
  lemma FromValuesUnique(v: seq<string>, w: seq<string>)
    requires AllIdentifiers(v)
    ensures FromValues(v).Some? && Elements(FromValues(v).value) == Elements(TrimAll(v))
    ensures FromValues(v) == FromValues(w) <==> Elements(TrimAll(v)) == Elements(TrimAll(w))
  {
    assert Elements(Canonicalize(TrimAll(v))) == Elements(TrimAll(v));
    if AllIdentifiers(w) {
      assert Elements(Canonicalize(TrimAll(w))) == Elements(TrimAll(w));
    }
    if Elements(TrimAll(v)) == Elements(TrimAll(w)) {
      forall i | 0 <= i < |w|
        ensures IsIdentifier(TrimSpace(w[i]))
      {
        assert TrimAll(w)[i] in Elements(TrimAll(w));
        assert TrimAll(w)[i] in TrimAll(v);
      }
      SameElements(Canonicalize(TrimAll(v)), Canonicalize(TrimAll(w)));
    }
  }

  lemma FromValuesOfMembers(s: ScopeSet)
    ensures FromValues(s) == Some(s)
  {
    forall i | 0 <= i < |s|
      ensures TrimSpace(s[i]) == s[i]
    {
      IdentifierIsOwnText(s[i]);
    }
    assert TrimAll(s) == s;
    CanonicalUnique(Canonicalize(s), s);
  }

  /** Scope text and scope JSON both restore the set they were written from. */
  lemma TextRoundTrip(s: ScopeSet)
    ensures Parse(Text(s)) == Some(s)
    ensures FromJsonArray(ToJsonArray(s)) == Some(s)
  {
    forall i | 0 <= i < |s|
      ensures s[i] != [] && NoSpace(s[i])
    {
      IdentifierIsOwnText(s[i]);
    }
    FieldsOfJoin(s);
    FromValuesOfMembers(s);
    if TrimSpace(Text(s)) == "" {
      BlankHasNoFields(Text(s));
    }
  }

  lemma {:induction false} BlankHasNoFields(raw: string)
    requires TrimSpace(raw) == ""
    ensures forall i | 0 <= i < |raw| :: IsSpace(raw[i])
    ensures Fields(raw) == []
    decreases |raw|
  {
    if raw != [] {
      if IsSpace(raw[0]) {
        BlankHasNoFields(raw[1..]);
      } else {
        BlankHasNoFields(raw[..|raw| - 1]);
      }
    }
  }

  /** The string comparisons of the program decide equality of sets. */
  lemma TextInjective(a: ScopeSet, b: ScopeSet)
    ensures Text(a) == Text(b) <==> Elements(a) == Elements(b)
    ensures Text(a) == Text(b) <==> a == b
  {
    TextRoundTrip(a);
    TextRoundTrip(b);
    if Elements(a) == Elements(b) {
      SameElements(a, b);
    }
  }
}
