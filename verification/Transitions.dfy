/**
 The four commit validators (`pkg/oauthserver/transitions.go`), check by check in source order.
 */
module Transitions {
  import opened Scopes
  import opened Model

  function ValidateLoginCommit(auth: Authorization, consent: Consent, now: Time): Outcome {
    if auth.consumedAt != ZERO_TIME then Err(Consumed)
    else if auth.expiresAt <= now then Err(Expired)
    else if consent.client.id != auth.clientID
         || consent.client.redirectURI != auth.redirectURI
         || consent.state != auth.state
         || consent.challenge != auth.challenge
         || consent.resource != auth.resource then Err(Binding)
    else if consent.principal.subject == ""
         || !IsSubsetOf(consent.allowedScopes, auth.requestedScopes)
         || consent.authorizationEnds <= now
         || consent.expiresAt <= now then Err(Invalid)
    else Ok
  }

  function ValidateConsentCommit(consent: Consent, commit: ConsentCommit, now: Time): Outcome {
    if consent.consumedAt != ZERO_TIME then Err(Consumed)
    else if consent.expiresAt <= now then Err(Expired)
    else if commit.decision == Deny then
      if commit.code.digest != ZeroDigest then Err(Invalid) else Ok
    else if commit.decision != Approve then Err(Invalid)
    else
      var code := commit.code;
      if code.digest == ZeroDigest
      || code.clientID != consent.client.id
      || code.redirectURI != consent.client.redirectURI
      || code.state != consent.state
      || code.challenge != consent.challenge
      || code.resource != consent.resource
      || code.principal != consent.principal
      || !IsSubsetOf(code.scopes, consent.allowedScopes)
      || code.authorizationEnds != consent.authorizationEnds
      || code.expiresAt <= now then Err(Binding)
      else Ok
  }

  function ValidateCodeExchangeCommit(code: Code, commit: ExchangeCommit, now: Time): Outcome {
    if code.consumedAt != ZERO_TIME then Err(Consumed)
    else if code.expiresAt <= now then Err(Expired)
    else if commit.refresh.None? then Err(Invalid)
    else
      var refresh := commit.refresh.value;
      if refresh.digest == ZeroDigest
      || refresh.familyID == ""
      || refresh.generation != 0
      || refresh.clientID != code.clientID
      || refresh.principal != code.principal
      || refresh.resource != code.resource
      || Text(refresh.scopes) != Text(code.scopes)
      || refresh.expiresAt != code.authorizationEnds
      || refresh.expiresAt <= now
      || refresh.consumedAt != ZERO_TIME
      || refresh.revokedAt != ZERO_TIME then Err(Binding)
      else Ok
  }

  function ValidateRefreshRotation(current: Grant, rotation: Rotation, now: Time): Outcome {
    if current.familyID != rotation.familyID || current.generation != rotation.generation then Err(Binding)
    else if current.revokedAt != ZERO_TIME then Err(Revoked)
    else if current.consumedAt != ZERO_TIME then Err(Consumed)
    else if current.expiresAt <= now then Err(Expired)
    else
      var next := rotation.successor;
      if next.digest == ZeroDigest
      || next.familyID != current.familyID
      || next.generation != Increment(current.generation)
      || next.clientID != current.clientID
      || next.principal.subject != current.principal.subject
      || next.resource != current.resource
      || !IsSubsetOf(next.scopes, current.scopes)
      || next.expiresAt != current.expiresAt
      || next.consumedAt != ZERO_TIME
      || next.revokedAt != ZERO_TIME then Err(Binding)
      else Ok
  }
}
