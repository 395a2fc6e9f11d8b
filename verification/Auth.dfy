/** Invite tokens: what a link carries, how long it lives, and how it is checked again. Signing is
    abstract: a token carries its claims and the key it was signed with. */
module Auth {
  import opened Base
  import opened Model

  const SECOND := 1_000_000_000
  const DAY := 24 * 3600 * SECOND
  const TOKEN_TTL := 30 * DAY
  const MAX_EXPIRATION_DAYS := 90
  const TOKEN_LEEWAY := 60 * SECOND
  const TOKEN_ISSUER := "lfx-v2-invite-service"
  const TOKEN_AUDIENCE := "lfx-self-serve"
  const MAX_CUSTOM_CLAIMS := 16
  const MAX_CLAIM_KEY_LEN := 64
  const MAX_CLAIM_VALUE_LEN := 1024

  type Secret = string

  datatype Claim = Str(s: string) | Aud(audiences: seq<string>) | Num(n: int)

  type Claims = map<string, Claim>

  datatype Token = Token(key: Secret, claims: Claims)

  /** The token string of an acceptance event: absent, no token at all, or a signed token. */
  datatype PresentedToken = NoToken | Garbage | Presented(token: Token)

  datatype TokenClaims = TokenClaims(inviteUID: string, email: string)

  const RESERVED_CLAIMS: set<string> :=
    {"iss", "aud", "iat", "nbf", "exp", "jti", "sub", "invite_uid", "email", "return_url", "resource_uid",
     "resource_type", "role"}

  // ---------------------------------------------------------------- expiry

  /** A 64-bit signed product, as time.Duration arithmetic computes it. */
  function Wrap64(n: int): int {
    (n + 0x8000_0000_0000_0000) % 0x1_0000_0000_0000_0000 - 0x8000_0000_0000_0000
  }

  function TTL(expirationDays: int): int {
    if expirationDays <= 0 then TOKEN_TTL
    else
      var days := if expirationDays > MAX_EXPIRATION_DAYS then MAX_EXPIRATION_DAYS else expirationDays;
      Wrap64(Wrap64(days * 24) * (3600 * SECOND))
  }

  /** The clamp keeps the 64-bit products exact: the lifetime is the requested number of days where
      that is between 1 and 90, 90 days above and 30 days for zero and negative requests. */
  lemma TTLExact(expirationDays: int)
    ensures TTL(expirationDays) ==
            (if expirationDays <= 0 then 30 else if expirationDays > 90 then 90 else expirationDays) * DAY
    ensures DAY <= TTL(expirationDays) <= 90 * DAY
  {
  }

  function ExpiresAt(p: LinkPayload, now: int): int {
    now + TTL(p.expirationDays)
  }

  function Unix(t: int): int {
    t / SECOND
  }

  // ---------------------------------------------------------------- claims

  predicate ClaimsAdmissible(custom: map<string, string>) {
    && |custom| <= MAX_CUSTOM_CLAIMS
    && forall k | k in custom :: |k| <= MAX_CLAIM_KEY_LEN && |custom[k]| <= MAX_CLAIM_VALUE_LEN
  }

  /** The limits, by number. */
  lemma ClaimLimits(custom: map<string, string>)
    ensures ClaimsAdmissible(custom) <==>
              |custom| <= 16 && forall k | k in custom :: |k| <= 64 && |custom[k]| <= 1024
  {
  }

  /** The non-reserved entries. */
  function Unreserved(custom: map<string, string>): map<string, string> {
    map k | k in custom && k !in RESERVED_CLAIMS :: custom[k]
  }

  /** What Generate returns for persistence: nil when nothing was accepted. */
  function AcceptedClaims(custom: map<string, string>): Option<map<string, string>> {
    var m := Unreserved(custom);
    if m == map[] then None else Some(m)
  }

  /** The claims the service controls. */
  function ServiceClaims(p: LinkPayload, uid: string, now: int): Claims {
    var base: Claims := map[
      "iss" := Str(TOKEN_ISSUER),
      "aud" := Aud([TOKEN_AUDIENCE]),
      "iat" := Num(Unix(now)),
      "nbf" := Num(Unix(now)),
      "exp" := Num(Unix(ExpiresAt(p, now))),
      "jti" := Str(uid),
      "invite_uid" := Str(uid),
      "email" := Str(p.recipientEmail),
      "return_url" := Str(p.destinationURL),
      "resource_uid" := Str(p.resourceUID),
      "role" := Str(p.role)
    ];
    if p.resourceType != "" then base["resource_type" := Str(p.resourceType)] else base
  }

  function StringClaims(m: map<string, string>): Claims {
    map k | k in m :: Str(m[k])
  }

  /** Everything a minted token carries. */
  function MintedClaims(p: LinkPayload, uid: string, now: int): Claims {
    ServiceClaims(p, uid, now) + StringClaims(Unreserved(p.customClaims))
  }

  lemma ServiceClaimsReserved(p: LinkPayload, uid: string, now: int)
    ensures ServiceClaims(p, uid, now).Keys <= RESERVED_CLAIMS
  {
  }

  /** No custom claim reaches a reserved key: on the reserved keys the token carries the service's own
      values, and outside them exactly the accepted custom claims. */
  lemma CustomClaimsCannotHijack(p: LinkPayload, uid: string, now: int, k: string)
    ensures k in RESERVED_CLAIMS ==>
              (k in MintedClaims(p, uid, now) <==> k in ServiceClaims(p, uid, now))
              && (k in MintedClaims(p, uid, now) ==> MintedClaims(p, uid, now)[k] == ServiceClaims(p, uid, now)[k])
    ensures k !in RESERVED_CLAIMS ==>
              (k in MintedClaims(p, uid, now) <==> k in p.customClaims)
              && (k in p.customClaims ==> MintedClaims(p, uid, now)[k] == Str(p.customClaims[k]))
  {
    ServiceClaimsReserved(p, uid, now);
    hide ServiceClaims;
  }

  /** The persisted map is exactly the custom part of the token, and nil exactly when that part is empty. */
  lemma AcceptedClaimsMatchToken(p: LinkPayload, uid: string, now: int)
    ensures AcceptedClaims(p.customClaims) == None <==> MintedClaims(p, uid, now).Keys <= RESERVED_CLAIMS
    ensures AcceptedClaims(p.customClaims).Some? ==>
              AcceptedClaims(p.customClaims).value.Keys == MintedClaims(p, uid, now).Keys - RESERVED_CLAIMS
    ensures AcceptedClaims(p.customClaims).Some? ==>
              forall k | k in AcceptedClaims(p.customClaims).value ::
                k in MintedClaims(p, uid, now)
                && MintedClaims(p, uid, now)[k] == Str(AcceptedClaims(p.customClaims).value[k])
  {
    ServiceClaimsReserved(p, uid, now);
    hide ServiceClaims;
    var m := Unreserved(p.customClaims);
    if m != map[] {
      var k :| k in m;
      assert k in MintedClaims(p, uid, now);
    }
  }

  lemma ServiceClaimsAt(p: LinkPayload, uid: string, now: int)
    ensures var c := ServiceClaims(p, uid, now);
            && "iss" in c && c["iss"] == Str(TOKEN_ISSUER)
            && "aud" in c && c["aud"] == Aud([TOKEN_AUDIENCE])
            && "iat" in c && c["iat"] == Num(Unix(now))
            && "nbf" in c && c["nbf"] == Num(Unix(now))
            && "exp" in c && c["exp"] == Num(Unix(ExpiresAt(p, now)))
            && "jti" in c && c["jti"] == Str(uid)
            && "invite_uid" in c && c["invite_uid"] == Str(uid)
            && "email" in c && c["email"] == Str(p.recipientEmail)
  {
  }

  // ---------------------------------------------------------------- verification

  function StringClaim(c: Claims, k: string): string {
    if k in c && c[k].Str? then c[k].s else ""
  }

  predicate AudienceOk(c: Claims) {
    "aud" in c
    && match c["aud"]
       case Aud(l) => TOKEN_AUDIENCE in l
       case Str(s) => s == TOKEN_AUDIENCE
       case Num(_) => false
  }

  /** exp is required; nbf and iat are checked when present (sections 4.1.4 to 4.1.6 of RFC 7519). */
  predicate TimesOk(c: Claims, now: int) {
    && "exp" in c && c["exp"].Num? && now < c["exp"].n * SECOND + TOKEN_LEEWAY
    && ("nbf" in c ==> c["nbf"].Num? && now >= c["nbf"].n * SECOND - TOKEN_LEEWAY)
    && ("iat" in c ==> c["iat"].Num? && now >= c["iat"].n * SECOND - TOKEN_LEEWAY)
  }

  predicate ParsesAt(key: Secret, t: Token, now: int) {
    && t.key == key
    && "iss" in t.claims && t.claims["iss"] == Str(TOKEN_ISSUER)
    && AudienceOk(t.claims)
    && TimesOk(t.claims, now)
  }

  /** TokenVerifier.Verify with the clock reading the JWT library takes; None is ErrInvalidInviteToken. */
  function Verify(key: Secret, presented: PresentedToken, now: int): Option<TokenClaims> {
    if !presented.Presented? || !ParsesAt(key, presented.token, now) then None
    else
      var c := presented.token.claims;
      var jti, inviteUID, email := StringClaim(c, "jti"), StringClaim(c, "invite_uid"), StringClaim(c, "email");
      if jti == "" || jti != inviteUID || email == "" then None
      else Some(TokenClaims(inviteUID, email))
  }

  /** Which tokens verify, and as what, claim by claim. */
  lemma VerifyExactly(key: Secret, t: Token, now: int, answer: TokenClaims)
    ensures var c := t.claims;
            Verify(key, Presented(t), now) == Some(answer) <==>
              && t.key == key
              && "iss" in c && c["iss"] == Str("lfx-v2-invite-service")
              && "aud" in c
              && (c["aud"] == Str("lfx-self-serve") || (c["aud"].Aud? && "lfx-self-serve" in c["aud"].audiences))
              && "exp" in c && c["exp"].Num? && now < (c["exp"].n + 60) * 1_000_000_000
              && ("nbf" in c ==> c["nbf"].Num? && (c["nbf"].n - 60) * 1_000_000_000 <= now)
              && ("iat" in c ==> c["iat"].Num? && (c["iat"].n - 60) * 1_000_000_000 <= now)
              && "jti" in c && c["jti"].Str? && c["jti"].s != ""
              && "invite_uid" in c && c["invite_uid"] == c["jti"]
              && "email" in c && c["email"].Str? && c["email"].s != ""
              && answer == TokenClaims(c["jti"].s, c["email"].s)
    ensures Verify(key, NoToken, now) == None && Verify(key, Garbage, now) == None
  {
  }

  function Mint(key: Secret, p: LinkPayload, uid: string, now: int): Token {
    Token(key, MintedClaims(p, uid, now))
  }

  lemma MintedClaimsAt(p: LinkPayload, uid: string, now: int)
    ensures var c := MintedClaims(p, uid, now);
            && "iss" in c && c["iss"] == Str(TOKEN_ISSUER)
            && "aud" in c && c["aud"] == Aud([TOKEN_AUDIENCE])
            && "iat" in c && c["iat"] == Num(Unix(now))
            && "nbf" in c && c["nbf"] == Num(Unix(now))
            && "exp" in c && c["exp"] == Num(Unix(ExpiresAt(p, now)))
            && "jti" in c && c["jti"] == Str(uid)
            && "invite_uid" in c && c["invite_uid"] == Str(uid)
            && "email" in c && c["email"] == Str(p.recipientEmail)
  {
    ServiceClaimsAt(p, uid, now);
    hide ServiceClaims, MintedClaims;
    CustomClaimsCannotHijack(p, uid, now, "iss");
    CustomClaimsCannotHijack(p, uid, now, "aud");
    CustomClaimsCannotHijack(p, uid, now, "iat");
    CustomClaimsCannotHijack(p, uid, now, "nbf");
    CustomClaimsCannotHijack(p, uid, now, "exp");
    CustomClaimsCannotHijack(p, uid, now, "jti");
    CustomClaimsCannotHijack(p, uid, now, "invite_uid");
    CustomClaimsCannotHijack(p, uid, now, "email");
  }

  lemma MintedResourceClaimsAt(p: LinkPayload, uid: string, now: int)
    ensures var c := MintedClaims(p, uid, now);
            && "return_url" in c && c["return_url"] == Str(p.destinationURL)
            && "resource_uid" in c && c["resource_uid"] == Str(p.resourceUID)
            && "role" in c && c["role"] == Str(p.role)
            && ("resource_type" in c <==> p.resourceType != "")
            && ("resource_type" in c ==> c["resource_type"] == Str(p.resourceType))
  {
    ServiceResourceClaimsAt(p, uid, now);
    hide ServiceClaims, MintedClaims;
    CustomClaimsCannotHijack(p, uid, now, "return_url");
    CustomClaimsCannotHijack(p, uid, now, "resource_uid");
    CustomClaimsCannotHijack(p, uid, now, "role");
    CustomClaimsCannotHijack(p, uid, now, "resource_type");
  }

  lemma ServiceResourceClaimsAt(p: LinkPayload, uid: string, now: int)
    ensures var c := ServiceClaims(p, uid, now);
            && "return_url" in c && c["return_url"] == Str(p.destinationURL)
            && "resource_uid" in c && c["resource_uid"] == Str(p.resourceUID)
            && "role" in c && c["role"] == Str(p.role)
            && ("resource_type" in c <==> p.resourceType != "")
            && ("resource_type" in c ==> c["resource_type"] == Str(p.resourceType))
  {
  }

  /** Verify undoes Generate exactly while the token is live: the minted UID and the payload's e-mail
      come back, whatever the custom claims, and nothing comes back before nbf or after exp (with the
      leeway), for an empty e-mail or under another key. */
  lemma VerifyUndoesMint(signKey: Secret, key: Secret, p: LinkPayload, uid: string, at: int, now: int)
    requires uid != ""
    ensures Verify(key, Presented(Mint(signKey, p, uid, at)), now) ==
            if && key == signKey && p.recipientEmail != ""
               && Unix(at) * SECOND - TOKEN_LEEWAY <= now < Unix(ExpiresAt(p, at)) * SECOND + TOKEN_LEEWAY
            then Some(TokenClaims(uid, p.recipientEmail)) else None
  {
    MintedClaimsAt(p, uid, at);
    hide MintedClaims, Unix, ExpiresAt;
  }

  /** The record's own expiry is the binding gate: a minted token verifies at every instant from
      minting up to the record's expiry and for 59 more seconds. */
  lemma TokenOutlivesRecord(key: Secret, p: LinkPayload, uid: string, at: int, now: int)
    requires uid != "" && p.recipientEmail != ""
    requires at <= now <= ExpiresAt(p, at) + 59 * SECOND
    ensures Verify(key, Presented(Mint(key, p, uid, at)), now) == Some(TokenClaims(uid, p.recipientEmail))
  {
    VerifyUndoesMint(key, key, p, uid, at, now);
  }
}
