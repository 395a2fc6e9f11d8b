/** LinkGenerator: mints the signed invite link of one request. */
module Links {
  import opened Base
  import opened Model
  import opened Auth
  import opened KeyValue
  import opened Protocol
  import opened World
  import opened InviteStore
  import Stability

  datatype LinkError = ErrInvalidCustomClaims | ErrSigning

  datatype GeneratedLink = GeneratedLink(
    link: InviteLink,
    inviteUID: string,
    expiresAt: int,
    acceptedClaims: Option<map<string, string>>)

  // ---------------------------------------------------------------- custom claims

  function Only(m: map<string, string>, keys: set<string>): map<string, string> {
    map k | k in m && k in keys :: m[k]
  }

  /** base together with the accepted part of the claims visited so far. */
  function ClaimsFor(base: Claims, m: map<string, string>, done: set<string>): Claims {
    base + StringClaims(Unreserved(Only(m, done)))
  }

  function AcceptedFor(m: map<string, string>, done: set<string>): Option<map<string, string>> {
    AcceptedClaims(Only(m, done))
  }

  predicate ClaimFine(m: map<string, string>, k: string)
    requires k in m
  {
    |k| <= MAX_CLAIM_KEY_LEN && |m[k]| <= MAX_CLAIM_VALUE_LEN
  }

  predicate VisitedFine(m: map<string, string>, done: set<string>) {
    done <= m.Keys && forall k | k in done :: ClaimFine(m, k)
  }

  lemma Judged(m: map<string, string>)
    ensures |m| > MAX_CUSTOM_CLAIMS ==> !ClaimsAdmissible(m)
    ensures |m| <= MAX_CUSTOM_CLAIMS && VisitedFine(m, m.Keys) ==> ClaimsAdmissible(m)
    ensures forall k | k in m && !ClaimFine(m, k) :: !ClaimsAdmissible(m)
  {
    assert VisitedFine(m, m.Keys) ==> forall k | k in m :: ClaimFine(m, k);
  }

  lemma NoneVisited(base: Claims, m: map<string, string>)
    ensures ClaimsFor(base, m, {}) == base && AcceptedFor(m, {}) == None
  {
    assert Only(m, {}) == map[];
  }

  lemma AllVisited(base: Claims, m: map<string, string>)
    ensures ClaimsFor(base, m, m.Keys) == base + StringClaims(Unreserved(m))
    ensures AcceptedFor(m, m.Keys) == AcceptedClaims(m)
  {
    assert Only(m, m.Keys) == m;
  }

  lemma ReservedVisited(base: Claims, m: map<string, string>, done: set<string>, k: string)
    requires k in m && k in RESERVED_CLAIMS
    ensures ClaimsFor(base, m, done + {k}) == ClaimsFor(base, m, done)
    ensures AcceptedFor(m, done + {k}) == AcceptedFor(m, done)
  {
    hide RESERVED_CLAIMS;
    assert Unreserved(Only(m, done + {k})) == Unreserved(Only(m, done));
  }

  lemma AcceptedVisited(base: Claims, m: map<string, string>, done: set<string>, k: string)
    requires k in m && k !in RESERVED_CLAIMS
    ensures ClaimsFor(base, m, done + {k}) == ClaimsFor(base, m, done)[k := Str(m[k])]
    ensures AcceptedFor(m, done + {k}) ==
            Some((if AcceptedFor(m, done).None? then map[] else AcceptedFor(m, done).value)[k := m[k]])
  {
    hide RESERVED_CLAIMS, StringClaims, Unreserved, AcceptedClaims;
    UnreservedVisited(m, done, k);
    StringClaimsUpdated(Unreserved(Only(m, done)), k, m[k]);
    AcceptedIs(Only(m, done));
    AcceptedIs(Only(m, done + {k}));
    assert k in Unreserved(Only(m, done + {k}));
    hide Only;
  }

  lemma UnreservedVisited(m: map<string, string>, done: set<string>, k: string)
    requires k in m && k !in RESERVED_CLAIMS
    ensures Unreserved(Only(m, done + {k})) == Unreserved(Only(m, done))[k := m[k]]
  {
    hide RESERVED_CLAIMS;
  }

  lemma StringClaimsUpdated(m: map<string, string>, k: string, v: string)
    ensures StringClaims(m[k := v]) == StringClaims(m)[k := Str(v)]
  {
  }

  lemma AcceptedIs(m: map<string, string>)
    ensures AcceptedClaims(m) == if Unreserved(m) == map[] then None else Some(Unreserved(m))
  {
    hide Unreserved;
  }

  /** The custom-claim loop of Generate. The claims are visited in an arbitrary order, as Go iterates a map;
      the outcome does not depend on it. */
  method AddCustomClaims(base: Claims, custom: map<string, string>)
    returns (ok: bool, claims: Claims, accepted: Option<map<string, string>>)
    ensures ok <==> ClaimsAdmissible(custom)
    ensures ok ==> claims == base + StringClaims(Unreserved(custom)) && accepted == AcceptedClaims(custom)
  {
    hide RESERVED_CLAIMS, ClaimsFor, AcceptedFor, ClaimsAdmissible, StringClaims, Unreserved, AcceptedClaims;
    Judged(custom);
    claims, accepted := base, None;
    if |custom| > MAX_CUSTOM_CLAIMS {
      return false, claims, accepted;
    }
    NoneVisited(base, custom);
    ghost var done: set<string> := {};
    var rest := custom.Keys;
    while rest != {}
      invariant rest <= custom.Keys && done == custom.Keys - rest && VisitedFine(custom, done)
      invariant claims == ClaimsFor(base, custom, done) && accepted == AcceptedFor(custom, done)
    {
      var k :| k in rest;
      rest := rest - {k};
      if |k| > MAX_CLAIM_KEY_LEN {
        return false, claims, accepted;
      }
      if |custom[k]| > MAX_CLAIM_VALUE_LEN {
        return false, claims, accepted;
      }
      if k in RESERVED_CLAIMS {
        ReservedVisited(base, custom, done, k);
        done := done + {k};
        continue;
      }
      AcceptedVisited(base, custom, done, k);
      done := done + {k};
      claims := claims[k := Str(custom[k])];
      if accepted == None {
        accepted := Some(map[]);
      }
      accepted := Some(accepted.value[k := custom[k]]);
    }
    assert done == custom.Keys;
    AllVisited(base, custom);
    ok := true;
  }

  // ---------------------------------------------------------------- effects and place in the protocol

  predicate AtGenerate(pc: Tracker, p: LinkPayload) {
    pc.At? ==> pc.l.SClock? && LinkPayloadOf(pc.l.p) == p
  }

  function GenerateEnd(pc: Tracker, uid: string, at: int, r: Result<GeneratedLink, LinkError>): Tracker
    requires pc.At? ==> pc.l.SClock?
  {
    if pc.Untracked? then Untracked
    else
      match r
      case Ok(_) => At(SBuild(pc.l.p, uid, at))
      case Err(ErrInvalidCustomClaims) => At(SDone(Invalid(Some(uid))))
      case Err(ErrSigning) => At(SDone(NotSigned(uid)))
  }

  lemma PayloadClaims(p: Prepared)
    ensures LinkPayloadOf(p).customClaims == p.req.customClaims
  {
  }

  lemma GenerateStarts(st: Settings, pc: Tracker, p: LinkPayload, t: int)
    requires AtGenerate(pc, p)
    ensures Follows(st, pc, Op.Now) && Follows(st, Advance(st, pc, Time(t)), Op.NewUid(p, t))
  {
    hide LinkPayloadOf;
  }

  lemma GenerateGoesOn(st: Settings, pc: Tracker, p: LinkPayload, t: int, uid: string, token: Option<Token>,
                       link: GeneratedLink)
    requires AtGenerate(pc, p)
    ensures var pc2 := Advance(st, Advance(st, pc, Time(t)), Uid(uid));
            if ClaimsAdmissible(p.customClaims)
            then && Follows(st, pc2, Op.Sign(MintedClaims(p, uid, t)))
                 && Advance(st, pc2, Signed(token))
                    == GenerateEnd(pc, uid, t, if token.Some? then Ok(link) else Err(ErrSigning))
            else pc2 == GenerateEnd(pc, uid, t, Err(ErrInvalidCustomClaims))
  {
    hide LinkPayloadOf, MintedClaims, ClaimsAdmissible;
    if pc.At? {
      PayloadClaims(pc.l.p);
    }
  }

  lemma ClaimSet(p: LinkPayload, uid: string, now: int, expiresAt: int)
    requires expiresAt == ExpiresAt(p, now)
    ensures var base: Claims := map["iss" := Str(TOKEN_ISSUER), "aud" := Aud([TOKEN_AUDIENCE]), "iat" := Num(Unix(now)),
                                    "nbf" := Num(Unix(now)), "exp" := Num(Unix(expiresAt)), "jti" := Str(uid),
                                    "invite_uid" := Str(uid), "email" := Str(p.recipientEmail),
                                    "return_url" := Str(p.destinationURL),
                                    "resource_uid" := Str(p.resourceUID), "role" := Str(p.role)];
            ServiceClaims(p, uid, now) ==
            if p.resourceType != "" then base["resource_type" := Str(p.resourceType)] else base
  {
    hide ExpiresAt, Unix;
  }

  /** Generate minted the link of this payload: the token, the expiry and the claims to persist all come
      from one UID and one clock reading. */
  predicate GenerateOk(st: Settings, p: LinkPayload, uid: string, at: int, r: Result<GeneratedLink, LinkError>) {
    && (r == Err(ErrInvalidCustomClaims) <==> !ClaimsAdmissible(p.customClaims))
    && (r.Ok? ==>
          r.value == GeneratedLink(InviteLink(st.inviteLinkBaseURL, Mint(st.secret, p, uid, at)), uid,
                                   ExpiresAt(p, at), AcceptedClaims(p.customClaims)))
  }

  class LinkGenerator {
    const world: Client

    constructor (world: Client)
      ensures this.world == world
    {
      this.world := world;
    }

    /** Mints the link: fails on inadmissible custom claims before signing, touches no KV key and sends
        nothing. uid and at are what the token was minted from. */
    method Generate(p: LinkPayload) returns (r: Result<GeneratedLink, LinkError>, ghost uid: string, ghost at: int)
      requires world.Valid() && AtGenerate(world.pc, p)
      modifies world
      ensures world.Valid() && Env(old(world.shared), world.shared)
      ensures GenerateOk(world.st, p, uid, at, r)
      ensures r.Ok? ==>
                var d := p.expirationDays;
                r.value.expiresAt == at + (if d <= 0 then 30 else if d > 90 then 90 else d) * 86_400_000_000_000
      ensures old(world.shared).clock <= at <= world.shared.clock
      ensures Quiet(old(world.log), world.log)
      ensures world.pc == GenerateEnd(old(world.pc), uid, at, r)
    {
      hide BucketOk, Stability.Grows, Env, ObsOk, Advance, Perform, Allowed, Call, Resume, Running, Follows,
        Client.Valid, AtGenerate, GenerateEnd, ClaimsAdmissible, ServiceClaims, MintedClaims, AcceptedClaims,
        Unreserved, StringClaims, Unix, TTL, Wrap64, FreshUid;
      ghost var sh0, pc0 := world.shared, world.pc;
      GenerateStarts(world.st, pc0, p, sh0.clock);
      var now := world.Now();
      at := now;
      ghost var sh1 := world.shared;
      EnvSteps(sh0, sh1, sh1);
      GenerateStarts(world.st, pc0, p, now);
      var inviteUID := world.NewUid(p, now);
      uid := inviteUID;
      EnvSteps(sh0, sh1, world.shared);
      var ttl := TOKEN_TTL;
      var expirationDays := p.expirationDays;
      if expirationDays > 0 {
        if expirationDays > MAX_EXPIRATION_DAYS {
          expirationDays := MAX_EXPIRATION_DAYS;
        }
        ttl := Wrap64(Wrap64(expirationDays * 24) * (3600 * SECOND));
      }
      ClampedTTL(p.expirationDays, expirationDays);
      TTLExact(p.expirationDays);
      var expiresAt := now + ttl;
      var claims: Claims := map[
        "iss" := Str(TOKEN_ISSUER),
        "aud" := Aud([TOKEN_AUDIENCE]),
        "iat" := Num(Unix(now)),
        "nbf" := Num(Unix(now)),
        "exp" := Num(Unix(expiresAt)),
        "jti" := Str(inviteUID),
        "invite_uid" := Str(inviteUID),
        "email" := Str(p.recipientEmail),
        "return_url" := Str(p.destinationURL),
        "resource_uid" := Str(p.resourceUID),
        "role" := Str(p.role)
      ];
      if p.resourceType != "" {
        claims := claims["resource_type" := Str(p.resourceType)];
      }
      ClaimSet(p, inviteUID, now, expiresAt);
      GenerateGoesOn(world.st, pc0, p, now, inviteUID, None,
                    GeneratedLink(InviteLink("", Token("", map[])), "", 0, None));
      var ok, all, acceptedClaims := AddCustomClaims(claims, p.customClaims);
      if !ok {
        r := Err(ErrInvalidCustomClaims);
        return;
      }
      MintedFrom(p, inviteUID, now);
      ghost var sh2 := world.shared;
      var signed := world.Sign(all);
      EnvSteps(sh0, sh2, world.shared);
      if signed.None? {
        r := Err(ErrSigning);
        return;
      }
      var link := GeneratedLink(InviteLink(world.st.inviteLinkBaseURL, signed.value),
                                inviteUID, expiresAt, acceptedClaims);
      GenerateGoesOn(world.st, pc0, p, now, inviteUID, signed, link);
      r := Ok(link);
    }
  }

  lemma MintedFrom(p: LinkPayload, uid: string, now: int)
    ensures MintedClaims(p, uid, now) == ServiceClaims(p, uid, now) + StringClaims(Unreserved(p.customClaims))
  {
    hide ServiceClaims, StringClaims, Unreserved;
  }

  lemma ClampedTTL(requested: int, clamped: int)
    requires clamped == if requested > 0 && requested > MAX_EXPIRATION_DAYS then MAX_EXPIRATION_DAYS else requested
    ensures TTL(requested) == if clamped > 0 then Wrap64(Wrap64(clamped * 24) * (3600 * SECOND)) else TOKEN_TTL
  {
    hide Wrap64;
  }
}
