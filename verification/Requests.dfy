/** What becomes of a request, told from the request alone: when it is refused, what its token, e-mail and record
    contain, who can accept the invite, and how the caller is answered. */
module Requests {
  import opened Base
  import opened Model
  import opened Auth
  import opened KeyValue
  import opened Protocol
  import opened Lifecycle
  import opened Stability
  import opened Preservation
  import opened SagaSteps
  import opened Runs
  import opened Growth
  import opened Theorems
  import opened Refinement
  import KeySpace

  // ---------------------------------------------------------------- the terms of a request

  /** What the service takes from an admitted request: the parsed address, the role without the white space around
      it, and the caller's return URL or, without one, the configured default. */
  ghost predicate Terms(cfg: NotificationConfig, parsers: Parsers, req: SendInviteRequest, email: Bytes, role: string,
                        dest: string)
  {
    && parsers.parseAddress(if req.recipient.Some? && req.recipient.value.email != "" then req.recipient.value.email
                            else req.recipientEmail) == Some(email)
    && role != "" && (exists a, z :: KeySpace.Around(req.role, a, role, z))
    && dest == (if req.returnURL != "" then req.returnURL else cfg.defaultReturnURL)
  }

  /** The return URL is admitted by the allow-list. */
  ghost predicate Admitted(parsers: Parsers, url: string, allowed: seq<string>) {
    || |allowed| == 0
    || (&& parsers.parseURL(url).Some? && parsers.parseURL(url).value.scheme == "https"
        && var host := parsers.parseURL(url).value.host;
        || (host in allowed && !("*." <= host))
        || (exists sub, domain :: "*." + domain in allowed && host == sub + "." + domain))
  }

  /** The request is at fault: no e-mail, an address that does not parse, a blank role, a return URL that is not
      admitted, or custom claims over a limit. */
  ghost predicate AtFault(cfg: NotificationConfig, parsers: Parsers, req: SendInviteRequest) {
    var email := if req.recipient.Some? && req.recipient.value.email != "" then req.recipient.value.email
                 else req.recipientEmail;
    || email == "" || parsers.parseAddress(email).None?
    || (forall i | 0 <= i < |req.role| :: KeySpace.IsSpace(req.role[i]))
    || (req.returnURL != "" && !Admitted(parsers, req.returnURL, cfg.allowedReturnURLHosts))
    || |req.customClaims| > 16
    || (exists k :: k in req.customClaims && (|k| > 64 || |req.customClaims[k]| > 1024))
  }

  /** The lifetime asked for, in nanoseconds: 30 days unless a positive number of days is given, and at most 90. */
  function Lifetime(days: int): int {
    (if days <= 0 then 30 else if days > 90 then 90 else days) * 86_400_000_000_000
  }

  /** The claim keys callers cannot set. */
  const KEPT_BACK: set<string> :=
    {"iss", "aud", "iat", "nbf", "exp", "jti", "sub", "invite_uid", "email", "return_url", "resource_uid",
     "resource_type", "role"}

  // ---------------------------------------------------------------- what is made of the terms

  predicate RecipientFor(r: Recipient, req: SendInviteRequest, email: Bytes) {
    && r.email == email
    && r.name == (if req.recipient.Some? && req.recipient.value.name != "" then req.recipient.value.name
                  else req.recipientName)
    && r.username == (if req.recipient.Some? then req.recipient.value.username else "")
    && r.avatar == (if req.recipient.Some? then req.recipient.value.avatar else "")
  }

  predicate InviterFor(r: Inviter, req: SendInviteRequest) {
    && r.name == (if req.inviter.Some? && req.inviter.value.name != "" then req.inviter.value.name else req.inviterName)
    && r.username == (if req.inviter.Some? then req.inviter.value.username else "")
    && r.email == (if req.inviter.Some? then req.inviter.value.email else "")
    && r.avatar == (if req.inviter.Some? then req.inviter.value.avatar else "")
  }

  predicate ResourceFor(r: InviteResource, req: SendInviteRequest) {
    && r.uid == (if req.resource.Some? && req.resource.value.uid != "" then req.resource.value.uid else req.resourceUID)
    && r.name == (if req.resource.Some? && req.resource.value.name != "" then req.resource.value.name
                  else req.resourceName)
    && r.kind == (if req.resource.Some? && req.resource.value.kind != "" then req.resource.value.kind
                  else req.resourceType)
    && r.parentName == (if req.resource.Some? then req.resource.value.parentName else "")
  }

  /** The persisted claims: the caller's entries but those kept back, nil when there are none. */
  ghost predicate ClaimsKept(kept: Option<map<string, string>>, custom: map<string, string>) {
    && (kept == None <==> forall k | k in custom :: k in KEPT_BACK)
    && (kept.Some? ==>
          && (forall k :: k in kept.value <==> k in custom && k !in KEPT_BACK)
          && (forall k | k in kept.value :: kept.value[k] == custom[k]))
  }

  /** The pending record of a request, minted at mintedAt. */
  ghost predicate RecordFor(r: InviteRecord, req: SendInviteRequest, email: Bytes, role: string, dest: string,
                            uid: string, mintedAt: int)
  {
    && r.uid == uid && r.status == Pending && r.acceptedAt == None && r.acceptedBy == ""
    && RecipientFor(r.recipient, req, email) && InviterFor(r.inviter, req) && ResourceFor(r.resource, req)
    && r.role == role && r.orgName == req.orgName && r.returnURL == dest
    && r.expirationDays == req.expirationDays && r.expiresAt == mintedAt + Lifetime(req.expirationDays)
    && r.createdAt >= mintedAt
    && ClaimsKept(r.customClaims, req.customClaims)
  }

  /** The claims the service sets. */
  predicate OwnClaims(c: Claims, req: SendInviteRequest, email: Bytes, role: string, dest: string, uid: string,
                      mintedAt: int)
  {
    && "iss" in c && c["iss"] == Str("lfx-v2-invite-service")
    && "aud" in c && c["aud"] == Aud(["lfx-self-serve"])
    && "iat" in c && c["iat"] == Num(mintedAt / 1_000_000_000)
    && "nbf" in c && c["nbf"] == Num(mintedAt / 1_000_000_000)
    && "exp" in c && c["exp"] == Num((mintedAt + Lifetime(req.expirationDays)) / 1_000_000_000)
    && "jti" in c && c["jti"] == Str(uid)
    && "invite_uid" in c && c["invite_uid"] == Str(uid)
    && "email" in c && c["email"] == Str(email)
    && "return_url" in c && c["return_url"] == Str(dest)
    && "role" in c && c["role"] == Str(role)
    && "sub" !in c
  }

  /** The claims about the resource: its type only where it has one. */
  predicate ResourceClaims(c: Claims, r: InviteResource) {
    && "resource_uid" in c && c["resource_uid"] == Str(r.uid)
    && ("resource_type" in c <==> r.kind != "")
    && ("resource_type" in c ==> c["resource_type"] == Str(r.kind))
  }

  /** Outside the keys kept back, exactly the caller's claims. */
  ghost predicate CallerClaims(c: Claims, custom: map<string, string>) {
    && (forall k | k !in KEPT_BACK :: k in c <==> k in custom)
    && (forall k | k in custom && k !in KEPT_BACK :: k in c && c[k] == Str(custom[k]))
  }

  /** The token of a request: signed with the service's key, and carrying exactly these claims. */
  ghost predicate TokenFor(secret: Secret, t: Token, req: SendInviteRequest, email: Bytes, role: string, dest: string,
                           uid: string, mintedAt: int)
  {
    && t.key == secret
    && OwnClaims(t.claims, req, email, role, dest, uid, mintedAt)
    && (exists r :: ResourceFor(r, req) && ResourceClaims(t.claims, r))
    && CallerClaims(t.claims, req.customClaims)
  }

  /** The e-mail of a request. */
  ghost predicate EmailFor(st: Settings, m: InviteEmailPayload, req: SendInviteRequest, email: Bytes, role: string,
                           dest: string, uid: string, mintedAt: int)
  {
    && (exists r :: RecipientFor(r, req, email) && m.recipientEmail == r.email && m.recipientName == r.name)
    && (exists r :: InviterFor(r, req) && m.inviterName == r.name)
    && ResourceFor(InviteResource(m.resourceUID, m.resourceName, m.resourceType, m.parentResourceName), req)
    && m.role == role && m.orgName == req.orgName && m.recipientHasAccount == req.recipientHasAccount
    && m.inviteLink.baseURL == st.inviteLinkBaseURL
    && TokenFor(st.secret, m.inviteLink.token, req, email, role, dest, uid, mintedAt)
  }

  // ---------------------------------------------------------------- one issued invite

  lemma LifetimeIs(p: LinkPayload, at: int)
    ensures ExpiresAt(p, at) == at + Lifetime(p.expirationDays)
  {
    TTLExact(p.expirationDays);
    hide TTL;
  }

  lemma ClaimsAreKept(custom: map<string, string>)
    ensures ClaimsKept(AcceptedClaims(custom), custom)
  {
    var m := Unreserved(custom);
    if m == map[] {
      forall k | k in custom ensures k in KEPT_BACK {
        assert k !in m;
      }
    } else {
      var k :| k in m;
      assert k in custom && k !in KEPT_BACK;
    }
  }

  /** The record of an issued invite says what its request said. */
  lemma RecordAsRequested(i: Issued)
    requires i.mintedAt <= i.createdAt
    ensures RecordFor(RecordOf(i), i.p.req, i.p.email, i.p.role, i.p.destURL, i.uid, i.mintedAt)
  {
    LifetimeIs(LinkPayloadOf(i.p), i.mintedAt);
    ClaimsAreKept(i.p.req.customClaims);
    hide ExpiresAt, AcceptedClaims, ClaimsKept, Lifetime;
  }

  lemma CallerClaimsOf(p: LinkPayload, uid: string, at: int)
    ensures CallerClaims(MintedClaims(p, uid, at), p.customClaims) && "sub" !in MintedClaims(p, uid, at)
  {
    NoSubject(p, uid, at);
    forall k | k !in KEPT_BACK
      ensures k in MintedClaims(p, uid, at) <==> k in p.customClaims
      ensures k in p.customClaims ==> MintedClaims(p, uid, at)[k] == Str(p.customClaims[k])
    {
      CustomClaimsCannotHijack(p, uid, at, k);
    }
    hide MintedClaims;
  }

  lemma NoSubject(p: LinkPayload, uid: string, at: int)
    ensures "sub" !in MintedClaims(p, uid, at)
  {
    assert "sub" !in ServiceClaims(p, uid, at);
    CustomClaimsCannotHijack(p, uid, at, "sub");
  }

  /** The token of an issued invite says what its request said, and nothing else. */
  lemma TokenAsRequested(st: Settings, i: Issued)
    ensures TokenFor(st.secret, TokenOf(st, i), i.p.req, i.p.email, i.p.role, i.p.destURL, i.uid, i.mintedAt)
  {
    var p := LinkPayloadOf(i.p);
    MintedClaimsAt(p, i.uid, i.mintedAt);
    MintedResourceClaimsAt(p, i.uid, i.mintedAt);
    CallerClaimsOf(p, i.uid, i.mintedAt);
    LifetimeIs(p, i.mintedAt);
    hide MintedClaims, ExpiresAt, CallerClaims, Lifetime;
    var r := InviteResource(p.resourceUID, "", p.resourceType, "").(name := i.p.req.ResolvedResourceName(),
                                                                    parentName := i.p.req.ResolvedParentResourceName());
    assert ResourceFor(r, i.p.req) && ResourceClaims(TokenOf(st, i).claims, r);
  }

  /** The e-mail of an issued invite says what its request said, and carries that token. */
  lemma EmailAsRequested(st: Settings, i: Issued)
    ensures EmailFor(st, EmailOf(st, i), i.p.req, i.p.email, i.p.role, i.p.destURL, i.uid, i.mintedAt)
  {
    TokenAsRequested(st, i);
    hide TokenFor, TokenOf;
    var r := Recipient(i.p.req.ResolvedRecipientName(), i.p.email,
                       if i.p.req.recipient.Some? then i.p.req.recipient.value.username else "",
                       if i.p.req.recipient.Some? then i.p.req.recipient.value.avatar else "");
    assert RecipientFor(r, i.p.req, i.p.email);
    var n := Inviter(i.p.req.ResolvedInviterName(),
                     if i.p.req.inviter.Some? then i.p.req.inviter.value.username else "",
                     if i.p.req.inviter.Some? then i.p.req.inviter.value.email else "",
                     if i.p.req.inviter.Some? then i.p.req.inviter.value.avatar else "");
    assert InviterFor(n, i.p.req);
  }

  // ---------------------------------------------------------------- a request on its way

  /** The invite a sender has issued, from its first write on. */
  function IssuedOf(l: Local): Option<Issued> {
    match l
    case SPutRecord(i) => Some(i)
    case SPutIndex(i) => Some(i)
    case SUndo(i) => Some(i)
    case SSend(i) => Some(i)
    case SDelGet(i) => Some(i)
    case SDelRecord(i, _) => Some(i)
    case SDelIndex(i, _) => Some(i)
    case SDone(RecordNotPut(i)) => Some(i)
    case SDone(IndexNotPut(i, _)) => Some(i)
    case SDone(NotSent(i, _)) => Some(i)
    case SDone(Sent(i)) => Some(i)
    case _ => None
  }

  /** The handler works on q, the outcome of the checks on its request. */
  predicate Carries(l: Local, q: Option<Prepared>) {
    match l
    case SClock(p) => q == Some(p)
    case SUid(p, _) => q == Some(p)
    case SSign(p, _, _) => q == Some(p) && ClaimsAdmissible(p.req.customClaims)
    case SBuild(p, _, _) => q == Some(p) && ClaimsAdmissible(p.req.customClaims)
    case SDone(Invalid(u)) => if u.None? then q == None else q.Some? && !ClaimsAdmissible(q.value.req.customClaims)
    case SDone(NotSigned(_)) => q.Some? && ClaimsAdmissible(q.value.req.customClaims)
    case _ => IssuedOf(l).Some? && q == Some(IssuedOf(l).value.p) && ClaimsAdmissible(q.value.req.customClaims)
  }

  lemma ResumeCarries(st: Settings, l: Local, r: Res, q: Option<Prepared>)
    requires Carries(l, q)
    ensures Carries(Resume(st, l, r), q)
  {
    hide ClaimsAdmissible;
  }

  lemma ApplyCarries(d: Deployment, s: Sys, e: Event, h: nat, q: Option<Prepared>)
    requires h in s.procs && Carries(s.procs[h], q)
    ensures h in Apply(d, s, e).procs && Carries(Apply(d, s, e).procs[h], q)
  {
    hide Carries, Call, Resume, Perform, Running, Allowed, StartSend, StartAccept, Unforged;
    match e
    case Step(a, ch) =>
      if a == h && CanStep(d.st, s, h, ch) {
        ResumeCarries(d.st, s.procs[h], Perform(d.st, s.shared, h, Call(d.st, s.procs[h]), ch).1, q);
      }
    case _ =>
  }

  lemma {:induction false} RunCarries(d: Deployment, s: Sys, es: seq<Event>, h: nat, q: Option<Prepared>)
    requires h in s.procs && Carries(s.procs[h], q)
    ensures h in Run(d, s, es).procs && Carries(Run(d, s, es).procs[h], q)
  {
    if es == [] {
    } else {
      hide Apply, Carries;
      RunCarries(d, s, es[..|es| - 1], h, q);
      ApplyCarries(d, Run(d, s, es[..|es| - 1]), es[|es| - 1], h, q);
    }
  }

  /** In the run es handler h was started, by event n, on the request req. */
  ghost predicate SpawnedWith(d: Deployment, t: int, es: seq<Event>, n: nat, h: nat, req: SendInviteRequest) {
    n < |es| && es[n] == SpawnSend(h, req) && h !in Run(d, Init(t), es[..n]).procs
  }

  lemma SpawnCarries(d: Deployment, s: Sys, h: nat, req: SendInviteRequest)
    requires h !in s.procs
    ensures var s2 := Apply(d, s, SpawnSend(h, req));
            h in s2.procs && Carries(s2.procs[h], Prepare(d.cfg, d.parsers, req))
  {
    hide Prepare;
  }

  /** A handler started on a request works on that request to the end. */
  lemma WorksOnRequest(d: Deployment, t: int, es: seq<Event>, n: nat, h: nat, req: SendInviteRequest)
    requires SpawnedWith(d, t, es, n, h, req)
    ensures h in Run(d, Init(t), es).procs
    ensures Carries(Run(d, Init(t), es).procs[h], Prepare(d.cfg, d.parsers, req))
  {
    hide Apply, Carries, Init, Prepare;
    var s := Run(d, Init(t), es[..n]);
    SpawnCarries(d, s, h, req);
    RunOneMore(d, Init(t), es[..n], es[n]);
    assert es[..n] + [es[n]] == es[..n + 1];
    RunCarries(d, Run(d, Init(t), es[..n + 1]), es[n + 1..], h, Prepare(d.cfg, d.parsers, req));
    RunSplits(d, Init(t), es[..n + 1], es[n + 1..]);
    assert es[..n + 1] + es[n + 1..] == es;
  }

  /** What passed the checks are the terms of the request. */
  lemma PreparedMeans(cfg: NotificationConfig, parsers: Parsers, req: SendInviteRequest)
    ensures var q := Prepare(cfg, parsers, req);
            && (q.Some? ==>
                  q.value.req == req && Terms(cfg, parsers, req, q.value.email, q.value.role, q.value.destURL))
            && (AtFault(cfg, parsers, req) <==> q.None? || !ClaimsAdmissible(req.customClaims))
  {
    RefusedExactlyWhen(cfg, parsers, req);
    AdmittedExactly(req.returnURL, cfg.allowedReturnURLHosts, parsers.parseURL);
    ClaimLimits(req.customClaims);
    hide Prepare, ValidReturnURL, ClaimsAdmissible, KeySpace.Around, KeySpace.IsSpace;
  }

  // ---------------------------------------------------------------- what is stored and sent

  lemma WrittenIsIssued(st: Settings, sh: Shared, h: nat, l: Local, uid: string)
    requires LocalInv(st, sh, h, l) && UidOf(l) == Some(uid) && P(sh, uid) != []
    ensures IssuedOf(l).Some? && IssuedOf(l).value.uid == uid && IssuedInv(st, sh, h, IssuedOf(l).value)
    ensures HoldsRecord(P(sh, uid)[0], RecordOf(IssuedOf(l).value))
  {
    hide IssuedInv, RecordOf, NoIndex, Indexed, Unindexed, MintedFor, X;
  }

  lemma IssuedTimes(st: Settings, sh: Shared, h: nat, i: Issued)
    requires IssuedInv(st, sh, h, i)
    ensures i.uid in sh.minted && sh.minted[i.uid].at == i.mintedAt <= i.createdAt && sh.minted[i.uid].handler == h
  {
    hide ClaimsAdmissible, TokenOf, LinkPayloadOf;
  }

  lemma CarriesIssued(l: Local, q: Option<Prepared>)
    requires Carries(l, q) && IssuedOf(l).Some?
    ensures q == Some(IssuedOf(l).value.p)
  {
    hide ClaimsAdmissible;
  }

  /** In every run the first record stored under the UID minted for a request says, field by field, what the request
      said. */
  lemma StoredAsRequested(d: Deployment, t: int, es: seq<Event>, n: nat, h: nat, req: SendInviteRequest, uid: string)
    requires SpawnedWith(d, t, es, n, h, req)
    requires uid in Run(d, Init(t), es).shared.minted && Run(d, Init(t), es).shared.minted[uid].handler == h
    requires P(Run(d, Init(t), es).shared, uid) != []
    ensures var s := Run(d, Init(t), es);
            var w := P(s.shared, uid)[0];
            && w.author == h && w.Put? && w.value.Rec?
            && exists email, role, dest ::
                 && Terms(d.cfg, d.parsers, req, email, role, dest)
                 && RecordFor(w.value.record, req, email, role, dest, uid, s.shared.minted[uid].at)
  {
    hide Run, Init, Inv, LocalInv, Carries, UidOf, IssuedOf, IssuedInv, RecordOf, Prepare, Terms, RecordFor,
      SpawnedWith, PrimaryLife, MatchesMint, MarkedBy;
    var s := Run(d, Init(t), es);
    WorksOnRequest(d, t, es, n, h, req);
    PreparedMeans(d.cfg, d.parsers, req);
    ReachableInv(d, t, es);
    InvOwner(d.st, s, uid);
    InvLocal(d.st, s, h);
    WrittenIsIssued(d.st, s.shared, h, s.procs[h], uid);
    CarriesIssued(s.procs[h], Prepare(d.cfg, d.parsers, req));
    var i := IssuedOf(s.procs[h]).value;
    IssuedTimes(d.st, s.shared, h, i);
    RecordAsRequested(i);
    InvKey(d.st, s, uid);
    assert Terms(d.cfg, d.parsers, req, i.p.email, i.p.role, i.p.destURL);
  }

  /** A request that names the recipient's username can be accepted by that user only: whatever events arrive, every
      accepted record of its invite names that user. */
  lemma OnlyTheNamedUserAccepts(d: Deployment, t: int, es: seq<Event>, n: nat, h: nat, req: SendInviteRequest,
                                uid: string)
    requires SpawnedWith(d, t, es, n, h, req) && req.recipient.Some? && req.recipient.value.username != ""
    requires uid in Run(d, Init(t), es).shared.minted && Run(d, Init(t), es).shared.minted[uid].handler == h
    ensures var w := P(Run(d, Init(t), es).shared, uid);
            forall k | 0 <= k < |w| && w[k].Put? && w[k].value.Rec? && w[k].value.record.status == Accepted ::
              w[k].value.record.acceptedBy == req.recipient.value.username
  {
    hide Run, Init, SpawnedWith, BackedBy, Terms;
    var s := Run(d, Init(t), es);
    var w := P(s.shared, uid);
    if w != [] {
      StoredAsRequested(d, t, es, n, h, req, uid);
      EveryAcceptanceWasVerified(d, t, es, uid);
      AtMostThreeWrites(d, t, es, uid);
      if |w| >= 2 && w[1].Put? {
        AcceptedAsRecipient(d.st, s.shared, uid, w[0].value.record, w[1].value.record, s.procs[w[1].author]);
      }
    }
  }

  lemma AcceptedAsRecipient(st: Settings, sh: Shared, uid: string, first: InviteRecord, accepted: InviteRecord,
                            l: Local)
    requires BackedBy(st, sh, uid, first, accepted, l) && first.recipient.username != ""
    ensures accepted.acceptedBy == first.recipient.username
  {
    hide Verify;
  }

  lemma AtMostThreeWrites(d: Deployment, t: int, es: seq<Event>, uid: string)
    requires uid in Run(d, Init(t), es).shared.minted && P(Run(d, Init(t), es).shared, uid) != []
    ensures var w := P(Run(d, Init(t), es).shared, uid);
            && |w| <= 3 && w[0].Put? && w[0].value.Rec? && w[0].value.record.status == Pending
            && (|w| == 3 ==> w[2].Tombstone?)
  {
    hide Run, Init, Inv, MatchesMint, MarkedBy, Accepts;
    ReachableInv(d, t, es);
    InvKey(d.st, Run(d, Init(t), es), uid);
  }

  /** In every run a handler has sent nothing, or one e-mail, and that says what its request said. */
  lemma SentAsRequested(d: Deployment, t: int, es: seq<Event>, n: nat, h: nat, req: SendInviteRequest)
    requires SpawnedWith(d, t, es, n, h, req)
    ensures var s := Run(d, Init(t), es);
            var sent := SendsOf(s.shared.sends, h);
            || sent == []
            || (&& |sent| == 1
                && exists email, role, dest, uid ::
                     && Terms(d.cfg, d.parsers, req, email, role, dest)
                     && uid in s.shared.minted && s.shared.minted[uid].handler == h
                     && EmailFor(d.st, sent[0], req, email, role, dest, uid, s.shared.minted[uid].at))
  {
    hide Run, Init, Inv, LocalInv, Carries, IssuedInv, EmailOf, Prepare, Terms, EmailFor, SpawnedWith, SendsOf,
      ExpectedSends, CreatedInvite, IssuedOf;
    var s := Run(d, Init(t), es);
    WorksOnRequest(d, t, es, n, h, req);
    PreparedMeans(d.cfg, d.parsers, req);
    ReachableInv(d, t, es);
    InvSends(d.st, s, h);
    ExpectedInvite(d.st, s.procs[h]);
    if SendsOf(s.shared.sends, h) != [] {
      var i := CreatedInvite(s.procs[h]).value;
      InvLocal(d.st, s, h);
      CreatedLocal(d.st, s.shared, h, s.procs[h]);
      CreatedIsIssued(s.procs[h]);
      CarriesIssued(s.procs[h], Prepare(d.cfg, d.parsers, req));
      IssuedTimes(d.st, s.shared, h, i);
      EmailAsRequested(d.st, i);
      assert Terms(d.cfg, d.parsers, req, i.p.email, i.p.role, i.p.destURL);
    }
  }

  lemma CreatedIsIssued(l: Local)
    ensures CreatedInvite(l).Some? ==> IssuedOf(l) == CreatedInvite(l)
  {
  }

  // ---------------------------------------------------------------- how the caller is answered

  /** The reply to a request: invalid_request exactly when the request is at fault; internal_error when it is not and
      nothing was sent; otherwise email_dispatch_failed, or success with the parsed address and the expiry that the
      request asked for. */
  ghost predicate AnsweredFor(d: Deployment, s: Sys, h: nat, req: SendInviteRequest, reply: SendReply) {
    && (AtFault(d.cfg, d.parsers, req) <==> reply == ReplyError(InvalidRequest))
    && (!AtFault(d.cfg, d.parsers, req) && SendsOf(s.shared.sends, h) == [] <==> reply == ReplyError(InternalError))
    && (SendsOf(s.shared.sends, h) != [] <==> reply.ReplyOk? || reply == ReplyError(EmailDispatchFailed))
    && (reply.ReplyOk? ==>
          && (exists role, dest :: Terms(d.cfg, d.parsers, req, reply.email, role, dest))
          && reply.uid in s.shared.minted && s.shared.minted[reply.uid].handler == h
          && reply.expiresAt == s.shared.minted[reply.uid].at + Lifetime(req.expirationDays))
  }

  /** Every finished send is answered as its request deserves. */
  lemma AnsweredAsRequested(d: Deployment, t: int, es: seq<Event>, n: nat, h: nat, req: SendInviteRequest)
    requires SpawnedWith(d, t, es, n, h, req)
    requires h in Run(d, Init(t), es).procs && Run(d, Init(t), es).procs[h].SDone?
    ensures AnsweredFor(d, Run(d, Init(t), es), h, req, ReplyFor(Run(d, Init(t), es).procs[h].sendEnd))
  {
    hide Run, Init, Inv, EndInv, Prepare, Terms, AtFault, SpawnedWith, SendsOf, RecordOf, IssuedInv, ClaimsAdmissible,
      Lifetime, EmailOf;
    var s := Run(d, Init(t), es);
    WorksOnRequest(d, t, es, n, h, req);
    PreparedMeans(d.cfg, d.parsers, req);
    ReachableInv(d, t, es);
    InvSends(d.st, s, h);
    if s.procs[h].sendEnd.Sent? {
      var i := s.procs[h].sendEnd.i;
      DoneLocal(d.st, s, h);
      SentIssued(d.st, s.shared, h, i);
      IssuedTimes(d.st, s.shared, h, i);
      ExpiryAsRequested(i);
      assert Terms(d.cfg, d.parsers, req, i.p.email, i.p.role, i.p.destURL);
    }
  }

  lemma SentIssued(st: Settings, sh: Shared, h: nat, i: Issued)
    requires EndInv(st, sh, h, Sent(i))
    ensures IssuedInv(st, sh, h, i)
  {
    hide IssuedInv, Alive, Indexed;
  }

  lemma ExpiryAsRequested(i: Issued)
    ensures RecordOf(i).expiresAt == i.mintedAt + Lifetime(i.p.req.expirationDays)
  {
    LifetimeIs(LinkPayloadOf(i.p), i.mintedAt);
    hide ExpiresAt, AcceptedClaims, Lifetime;
  }
}
