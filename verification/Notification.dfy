/** NotificationService: the send saga. It validates, mints a link, persists the invite, sends the e-mail,
    and rolls the persisted invite back when the send fails. */
module Notification {
  import opened Base
  import opened Model
  import opened Auth
  import opened KeyValue
  import opened Protocol
  import opened World
  import opened InviteStore
  import opened Repository
  import opened Links
  import Stability
  import KeySpace

  datatype SendInviteResult = SendInviteResult(inviteUID: string, recipientEmail: Bytes, expiresAt: int)

  datatype HandlerError = ErrInvalidRequest | ErrEmailDispatchFailed | ErrOther

  type SendOutcome = Result<SendInviteResult, HandlerError>

  /** sendInviteErrorCode: the stable code a handler error is reported as. */
  function SendInviteErrorCode(e: HandlerError): ErrorCode {
    match e
    case ErrInvalidRequest => InvalidRequest
    case ErrEmailDispatchFailed => EmailDispatchFailed
    case ErrOther => InternalError
  }

  function ReplyOf(r: SendOutcome): SendReply {
    match r
    case Ok(v) => ReplyOk(v.inviteUID, v.recipientEmail, v.expiresAt)
    case Err(e) => ReplyError(SendInviteErrorCode(e))
  }

  // ---------------------------------------------------------------- validation

  /** The allow-list check: an empty list disables it, otherwise an https URL whose host matches a pattern. */
  method ValidateReturnURL(rawURL: string, allowedHosts: seq<string>, parseURL: string -> Option<URL>)
    returns (ok: bool)
    ensures ok <==> ValidReturnURL(rawURL, allowedHosts, parseURL)
  {
    if |allowedHosts| == 0 {
      return true;
    }
    var u := parseURL(rawURL);
    if u.None? {
      return false;
    }
    if u.value.scheme != "https" {
      return false;
    }
    var host := u.value.host;
    for i := 0 to |allowedHosts|
      invariant forall j | 0 <= j < i :: !MatchHost(host, allowedHosts[j])
    {
      if MatchHost(host, allowedHosts[i]) {
        return true;
      }
    }
    return false;
  }

  /** The checks HandleSendInvite makes before it asks for a link. */
  method Validate(cfg: NotificationConfig, parsers: Parsers, req: SendInviteRequest) returns (p: Option<Prepared>)
    ensures p == Prepare(cfg, parsers, req)
  {
    hide KeySpace.TrimSpace, ValidReturnURL;
    var rawEmail := req.ResolvedRecipientEmail();
    if rawEmail == "" {
      return None;
    }
    var addr := parsers.parseAddress(rawEmail);
    if addr.None? {
      return None;
    }
    var role := KeySpace.TrimSpace(req.role);
    if role == "" {
      return None;
    }
    if req.returnURL != "" {
      var valid := ValidateReturnURL(req.returnURL, cfg.allowedReturnURLHosts, parsers.parseURL);
      if !valid {
        return None;
      }
    }
    var destURL := req.returnURL;
    if destURL == "" && cfg.defaultReturnURL != "" {
      destURL := cfg.defaultReturnURL;
    }
    p := Some(Prepared(req, addr.value, destURL, role));
  }

  // ---------------------------------------------------------------- what the saga promises

  /** Between n1 and n2 Create persisted the record, action n2 sent the e-mail, and nothing else was sent. */
  ghost predicate SentOnceAfterCreate(st: Settings, me: nat, log0: seq<Obs>, log: seq<Obs>, i: Issued, n1: nat, n2: nat)
  {
    && |log0| <= n1 <= n2 < |log| && log0 <= log
    && Quiet(log0, log[..n1]) && NoDispatch(log0, log[..n2])
    && CreateContract(log[..n1], log[..n2], me, RecordOf(i), Ok(()))
    && log[n2].op == Op.Send(EmailOf(st, i)) && log[n2].res.SendDone?
    && NoDispatch(log[..n2 + 1], log)
  }

  /** Everything after log1 is one Delete of uid, and it got as far as rollback says. */
  ghost predicate RolledBackAfter(log1: seq<Obs>, log: seq<Obs>, me: nat, uid: string, rollback: RollbackEnd) {
    exists r: Outcome :: DeleteContract(log1, log, me, uid, r) && rollback == RollbackEndOf(r, LastDelete(log))
  }

  ghost predicate SentAsLast(st: Settings, me: nat, log0: seq<Obs>, log: seq<Obs>, i: Issued, n1: nat, sent: bool) {
    |log| > 0 && SentOnceAfterCreate(st, me, log0, log, i, n1, |log| - 1) && log[|log| - 1].res == SendDone(sent)
  }

  /** The e-mail was handed over, as the handler's last action. */
  ghost predicate SentLast(st: Settings, me: nat, log0: seq<Obs>, log: seq<Obs>, i: Issued, sent: bool) {
    exists n1: nat :: SentAsLast(st, me, log0, log, i, n1, sent)
  }

  /** The e-mail was refused, and the invite was then rolled back. */
  ghost predicate SentThenRolledBack(st: Settings, me: nat, log0: seq<Obs>, log: seq<Obs>, i: Issued,
                                     rollback: RollbackEnd)
  {
    exists n1: nat, n2: nat ::
      && SentOnceAfterCreate(st, me, log0, log, i, n1, n2) && log[n2].res == SendDone(false)
      && RolledBackAfter(log[..n2 + 1], log, me, i.uid, rollback)
  }

  /** What each way a send ends says about the handler's own actions since log0. */
  ghost predicate SendEffects(st: Settings, me: nat, log0: seq<Obs>, log: seq<Obs>, e: SendEnd) {
    match e
    case Invalid(_) => Quiet(log0, log)
    case NotSigned(_) => Quiet(log0, log)
    case RecordNotPut(_) => NoDispatch(log0, log)
    case IndexNotPut(_, _) => NoDispatch(log0, log)
    case NotSent(i, rollback) => SentThenRolledBack(st, me, log0, log, i, rollback)
    case Sent(i) => SentLast(st, me, log0, log, i, true)
  }

  /** A finished send: the program being followed is at an end, and the reply and the actions since log0 are
      those of that end. */
  ghost predicate SendHandled(st: Settings, me: nat, log0: seq<Obs>, log: seq<Obs>, pc: Tracker, r: SendOutcome) {
    && pc.At? && pc.l.SDone?
    && ReplyOf(r) == ReplyFor(pc.l.sendEnd)
    && SendEffects(st, me, log0, log, pc.l.sendEnd)
  }

  lemma CreateSendsNothing(log0: seq<Obs>, log: seq<Obs>, me: nat, record: InviteRecord, r: Outcome)
    requires CreateContract(log0, log, me, record, r)
    ensures NoDispatch(log0, log) && log0 <= log && (r.Ok? ==> r == Ok(()))
  {
    hide Wrote, Removed, LiveKey, RecordIndexKey;
  }

  lemma DeleteSendsNothing(log0: seq<Obs>, log: seq<Obs>, me: nat, uid: string, r: Outcome)
    requires DeleteContract(log0, log, me, uid, r)
    ensures NoDispatch(log0, log) && log0 <= log
  {
    hide Removed, LiveKey, KeySpace.EmailIndexKey, Current;
  }

  lemma NoDispatchTransitive(a: seq<Obs>, b: seq<Obs>, c: seq<Obs>)
    requires NoDispatch(a, b) && NoDispatch(b, c)
    ensures NoDispatch(a, c)
  {
  }

  // ---------------------------------------------------------------- the service

  class NotificationService {
    const world: Client
    const inviteStore: NATSInviteRepository
    const linkGenerator: LinkGenerator
    const config: NotificationConfig
    const parsers: Parsers

    constructor (world: Client, store: NATSInviteRepository, generator: LinkGenerator, config: NotificationConfig,
                 parsers: Parsers)
      requires store.kv == world && generator.world == world
      ensures this.world == world && inviteStore == store && linkGenerator == generator
      ensures this.config == config && this.parsers == parsers
    {
      this.world, inviteStore, linkGenerator, this.config, this.parsers := world, store, generator, config, parsers;
    }

    predicate Wired() {
      inviteStore.kv == world && linkGenerator.world == world
    }

    /** The handler is the protocol's send automaton, action by action: started at its start state it ends
        in a final one, and its reply and its actions are those of that end. */
    method HandleSendInvite(req: SendInviteRequest) returns (r: SendOutcome)
      requires world.Valid() && Wired() && world.pc == At(StartSend(config, parsers, req))
      modifies world
      ensures world.Valid() && Env(old(world.shared), world.shared)
      ensures SendHandled(world.st, world.me, old(world.log), world.log, world.pc, r)
    {
      hide BucketOk, Stability.Grows, Env, ObsOk, Advance, Perform, Allowed, Call, Resume, Running, Follows,
        Client.Valid, Prepare, StartSend, LinkPayloadOf, BuildInviteRecord, RecordOf, EmailPayload, EmailOf,
        GenerateEnd, CreateEnd, DeleteEnd, AtGenerate, AtCreate, AtDelete, GenerateOk, CreateContract, DeleteContract,
        SentLast, SentThenRolledBack, Quiet, NoDispatch, Harmless, SendHandled, ReplyOf;
      ghost var sh0, log0, st, me := world.shared, world.log, world.st, world.me;
      NothingYet(world);
      var prepared := Validate(config, parsers, req);
      Starts(st, me, log0, config, parsers, req);
      if prepared.None? {
        return Err(ErrInvalidRequest);
      }
      var p := prepared.value;
      var generated, uid, at := linkGenerator.Generate(LinkPayloadOf(p));
      ghost var log1, sh1 := world.log, world.shared;
      GeneratedFor(st, me, log0, log1, p, uid, at, generated);
      if generated.Err? {
        return Err(if generated.error.ErrInvalidCustomClaims? then ErrInvalidRequest else ErrOther);
      }
      var link := generated.value;
      var emailPayload := EmailPayload(p, link.link);
      BuildStarts(st, p, uid, at);
      var createdAt := world.Now();
      ghost var i, log2, sh2 := Issued(p, uid, at, createdAt), world.log, world.shared;
      EnvSteps(sh0, sh1, sh2);
      var record := BuildInviteRecord(link.inviteUID, p, link.expiresAt, link.acceptedClaims, createdAt);
      RecordBuilt(st, i, record, link, emailPayload);
      ClockQuiet(log0, log1, log2);
      var storeErr := inviteStore.Create(record);
      ghost var log3, sh3 := world.log, world.shared;
      EnvSteps(sh0, sh2, sh3);
      CreatedFor(st, me, i, record, storeErr, LastDelete(log3), log0, log2, log3);
      if storeErr.Err? {
        return Err(ErrOther);
      }
      var sent := world.Send(emailPayload);
      ghost var log4, sh4 := world.log, world.shared;
      EnvSteps(sh0, sh3, sh4);
      SentAt(st, me, log0, log2, log3, log4, i, sent);
      if !sent {
        var deleteErr := inviteStore.Delete(link.inviteUID);
        EnvSteps(sh0, sh4, world.shared);
        SentThenDeleted(st, me, log0, log4, world.log, i, deleteErr);
        return Err(ErrEmailDispatchFailed);
      }
      r := Ok(SendInviteResult(link.inviteUID, p.email, link.expiresAt));
    }
  }

  lemma NothingYet(world: Client)
    requires world.Valid()
    ensures Env(world.shared, world.shared) && Quiet(world.log, world.log)
  {
    EnvReflexiveAt(world);
    hide Env;
  }

  lemma Starts(st: Settings, me: nat, log0: seq<Obs>, cfg: NotificationConfig, parsers: Parsers, req: SendInviteRequest)
    ensures Prepare(cfg, parsers, req).None? ==>
              SendHandled(st, me, log0, log0, At(StartSend(cfg, parsers, req)), Err(ErrInvalidRequest))
    ensures Prepare(cfg, parsers, req).Some? ==>
              var p := Prepare(cfg, parsers, req).value;
              StartSend(cfg, parsers, req) == SClock(p) && AtGenerate(At(SClock(p)), LinkPayloadOf(p))
  {
    hide LinkPayloadOf, Prepare;
  }

  lemma GeneratedFor(st: Settings, me: nat, log0: seq<Obs>, log1: seq<Obs>, p: Prepared, uid: string, at: int,
                     r: Result<GeneratedLink, LinkError>)
    requires GenerateOk(st, LinkPayloadOf(p), uid, at, r) && Quiet(log0, log1)
    ensures r.Err? ==> SendHandled(st, me, log0, log1, GenerateEnd(At(SClock(p)), uid, at, r),
                                   Err(if r.error.ErrInvalidCustomClaims? then ErrInvalidRequest else ErrOther))
    ensures r.Ok? ==> GenerateEnd(At(SClock(p)), uid, at, r) == At(SBuild(p, uid, at))
    ensures r.Ok? ==>
              var payload := LinkPayloadOf(p);
              r.value == GeneratedLink(InviteLink(st.inviteLinkBaseURL, Mint(st.secret, payload, uid, at)), uid,
                                       ExpiresAt(payload, at), AcceptedClaims(payload.customClaims))
  {
    hide LinkPayloadOf, ClaimsAdmissible, Mint, ExpiresAt, AcceptedClaims, Quiet, NoDispatch;
  }

  lemma BuildStarts(st: Settings, p: Prepared, uid: string, at: int)
    ensures Follows(st, At(SBuild(p, uid, at)), Op.Now)
    ensures forall t: int :: Advance(st, At(SBuild(p, uid, at)), Time(t)) == At(SPutRecord(Issued(p, uid, at, t)))
  {
  }

  lemma RecordBuilt(st: Settings, i: Issued, record: InviteRecord, link: GeneratedLink, email: InviteEmailPayload)
    requires var payload := LinkPayloadOf(i.p);
             link == GeneratedLink(InviteLink(st.inviteLinkBaseURL, Mint(st.secret, payload, i.uid, i.mintedAt)), i.uid,
                                   ExpiresAt(payload, i.mintedAt), AcceptedClaims(payload.customClaims))
    requires record == BuildInviteRecord(link.inviteUID, i.p, link.expiresAt, link.acceptedClaims, i.createdAt)
    requires email == EmailPayload(i.p, link.link)
    ensures record == RecordOf(i) && AtCreate(At(SPutRecord(i)), record) && email == EmailOf(st, i)
    ensures RecordOf(i).uid == i.uid && RecordOf(i).expiresAt == link.expiresAt
    ensures RecordOf(i).recipient.email == i.p.email
  {
    PayloadClaims(i.p);
    hide LinkPayloadOf, Mint, ExpiresAt, AcceptedClaims, EmailPayload;
  }

  lemma ClockQuiet(log0: seq<Obs>, log1: seq<Obs>, log2: seq<Obs>)
    requires Quiet(log0, log1) && log1 <= log2 && |log2| == |log1| + 1
    requires log2[|log1|].op.Now? && log2[|log1|].before == log2[|log1|].after
    ensures Quiet(log0, log2) && NoDispatch(log0, log2)
  {
  }

  lemma CreatedFor(st: Settings, me: nat, i: Issued, record: InviteRecord, r: Outcome, undo: DeleteResult,
                   log0: seq<Obs>, log2: seq<Obs>, log3: seq<Obs>)
    requires record == RecordOf(i) && CreateContract(log2, log3, me, record, r) && NoDispatch(log0, log2)
    ensures log2 <= log3 && NoDispatch(log0, log3)
    ensures r.Err? ==> SendHandled(st, me, log0, log3, CreateEnd(At(SPutRecord(i)), r, undo), Err(ErrOther))
    ensures r.Ok? ==>
              && r == Ok(()) && CreateEnd(At(SPutRecord(i)), r, undo) == At(SSend(i))
              && Follows(st, At(SSend(i)), Op.Send(EmailOf(st, i)))
  {
    hide RecordOf, EmailOf, CreateContract, NoDispatch, SendHandled, Follows;
    CreateSendsNothing(log2, log3, me, record, r);
    NoDispatchTransitive(log0, log2, log3);
    if r.Err? {
      NotCreated(st, me, i, r, undo, log0, log3);
    } else {
      SendStarts(st, i);
    }
  }

  lemma NotCreated(st: Settings, me: nat, i: Issued, r: Outcome, undo: DeleteResult, log0: seq<Obs>, log3: seq<Obs>)
    requires r.Err? && NoDispatch(log0, log3)
    ensures SendHandled(st, me, log0, log3, CreateEnd(At(SPutRecord(i)), r, undo), Err(ErrOther))
  {
    hide NoDispatch, Quiet, RecordOf, SentLast, SentThenRolledBack;
  }

  lemma SendStarts(st: Settings, i: Issued)
    ensures Follows(st, At(SSend(i)), Op.Send(EmailOf(st, i)))
  {
    hide EmailOf;
  }

  lemma SentAt(st: Settings, me: nat, log0: seq<Obs>, log2: seq<Obs>, log3: seq<Obs>, log4: seq<Obs>, i: Issued,
               sent: bool)
    requires Quiet(log0, log2) && NoDispatch(log0, log3) && log2 <= log3 <= log4 && |log4| == |log3| + 1
    requires CreateContract(log2, log3, me, RecordOf(i), Ok(()))
    requires log4[|log3|].op == Op.Send(EmailOf(st, i)) && log4[|log3|].res == SendDone(sent)
    ensures SentLast(st, me, log0, log4, i, sent)
    ensures var pc := Advance(st, At(SSend(i)), SendDone(sent));
            if sent
            then SendHandled(st, me, log0, log4, pc, Ok(SendInviteResult(i.uid, i.p.email, RecordOf(i).expiresAt)))
            else pc == At(SDelGet(i)) && AtDelete(pc, i.uid)
  {
    hide RecordOf, EmailOf, CreateContract;
    assert log4[..|log2|] == log2 && log4[..|log3|] == log3;
    assert SentAsLast(st, me, log0, log4, i, |log2|, sent);
  }

  lemma SentThenDeleted(st: Settings, me: nat, log0: seq<Obs>, log4: seq<Obs>, log5: seq<Obs>, i: Issued, r: Outcome)
    requires SentLast(st, me, log0, log4, i, false) && DeleteContract(log4, log5, me, i.uid, r)
    ensures SendHandled(st, me, log0, log5, DeleteEnd(At(SDelGet(i)), r, LastDelete(log5)), Err(ErrEmailDispatchFailed))
  {
    hide RecordOf, EmailOf, CreateContract, DeleteContract;
    DeleteSendsNothing(log4, log5, me, i.uid, r);
    var n1: nat :| SentAsLast(st, me, log0, log4, i, n1, false);
    var n2 := |log4| - 1;
    assert log5[..n1] == log4[..n1] && log5[..n2] == log4[..n2] && log5[..n2 + 1] == log4;
    assert SentOnceAfterCreate(st, me, log0, log5, i, n1, n2);
    assert RolledBackAfter(log4, log5, me, i.uid, RollbackEndOf(r, LastDelete(log5)));
  }
}
