/** The two handlers as resumable programs. A handler's local state names the one atomic action it
    performs next (Call) and how it continues with the answer (Resume); Perform is the effect of an
    action on the state all handlers share. */
module Protocol {
  import opened Base
  import opened Model
  import opened Auth
  import opened KeyValue
  import KeySpace

  datatype Settings = Settings(secret: Secret, inviteLinkBaseURL: string)

  // ---------------------------------------------------------------- values the send handler derives

  datatype InviteLink = InviteLink(baseURL: string, token: Token)

  datatype InviteEmailPayload = InviteEmailPayload(
    recipientEmail: Bytes,
    recipientName: string,
    inviterName: string,
    resourceName: string,
    resourceType: string,
    parentResourceName: string,
    resourceUID: string,
    role: string,
    orgName: string,
    inviteLink: InviteLink,
    recipientHasAccount: bool)

  /** One issued invite: the request, the minted UID and the two clock readings that went into it. */
  datatype Issued = Issued(p: Prepared, uid: string, mintedAt: int, createdAt: int)

  function RecordOf(i: Issued): InviteRecord {
    BuildInviteRecord(i.uid, i.p, ExpiresAt(LinkPayloadOf(i.p), i.mintedAt),
                      AcceptedClaims(i.p.req.customClaims), i.createdAt)
  }

  function TokenOf(st: Settings, i: Issued): Token {
    Mint(st.secret, LinkPayloadOf(i.p), i.uid, i.mintedAt)
  }

  function EmailPayload(p: Prepared, link: InviteLink): InviteEmailPayload {
    InviteEmailPayload(p.email, p.req.ResolvedRecipientName(), p.req.ResolvedInviterName(),
                       p.req.ResolvedResourceName(),
                       p.req.ResolvedResourceType(), p.req.ResolvedParentResourceName(), p.req.ResolvedResourceUID(),
                       p.role, p.req.orgName, link, p.req.recipientHasAccount)
  }

  function EmailOf(st: Settings, i: Issued): InviteEmailPayload {
    EmailPayload(i.p, InviteLink(st.inviteLinkBaseURL, TokenOf(st, i)))
  }

  function IndexKeyOf(i: Issued): string {
    KeySpace.EmailIndexKey(i.p.email, i.uid)
  }

  // ---------------------------------------------------------------- shared state and actions

  /** What was minted for a UID, and by which handler. */
  datatype MintInfo = MintInfo(payload: LinkPayload, at: int, handler: nat)

  datatype Dispatch = Dispatch(handler: nat, payload: InviteEmailPayload, delivered: bool)

  datatype Publication = Publication(handler: nat, invite: Invite)

  /** faulty and ambiguous collect the handlers that saw a failed KV call, and those for which such a
      call was applied although it reported an error. */
  datatype Shared = Shared(
    kv: Bucket,
    clock: int,
    minted: map<string, MintInfo>,
    tokens: set<Token>,
    sends: seq<Dispatch>,
    published: seq<Publication>,
    faulty: set<nat>,
    ambiguous: set<nat>)

  datatype Op =
    | Now
    | NewUid(link: LinkPayload, at: int)
    | Sign(claims: Claims)
    | Get(key: string)
    | PutOp(key: string, value: Value)
    | Update(key: string, value: Value, rev: nat)
    | Delete(key: string)
    | Send(payload: InviteEmailPayload)
    | Publish(invite: Invite)

  datatype GetResult = Found(entry: Entry) | KeyNotFound | GetFault
  datatype UpdateResult = Updated | Mismatch | UpdateFault
  datatype DeleteResult = Deleted | NothingToDelete | DeleteFault

  datatype Res =
    | Time(t: int)
    | Uid(uid: string)
    | Signed(token: Option<Token>)
    | Got(get: GetResult)
    | PutDone(ok: bool)
    | UpdateDone(update: UpdateResult)
    | DeleteDone(delete: DeleteResult)
    | SendDone(sent: bool)
    | PublishDone(publishOk: bool)

  /** A call succeeds, fails without effect, or takes effect and still reports an error. */
  datatype Fault = NoFault | NotApplied | AppliedButFailed

  /** Everything the environment decides about one action. */
  datatype Choice = Choice(fault: Fault, uid: string, delivered: bool, absent: bool)

  /** Minted UIDs are fresh, non-empty and free of key separators. */
  predicate FreshUid(sh: Shared, uid: string) {
    uid !in sh.minted && uid != "" && SlashFree(uid)
  }

  predicate Allowed(sh: Shared, op: Op, ch: Choice) {
    op.NewUid? ==> FreshUid(sh, ch.uid)
  }

  function MarkFault(sh: Shared, h: nat, f: Fault): Shared {
    match f
    case NoFault => sh
    case NotApplied => sh.(faulty := sh.faulty + {h})
    case AppliedButFailed => sh.(faulty := sh.faulty + {h}, ambiguous := sh.ambiguous + {h})
  }

  /** A write that succeeds, fails without effect, or is applied and reports an error. */
  function WriteEffect(sh: Shared, h: nat, f: Fault, kv: Bucket): Shared {
    MarkFault(if f.NotApplied? then sh else sh.(kv := kv), h, f)
  }

  function Perform(st: Settings, sh: Shared, h: nat, op: Op, ch: Choice): (Shared, Res) {
    match op
    case Now => (sh, Time(sh.clock))
    case NewUid(payload, at) => (sh.(minted := sh.minted[ch.uid := MintInfo(payload, at, h)]), Uid(ch.uid))
    case Sign(claims) =>
      var token := Token(st.secret, claims);
      if ch.fault.NoFault? then (sh.(tokens := sh.tokens + {token}), Signed(Some(token))) else (sh, Signed(None))
    case Get(k) =>
      if ch.fault.NoFault? then (sh, Got(if LiveKey(sh.kv, k) then Found(Current(sh.kv, k).value) else KeyNotFound))
      else (MarkFault(sh, h, NotApplied), Got(GetFault))
    case PutOp(k, v) => (WriteEffect(sh, h, ch.fault, KvPut(sh.kv, k, v, h)), PutDone(ch.fault.NoFault?))
    case Update(k, v, rev) =>
      if ch.fault.NotApplied? then (MarkFault(sh, h, NotApplied), UpdateDone(UpdateFault))
      else if LastRev(sh.kv, k) != rev then (sh, UpdateDone(Mismatch))
      else (WriteEffect(sh, h, ch.fault, KvPut(sh.kv, k, v, h)),
            UpdateDone(if ch.fault.NoFault? then Updated else UpdateFault))
    case Delete(k) =>
      if ch.absent && !LiveKey(sh.kv, k) then (sh, DeleteDone(NothingToDelete))
      else (WriteEffect(sh, h, ch.fault, KvDelete(sh.kv, k, h)),
            DeleteDone(if ch.fault.NoFault? then Deleted else DeleteFault))
    case Send(payload) => (sh.(sends := sh.sends + [Dispatch(h, payload, ch.delivered)]), SendDone(ch.fault.NoFault?))
    case Publish(invite) => (sh.(published := sh.published + [Publication(h, invite)]), PublishDone(ch.fault.NoFault?))
  }

  // ---------------------------------------------------------------- the handlers

  type AcceptedEvent = InviteAcceptedEvent<PresentedToken>

  /** What MarkAccepted is called on the strength of: the event, the record it was checked against, the
      handler's clock reading and the one the token was verified at. */
  datatype Evidence = Evidence(evt: AcceptedEvent, rec: InviteRecord, at: int, verifiedAt: int)

  /** How far the rollback of a send got: to the read, to the delete of the record, or to the index entry. */
  datatype RollbackEnd = RecordNotRead | RecordNotDeleted | RecordDeleted(index: DeleteResult)

  /** How a send ends, and what it leaves behind to account for. */
  datatype SendEnd =
    | Invalid(mintedUid: Option<string>)
    | NotSigned(uid: string)
    | RecordNotPut(i: Issued)
    | IndexNotPut(i: Issued, undo: DeleteResult)
    | NotSent(i: Issued, rollback: RollbackEnd)
    | Sent(i: Issued)

  datatype Reason = Malformed | NotTracked | Unavailable | AlreadyAccepted | NotVerified | Expired | Contended

  datatype AcceptEnd =
    | Discarded(reason: Reason)
    | UpdateLost(ev: Evidence, wrote: InviteRecord)
    | Unpublished(ev: Evidence, wrote: InviteRecord)
    | Published(ev: Evidence, wrote: InviteRecord, invite: Invite)

  datatype Local =
    // HandleSendInvite
    | SClock(p: Prepared)
    | SUid(p: Prepared, at: int)
    | SSign(p: Prepared, uid: string, at: int)
    | SBuild(p: Prepared, uid: string, at: int)
    | SPutRecord(i: Issued)
    | SPutIndex(i: Issued)
    | SUndo(i: Issued)
    | SSend(i: Issued)
    | SDelGet(i: Issued)
    | SDelRecord(i: Issued, got: InviteRecord)
    | SDelIndex(i: Issued, got: InviteRecord)
    | SDone(sendEnd: SendEnd)
    // HandleInviteAccepted
    | ARead(evt: AcceptedEvent)
    | AClock(evt: AcceptedEvent, rec: InviteRecord)
    | AVerify(evt: AcceptedEvent, rec: InviteRecord, now: int)
    | AMarkGet(ev: Evidence, attempt: nat)
    | AMarkClock(ev: Evidence, attempt: nat, got: InviteRecord, rev: nat)
    | AMarkUpdate(ev: Evidence, attempt: nat, got: InviteRecord, rev: nat)
    | AReread(ev: Evidence, wrote: InviteRecord)
    | APublish(ev: Evidence, wrote: InviteRecord, invite: Invite)
    | ADone(acceptEnd: AcceptEnd)

  const MAX_MARK_ACCEPTED_RETRIES := 3

  predicate Running(l: Local) {
    !l.SDone? && !l.ADone?
  }

  function StartSend(cfg: NotificationConfig, parsers: Parsers, req: SendInviteRequest): Local {
    match Prepare(cfg, parsers, req)
    case None => SDone(Invalid(None))
    case Some(p) => SClock(p)
  }

  function StartAccept(evt: AcceptedEvent): Local {
    if evt.inviteUID == "" || evt.username == "" then ADone(Discarded(Malformed)) else ARead(evt)
  }

  /** verifyAcceptance after its token-present and expiry checks. */
  predicate Admits(st: Settings, evt: AcceptedEvent, rec: InviteRecord, verifiedAt: int) {
    && Verify(st.secret, evt.token, verifiedAt) == Some(TokenClaims(rec.uid, rec.recipient.email))
    && (rec.recipient.username != "" ==> evt.username == rec.recipient.username)
  }

  function Written(ev: Evidence, got: InviteRecord): InviteRecord {
    AcceptRecord(got, ev.evt.username, ev.at)
  }

  /** The action a running handler performs next. */
  function Call(st: Settings, l: Local): Op
    requires Running(l)
  {
    match l
    case SClock(_) => Now
    case SUid(p, at) => NewUid(LinkPayloadOf(p), at)
    case SSign(p, uid, at) => Sign(MintedClaims(LinkPayloadOf(p), uid, at))
    case SBuild(_, _, _) => Now
    case SPutRecord(i) => PutOp(i.uid, Rec(RecordOf(i)))
    case SPutIndex(i) => PutOp(IndexKeyOf(i), Idx(i.uid))
    case SUndo(i) => Delete(i.uid)
    case SSend(i) => Send(EmailOf(st, i))
    case SDelGet(i) => Get(i.uid)
    case SDelRecord(i, _) => Delete(i.uid)
    case SDelIndex(i, got) => Delete(KeySpace.EmailIndexKey(got.recipient.email, i.uid))
    case ARead(evt) => Get(evt.inviteUID)
    case AClock(_, _) => Now
    case AVerify(_, _, _) => Now
    case AMarkGet(ev, _) => Get(ev.evt.inviteUID)
    case AMarkClock(_, _, _, _) => Now
    case AMarkUpdate(ev, _, got, rev) => Update(ev.evt.inviteUID, Rec(Written(ev, got)), rev)
    case AReread(ev, _) => Get(ev.evt.inviteUID)
    case APublish(_, _, inv) => Publish(inv)
  }

  function ResumeDelGet(i: Issued, r: GetResult): Local {
    if r.Found? && r.entry.value.Rec? then SDelRecord(i, r.entry.value.record) else SDone(NotSent(i, RecordNotRead))
  }

  function ResumeRead(evt: AcceptedEvent, r: GetResult): Local {
    match r
    case KeyNotFound => ADone(Discarded(NotTracked))
    case GetFault => ADone(Discarded(Unavailable))
    case Found(e) =>
      if e.value.Idx? then ADone(Discarded(Unavailable))
      else if e.value.record.status == Accepted then ADone(Discarded(AlreadyAccepted))
      else AClock(evt, e.value.record)
  }

  function ResumeMarkGet(ev: Evidence, attempt: nat, r: GetResult): Local {
    match r
    case KeyNotFound => ADone(Discarded(NotTracked))
    case GetFault => ADone(Discarded(Unavailable))
    case Found(e) =>
      if e.value.Idx? then ADone(Discarded(Unavailable))
      else if e.value.record.status == Accepted then ADone(Discarded(AlreadyAccepted))
      else if ev.at >= e.value.record.expiresAt then ADone(Discarded(Expired))
      else AMarkClock(ev, attempt, e.value.record, e.rev)
  }

  function ResumeUpdate(ev: Evidence, attempt: nat, got: InviteRecord, r: UpdateResult): Local {
    match r
    case Updated => AReread(ev, Written(ev, got))
    case Mismatch =>
      if attempt < MAX_MARK_ACCEPTED_RETRIES - 1 then AMarkGet(ev, attempt + 1) else ADone(Discarded(Contended))
    case UpdateFault => ADone(UpdateLost(ev, Written(ev, got)))
  }

  function ResumeReread(ev: Evidence, wrote: InviteRecord, r: GetResult): Local {
    if r.Found? && r.entry.value.Rec? then
      APublish(ev, wrote, DomainToAPIInvite(r.entry.value.record).(status := ApiAccepted))
    else ADone(Unpublished(ev, wrote))
  }

  /** How a handler continues once its action has answered. */
  function Resume(st: Settings, l: Local, r: Res): Local {
    match (l, r)
    case (SClock(p), Time(t)) => SUid(p, t)
    case (SUid(p, at), Uid(uid)) =>
      if ClaimsAdmissible(p.req.customClaims) then SSign(p, uid, at) else SDone(Invalid(Some(uid)))
    case (SSign(p, uid, at), Signed(t)) => if t.Some? then SBuild(p, uid, at) else SDone(NotSigned(uid))
    case (SBuild(p, uid, at), Time(t)) => SPutRecord(Issued(p, uid, at, t))
    case (SPutRecord(i), PutDone(ok)) => if ok then SPutIndex(i) else SDone(RecordNotPut(i))
    case (SPutIndex(i), PutDone(ok)) => if ok then SSend(i) else SUndo(i)
    case (SUndo(i), DeleteDone(d)) => SDone(IndexNotPut(i, d))
    case (SSend(i), SendDone(ok)) => if ok then SDone(Sent(i)) else SDelGet(i)
    case (SDelGet(i), Got(g)) => ResumeDelGet(i, g)
    case (SDelRecord(i, got), DeleteDone(d)) =>
      if d.DeleteFault? then SDone(NotSent(i, RecordNotDeleted)) else SDelIndex(i, got)
    case (SDelIndex(i, _), DeleteDone(d)) => SDone(NotSent(i, RecordDeleted(d)))
    case (ARead(evt), Got(g)) => ResumeRead(evt, g)
    case (AClock(evt, rec), Time(t)) =>
      if evt.token.NoToken? then ADone(Discarded(NotVerified))
      else if t >= rec.expiresAt then ADone(Discarded(Expired))
      else AVerify(evt, rec, t)
    case (AVerify(evt, rec, now), Time(vt)) =>
      if Admits(st, evt, rec, vt) then AMarkGet(Evidence(evt, rec, now, vt), 0) else ADone(Discarded(NotVerified))
    case (AMarkGet(ev, n), Got(g)) => ResumeMarkGet(ev, n, g)
    case (AMarkClock(ev, n, got, rev), Time(t)) =>
      if t >= got.expiresAt then ADone(Discarded(Expired)) else AMarkUpdate(ev, n, got, rev)
    case (AMarkUpdate(ev, n, got, _), UpdateDone(u)) => ResumeUpdate(ev, n, got, u)
    case (AReread(ev, wrote), Got(g)) => ResumeReread(ev, wrote, g)
    case (APublish(ev, wrote, inv), PublishDone(_)) => ADone(Published(ev, wrote, inv))
    case _ => l
  }

  // ---------------------------------------------------------------- replies

  datatype SendReply = ReplyOk(uid: string, email: Bytes, expiresAt: int) | ReplyError(code: ErrorCode)
  datatype ErrorCode = InvalidRequest | InternalError | EmailDispatchFailed

  function ReplyFor(e: SendEnd): SendReply {
    match e
    case Invalid(_) => ReplyError(InvalidRequest)
    case NotSigned(_) => ReplyError(InternalError)
    case RecordNotPut(_) => ReplyError(InternalError)
    case IndexNotPut(_, _) => ReplyError(InternalError)
    case NotSent(_, _) => ReplyError(EmailDispatchFailed)
    case Sent(i) => ReplyOk(i.uid, i.p.email, RecordOf(i).expiresAt)
  }

  /** The token, the e-mail and the record of one issued invite agree on every field they share, with
      the structured request fields taking precedence over the scalars. */
  lemma IssuedFieldsAgree(st: Settings, i: Issued)
    ensures var c, m, r := TokenOf(st, i).claims, EmailOf(st, i), RecordOf(i);
            && m.inviteLink.token == TokenOf(st, i)
            && "email" in c && c["email"] == Str(m.recipientEmail) && m.recipientEmail == r.recipient.email
            && "jti" in c && c["jti"] == Str(r.uid)
            && "resource_uid" in c && c["resource_uid"] == Str(m.resourceUID) && m.resourceUID == r.resource.uid
            && "role" in c && c["role"] == Str(m.role) && m.role == r.role
            && "return_url" in c && c["return_url"] == Str(r.returnURL)
            && ("resource_type" in c <==> m.resourceType != "")
            && ("resource_type" in c ==> c["resource_type"] == Str(m.resourceType))
            && m.resourceType == r.resource.kind
            && m.resourceName == r.resource.name && m.parentResourceName == r.resource.parentName
            && m.recipientName == r.recipient.name && m.inviterName == r.inviter.name && m.orgName == r.orgName
            && "exp" in c && c["exp"] == Num(Unix(r.expiresAt))
  {
    var p := LinkPayloadOf(i.p);
    PayloadFieldsAgree(i);
    MintedClaimsAt(p, i.uid, i.mintedAt);
    MintedResourceClaimsAt(p, i.uid, i.mintedAt);
    hide MintedClaims, Unix, AcceptedClaims;
  }

  lemma PayloadFieldsAgree(i: Issued)
    ensures var p, r := LinkPayloadOf(i.p), RecordOf(i);
            && p.recipientEmail == r.recipient.email && p.resourceUID == r.resource.uid && p.role == r.role
            && p.destinationURL == r.returnURL && p.resourceType == r.resource.kind
            && ExpiresAt(p, i.mintedAt) == r.expiresAt
            && i.p.req.ResolvedRecipientName() == r.recipient.name
            && i.p.req.ResolvedInviterName() == r.inviter.name
  {
    hide ExpiresAt, AcceptedClaims;
  }
}
