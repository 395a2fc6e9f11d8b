/** Any number of send and accept handlers running on one bucket: each event starts a handler, lets
    one handler perform its next action with some outcome, or lets time pass. A run is any finite
    sequence of events. */
module Lifecycle {
  import opened Base
  import opened Model
  import opened Auth
  import opened KeyValue
  import opened Protocol
  import KeySpace

  datatype Deployment = Deployment(st: Settings, cfg: NotificationConfig, parsers: Parsers)

  datatype Sys = Sys(shared: Shared, procs: map<nat, Local>)

  datatype Event =
    | SpawnSend(h: nat, req: SendInviteRequest)
    | SpawnAccept(h: nat, evt: AcceptedEvent)
    | Step(h: nat, ch: Choice)
    | Tick(d: nat)

  /** Nobody else can sign with the service's key. */
  predicate Unforged(st: Settings, sh: Shared, t: PresentedToken) {
    t.Presented? && t.token.key == st.secret ==> t.token in sh.tokens
  }

  predicate CanStep(st: Settings, s: Sys, h: nat, ch: Choice) {
    h in s.procs && Running(s.procs[h]) && Allowed(s.shared, Call(st, s.procs[h]), ch)
  }

  function StepOf(st: Settings, s: Sys, h: nat, ch: Choice): Sys
    requires CanStep(st, s, h, ch)
  {
    var (sh, res) := Perform(st, s.shared, h, Call(st, s.procs[h]), ch);
    Sys(sh, s.procs[h := Resume(st, s.procs[h], res)])
  }

  /** One event; an event that is not possible changes nothing. */
  function Apply(d: Deployment, s: Sys, e: Event): Sys {
    match e
    case SpawnSend(h, req) =>
      if h in s.procs then s else s.(procs := s.procs[h := StartSend(d.cfg, d.parsers, req)])
    case SpawnAccept(h, evt) =>
      if h in s.procs || !Unforged(d.st, s.shared, evt.token) then s else s.(procs := s.procs[h := StartAccept(evt)])
    case Step(h, ch) =>
      if CanStep(d.st, s, h, ch) then StepOf(d.st, s, h, ch) else s
    case Tick(n) => s.(shared := s.shared.(clock := s.shared.clock + n))
  }

  function Run(d: Deployment, s: Sys, es: seq<Event>): Sys {
    if es == [] then s else Apply(d, Run(d, s, es[..|es| - 1]), es[|es| - 1])
  }

  function Init(t: int): Sys {
    Sys(Shared(Bucket(map[], 0), t, map[], {}, [], [], {}, {}), map[])
  }

  // ---------------------------------------------------------------- views of a state

  function P(sh: Shared, uid: string): seq<Write> {
    Hist(sh.kv, uid)
  }

  /** The index key of a minted UID. */
  function IKey(sh: Shared, uid: string): string
    requires uid in sh.minted
  {
    KeySpace.EmailIndexKey(sh.minted[uid].payload.recipientEmail, uid)
  }

  function X(sh: Shared, uid: string): seq<Write>
    requires uid in sh.minted
  {
    Hist(sh.kv, IKey(sh, uid))
  }

  function EndUid(e: SendEnd): Option<string> {
    match e
    case Invalid(u) => u
    case NotSigned(u) => Some(u)
    case RecordNotPut(i) => Some(i.uid)
    case IndexNotPut(i, _) => Some(i.uid)
    case NotSent(i, _) => Some(i.uid)
    case Sent(i) => Some(i.uid)
  }

  /** The UID a send handler has minted. */
  function UidOf(l: Local): Option<string> {
    match l
    case SSign(_, u, _) => Some(u)
    case SBuild(_, u, _) => Some(u)
    case SPutRecord(i) => Some(i.uid)
    case SPutIndex(i) => Some(i.uid)
    case SUndo(i) => Some(i.uid)
    case SSend(i) => Some(i.uid)
    case SDelGet(i) => Some(i.uid)
    case SDelRecord(i, _) => Some(i.uid)
    case SDelIndex(i, _) => Some(i.uid)
    case SDone(e) => EndUid(e)
    case _ => None
  }

  predicate IsSender(l: Local) {
    l.SClock? || l.SUid? || l.SSign? || l.SBuild? || l.SPutRecord? || l.SPutIndex? || l.SUndo? || l.SSend? || l.SDelGet?
    || l.SDelRecord? || l.SDelIndex? || l.SDone?
  }

  /** The acceptance a handler may have written: the UID and the record. */
  function MarkOf(l: Local): Option<(string, InviteRecord)> {
    match l
    case AReread(ev, w) => Some((ev.evt.inviteUID, w))
    case APublish(ev, w, _) => Some((ev.evt.inviteUID, w))
    case ADone(UpdateLost(ev, w)) => Some((ev.evt.inviteUID, w))
    case ADone(Unpublished(ev, w)) => Some((ev.evt.inviteUID, w))
    case ADone(Published(ev, w, _)) => Some((ev.evt.inviteUID, w))
    case _ => None
  }

  function SendsOf(sends: seq<Dispatch>, h: nat): seq<InviteEmailPayload> {
    if sends == [] then []
    else
      var d := sends[|sends| - 1];
      SendsOf(sends[..|sends| - 1], h) + if d.handler == h then [d.payload] else []
  }

  /** The e-mails a handler has attempted to send so far, by its local state. */
  function ExpectedSends(st: Settings, l: Local): seq<InviteEmailPayload> {
    match l
    case SDelGet(i) => [EmailOf(st, i)]
    case SDelRecord(i, _) => [EmailOf(st, i)]
    case SDelIndex(i, _) => [EmailOf(st, i)]
    case SDone(NotSent(i, _)) => [EmailOf(st, i)]
    case SDone(Sent(i)) => [EmailOf(st, i)]
    case _ => []
  }

  // ---------------------------------------------------------------- the invariant: keys

  predicate HoldsRecord(w: Write, r: InviteRecord) {
    w.Put? && w.value == Rec(r)
  }

  /** w accepts the pending record r. */
  predicate Accepts(w: Write, r: InviteRecord) {
    && w.Put? && w.value.Rec? && w.value.record.acceptedAt.Some?
    && w.value.record == AcceptRecord(r, w.value.record.acceptedBy, w.value.record.acceptedAt.value)
    && r.createdAt <= w.value.record.acceptedAt.value < r.expiresAt
  }

  /** The write histories a primary key can have: pending, then possibly accepted, then possibly
      deleted, and nothing after that. */
  predicate PrimaryLife(h: seq<Write>, uid: string) {
    && 1 <= |h| <= 3
    && h[0].Put? && h[0].value.Rec? && IsPending(h[0].value.record) && h[0].value.record.uid == uid
    && (|h| >= 2 ==> h[1].Tombstone? || Accepts(h[1], h[0].value.record))
    && (|h| == 3 ==> h[1].Put? && h[2].Tombstone?)
  }

  predicate IndexLife(h: seq<Write>, uid: string) {
    && 1 <= |h| <= 2
    && h[0].Put? && h[0].value == Idx(uid)
    && (|h| == 2 ==> h[1].Tombstone?)
  }

  /** What the first record of a UID has in common with what was minted for it. */
  predicate MatchesMint(sh: Shared, m: MintInfo, r: InviteRecord) {
    && r.recipient.email == m.payload.recipientEmail
    && r.expiresAt == ExpiresAt(m.payload, m.at)
    && r.customClaims == AcceptedClaims(m.payload.customClaims)
    && m.at <= r.createdAt <= sh.clock
  }

  predicate MarkedBy(procs: map<nat, Local>, w: Write, uid: string)
    requires w.Put? && w.value.Rec?
  {
    w.author in procs && MarkOf(procs[w.author]) == Some((uid, w.value.record))
  }

  predicate PrimaryInv(sh: Shared, procs: map<nat, Local>, uid: string)
    requires uid in sh.minted
  {
    var h := P(sh, uid);
    && PrimaryLife(h, uid)
    && h[0].author == sh.minted[uid].handler
    && MatchesMint(sh, sh.minted[uid], h[0].value.record)
    && (|h| >= 2 && h[1].Put? ==> MarkedBy(procs, h[1], uid))
    && (h[|h| - 1].Tombstone? ==> h[|h| - 1].author == sh.minted[uid].handler)
  }

  predicate IndexInv(sh: Shared, k: string) {
    var h := Hist(sh.kv, k);
    && h != [] && h[0].Put? && h[0].value.Idx?
    && var uid := h[0].value.uid;
    && uid in sh.minted && k == IKey(sh, uid) && P(sh, uid) != []
    && IndexLife(h, uid)
    && (forall i | 0 <= i < |h| :: h[i].author == sh.minted[uid].handler)
  }

  predicate KeyInv(sh: Shared, procs: map<nat, Local>, k: string) {
    if k in sh.minted then PrimaryInv(sh, procs, k) else IndexInv(sh, k)
  }

  // ---------------------------------------------------------------- the invariant: send handlers

  predicate MintedFor(sh: Shared, h: nat, p: Prepared, uid: string, at: int) {
    && uid in sh.minted && sh.minted[uid] == MintInfo(LinkPayloadOf(p), at, h)
    && at <= sh.clock
    && ClaimsAdmissible(p.req.customClaims)
  }

  predicate Untouched(sh: Shared, uid: string) {
    uid in sh.minted && P(sh, uid) == [] && X(sh, uid) == []
  }

  predicate IssuedInv(st: Settings, sh: Shared, h: nat, i: Issued) {
    && MintedFor(sh, h, i.p, i.uid, i.mintedAt)
    && i.mintedAt <= i.createdAt <= sh.clock
    && TokenOf(st, i) in sh.tokens
  }

  /** The primary record of i has been written and not deleted; it may have been accepted meanwhile. */
  predicate Alive(sh: Shared, i: Issued) {
    var h := P(sh, i.uid);
    h != [] && HoldsRecord(h[0], RecordOf(i)) && h[|h| - 1].Put?
  }

  predicate Dead(sh: Shared, i: Issued) {
    var h := P(sh, i.uid);
    h != [] && HoldsRecord(h[0], RecordOf(i)) && h[|h| - 1].Tombstone?
  }

  predicate NoIndex(sh: Shared, i: Issued) {
    Hist(sh.kv, IndexKeyOf(i)) == []
  }

  predicate Indexed(sh: Shared, i: Issued) {
    var h := Hist(sh.kv, IndexKeyOf(i));
    |h| == 1 && h[0].Put?
  }

  predicate Unindexed(sh: Shared, i: Issued) {
    var h := Hist(sh.kv, IndexKeyOf(i));
    |h| == 2 && h[1].Tombstone?
  }

  /** What h's delete of the live record of i, answered by d, has left. */
  predicate RecordAfter(sh: Shared, h: nat, i: Issued, d: DeleteResult) {
    match d
    case Deleted => Dead(sh, i)
    case NothingToDelete => false
    case DeleteFault => h in sh.faulty && (Alive(sh, i) || (h in sh.ambiguous && Dead(sh, i)))
  }

  /** What h's delete of the live index entry of i, answered by d, has left. */
  predicate IndexAfter(sh: Shared, h: nat, i: Issued, d: DeleteResult) {
    match d
    case Deleted => Unindexed(sh, i)
    case NothingToDelete => false
    case DeleteFault => h in sh.faulty && (Indexed(sh, i) || (h in sh.ambiguous && Unindexed(sh, i)))
  }

  /** The two keys of an invite whose rollback has ended. */
  predicate RollbackInv(sh: Shared, h: nat, i: Issued, r: RollbackEnd) {
    match r
    case RecordNotRead => h in sh.faulty && Alive(sh, i) && Indexed(sh, i)
    case RecordNotDeleted => RecordAfter(sh, h, i, DeleteFault) && Indexed(sh, i)
    case RecordDeleted(d) => Dead(sh, i) && IndexAfter(sh, h, i, d)
  }

  predicate EndInv(st: Settings, sh: Shared, h: nat, e: SendEnd) {
    match e
    case Invalid(u) => u.Some? ==> Untouched(sh, u.value) && sh.minted[u.value].handler == h
    case NotSigned(u) => Untouched(sh, u) && sh.minted[u].handler == h
    case RecordNotPut(i) =>
      IssuedInv(st, sh, h, i) && h in sh.faulty && NoIndex(sh, i)
      && (P(sh, i.uid) == [] || (h in sh.ambiguous && Alive(sh, i)))
    case IndexNotPut(i, undo) =>
      IssuedInv(st, sh, h, i) && h in sh.faulty && RecordAfter(sh, h, i, undo)
      && (NoIndex(sh, i) || (h in sh.ambiguous && Indexed(sh, i)))
    case NotSent(i, rollback) => IssuedInv(st, sh, h, i) && RollbackInv(sh, h, i, rollback)
    case Sent(i) => IssuedInv(st, sh, h, i) && Alive(sh, i) && Indexed(sh, i)
  }

  predicate SenderInv(st: Settings, sh: Shared, h: nat, l: Local) {
    match l
    case SUid(_, at) => at <= sh.clock
    case SSign(p, uid, at) => MintedFor(sh, h, p, uid, at) && Untouched(sh, uid)
    case SBuild(p, uid, at) =>
      MintedFor(sh, h, p, uid, at) && Untouched(sh, uid) && Mint(st.secret, LinkPayloadOf(p), uid, at) in sh.tokens
    case SPutRecord(i) => IssuedInv(st, sh, h, i) && P(sh, i.uid) == [] && NoIndex(sh, i)
    case SPutIndex(i) => IssuedInv(st, sh, h, i) && Alive(sh, i) && NoIndex(sh, i)
    case SUndo(i) =>
      IssuedInv(st, sh, h, i) && h in sh.faulty && Alive(sh, i)
      && (NoIndex(sh, i) || (h in sh.ambiguous && Indexed(sh, i)))
    case SSend(i) => IssuedInv(st, sh, h, i) && Alive(sh, i) && Indexed(sh, i)
    case SDelGet(i) => IssuedInv(st, sh, h, i) && Alive(sh, i) && Indexed(sh, i)
    case SDelRecord(i, got) =>
      IssuedInv(st, sh, h, i) && Alive(sh, i) && Indexed(sh, i) && got.recipient.email == i.p.email
    case SDelIndex(i, got) =>
      IssuedInv(st, sh, h, i) && Dead(sh, i) && Indexed(sh, i) && got.recipient.email == i.p.email
    case SDone(e) => EndInv(st, sh, h, e)
    case _ => true
  }

  // ---------------------------------------------------------------- the invariant: accept handlers

  /** rec is the pending record first written under uid. */
  predicate Seen(sh: Shared, uid: string, rec: InviteRecord) {
    uid in sh.minted && P(sh, uid) != [] && HoldsRecord(P(sh, uid)[0], rec)
  }

  predicate EvidenceInv(st: Settings, sh: Shared, ev: Evidence) {
    && Seen(sh, ev.evt.inviteUID, ev.rec)
    && ev.evt.username != ""
    && ev.rec.createdAt <= ev.at <= sh.clock && ev.at < ev.rec.expiresAt
    && ev.verifiedAt <= sh.clock
    && ev.evt.token.Presented? && ev.evt.token.token in sh.tokens
    && Admits(st, ev.evt, ev.rec, ev.verifiedAt)
  }

  /** Handler h's acceptance is the second write under the invite's key. */
  predicate MarkWritten(sh: Shared, h: nat, ev: Evidence, wrote: InviteRecord) {
    var w := P(sh, ev.evt.inviteUID);
    wrote == Written(ev, ev.rec) && |w| >= 2 && HoldsRecord(w[1], wrote) && w[1].author == h
  }

  predicate HasTombstone(h: seq<Write>) {
    exists i :: 0 <= i < |h| && h[i].Tombstone?
  }

  predicate AcceptEndInv(st: Settings, sh: Shared, h: nat, e: AcceptEnd) {
    match e
    case Discarded(reason) => reason != Contended
    case UpdateLost(ev, wrote) => EvidenceInv(st, sh, ev) && wrote == Written(ev, ev.rec) && h in sh.faulty
    case Unpublished(ev, wrote) =>
      EvidenceInv(st, sh, ev) && MarkWritten(sh, h, ev, wrote)
      && (h in sh.faulty || HasTombstone(P(sh, ev.evt.inviteUID)))
    case Published(ev, wrote, inv) =>
      EvidenceInv(st, sh, ev) && MarkWritten(sh, h, ev, wrote) && inv == DomainToAPIInvite(wrote)
      && Publication(h, inv) in sh.published
  }

  predicate AcceptInv(st: Settings, sh: Shared, h: nat, l: Local) {
    match l
    case ARead(evt) => evt.username != "" && Unforged(st, sh, evt.token)
    case AClock(evt, rec) => evt.username != "" && Unforged(st, sh, evt.token) && Seen(sh, evt.inviteUID, rec)
    case AVerify(evt, rec, now) =>
      evt.username != "" && Unforged(st, sh, evt.token) && Seen(sh, evt.inviteUID, rec)
      && rec.createdAt <= now <= sh.clock && now < rec.expiresAt
    case AMarkGet(ev, n) => EvidenceInv(st, sh, ev) && n <= 1 && (n == 1 ==> |P(sh, ev.evt.inviteUID)| >= 2)
    case AMarkClock(ev, n, got, rev) =>
      EvidenceInv(st, sh, ev) && n == 0 && got == ev.rec && rev == P(sh, ev.evt.inviteUID)[0].rev
    case AMarkUpdate(ev, n, got, rev) =>
      EvidenceInv(st, sh, ev) && n == 0 && got == ev.rec && rev == P(sh, ev.evt.inviteUID)[0].rev
    case AReread(ev, wrote) => EvidenceInv(st, sh, ev) && MarkWritten(sh, h, ev, wrote)
    case APublish(ev, wrote, inv) =>
      EvidenceInv(st, sh, ev) && MarkWritten(sh, h, ev, wrote) && inv == DomainToAPIInvite(wrote)
    case ADone(e) => AcceptEndInv(st, sh, h, e)
    case _ => true
  }

  predicate LocalInv(st: Settings, sh: Shared, h: nat, l: Local) {
    if IsSender(l) then SenderInv(st, sh, h, l) else AcceptInv(st, sh, h, l)
  }

  // ---------------------------------------------------------------- the invariant: the whole state

  predicate OwnerInv(sh: Shared, procs: map<nat, Local>, uid: string)
    requires uid in sh.minted
  {
    var m := sh.minted[uid];
    && uid != "" && SlashFree(uid) && m.payload.recipientEmail != ""
    && m.handler in procs && UidOf(procs[m.handler]) == Some(uid)
  }

  predicate TokenInv(st: Settings, sh: Shared, t: Token) {
    && "jti" in t.claims && t.claims["jti"].Str?
    && var uid := t.claims["jti"].s;
    && uid in sh.minted && t == Mint(st.secret, sh.minted[uid].payload, uid, sh.minted[uid].at)
  }

  predicate PublicationInv(procs: map<nat, Local>, p: Publication) {
    && p.handler in procs && procs[p.handler].ADone? && procs[p.handler].acceptEnd.Published?
    && procs[p.handler].acceptEnd.invite == p.invite
  }

  predicate OwnersInv(s: Sys) {
    forall u | u in s.shared.minted :: OwnerInv(s.shared, s.procs, u)
  }

  predicate KeysInv(s: Sys) {
    forall k | k in s.shared.kv.hist :: KeyInv(s.shared, s.procs, k)
  }

  predicate TokensInv(st: Settings, s: Sys) {
    forall t | t in s.shared.tokens :: TokenInv(st, s.shared, t)
  }

  predicate LocalsInv(st: Settings, s: Sys) {
    forall h | h in s.procs :: LocalInv(st, s.shared, h, s.procs[h])
  }

  predicate SendsInv(st: Settings, s: Sys) {
    && (forall h | h in s.procs :: SendsOf(s.shared.sends, h) == ExpectedSends(st, s.procs[h]))
    && (forall i | 0 <= i < |s.shared.sends| :: s.shared.sends[i].handler in s.procs)
  }

  predicate PublishedInv(s: Sys) {
    var p := s.shared.published;
    && (forall i | 0 <= i < |p| :: PublicationInv(s.procs, p[i]))
    && (forall i, j | 0 <= i < j < |p| :: p[i].handler != p[j].handler)
  }

  ghost predicate Inv(st: Settings, s: Sys) {
    && BucketOk(s.shared.kv)
    && OwnersInv(s)
    && KeysInv(s)
    && TokensInv(st, s)
    && LocalsInv(st, s)
    && SendsInv(st, s)
    && PublishedInv(s)
  }
}
