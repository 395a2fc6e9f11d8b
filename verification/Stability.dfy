/** What one handler's action may do to everybody else: the rely relation, and the invariants it keeps. */
module Stability {
  import opened Model
  import opened Auth
  import opened KeyValue
  import opened Protocol
  import opened Lifecycle
  import KeySpace

  /** Shared state only grows. */
  predicate Grows(sh: Shared, sh': Shared) {
    && Extends(sh.kv, sh'.kv)
    && sh.clock <= sh'.clock
    && (forall u | u in sh.minted :: u in sh'.minted && sh'.minted[u] == sh.minted[u])
    && sh.tokens <= sh'.tokens
    && sh.faulty <= sh'.faulty && sh.ambiguous <= sh'.ambiguous
    && (forall p | p in sh.published :: p in sh'.published)
  }

  /** A primary key somebody else may at most have accepted. */
  predicate AtMostAccepted(h: seq<Write>, h': seq<Write>) {
    h' == h || (h != [] && |h'| == |h| + 1 && h <= h' && h'[|h|].Put?)
  }

  /** The rely of a send handler: nobody else touches the index key of its UID, and its record is at
      most accepted. */
  predicate RelyOf(sh: Shared, sh': Shared, h: nat) {
    forall u | u in sh.minted && sh.minted[u].handler == h ::
      u in sh'.minted && sh'.minted[u] == sh.minted[u] && X(sh', u) == X(sh, u) && AtMostAccepted(P(sh, u), P(sh', u))
  }

  lemma GrowsHist(sh: Shared, sh': Shared, k: string)
    requires Grows(sh, sh')
    ensures Hist(sh.kv, k) <= Hist(sh'.kv, k)
  {
  }

  lemma MintedForStable(sh: Shared, sh': Shared, h: nat, p: Prepared, uid: string, at: int)
    requires Grows(sh, sh') && MintedFor(sh, h, p, uid, at)
    ensures MintedFor(sh', h, p, uid, at)
  {
    hide LinkPayloadOf, ClaimsAdmissible;
  }

  lemma IssuedStable(st: Settings, sh: Shared, sh': Shared, h: nat, i: Issued)
    requires Grows(sh, sh') && IssuedInv(st, sh, h, i)
    ensures IssuedInv(st, sh', h, i)
  {
    hide LinkPayloadOf, ClaimsAdmissible, TokenOf;
    MintedForStable(sh, sh', h, i.p, i.uid, i.mintedAt);
  }

  lemma UntouchedStable(sh: Shared, sh': Shared, h: nat, uid: string)
    requires Grows(sh, sh') && RelyOf(sh, sh', h)
    requires Untouched(sh, uid) && sh.minted[uid].handler == h
    ensures Untouched(sh', uid)
  {
    hide KeySpace.EmailIndexKey;
  }

  lemma IndexKeyOfMinted(sh: Shared, h: nat, i: Issued)
    requires MintedFor(sh, h, i.p, i.uid, i.mintedAt)
    ensures IndexKeyOf(i) == IKey(sh, i.uid) && Hist(sh.kv, IndexKeyOf(i)) == X(sh, i.uid)
  {
    hide KeySpace.EmailIndexKey, ClaimsAdmissible;
  }

  /** The predicates about one issued invite survive the actions of others. */
  lemma InviteStable(st: Settings, sh: Shared, sh': Shared, h: nat, i: Issued)
    requires Grows(sh, sh') && RelyOf(sh, sh', h) && IssuedInv(st, sh, h, i)
    ensures IssuedInv(st, sh', h, i)
    ensures Alive(sh, i) ==> Alive(sh', i)
    ensures P(sh, i.uid) == [] ==> P(sh', i.uid) == []
    ensures NoIndex(sh, i) ==> NoIndex(sh', i)
    ensures Indexed(sh, i) ==> Indexed(sh', i)
    ensures Unindexed(sh, i) ==> Unindexed(sh', i)
  {
    IssuedStable(st, sh, sh', h, i);
    IndexKeyOfMinted(sh, h, i);
    IndexKeyOfMinted(sh', h, i);
    hide LinkPayloadOf, ClaimsAdmissible, TokenOf, RecordOf, IndexKeyOf, IKey;
    assert i.uid in sh.minted && sh.minted[i.uid].handler == h;
    GrowsHist(sh, sh', i.uid);
  }

  /** A deleted record stays deleted when nobody writes after a tombstone. */
  predicate NothingAfterTombstone(sh: Shared, sh': Shared, uid: string) {
    var h := P(sh, uid);
    h != [] && h[|h| - 1].Tombstone? ==> P(sh', uid) == h
  }

  lemma DeadStable(sh: Shared, sh': Shared, i: Issued)
    requires NothingAfterTombstone(sh, sh', i.uid) && Dead(sh, i)
    ensures Dead(sh', i)
  {
    hide RecordOf;
  }

  lemma EndStable(st: Settings, sh: Shared, sh': Shared, h: nat, e: SendEnd)
    requires Grows(sh, sh') && RelyOf(sh, sh', h) && EndInv(st, sh, h, e)
    requires EndUid(e).Some? ==> NothingAfterTombstone(sh, sh', EndUid(e).value)
    ensures EndInv(st, sh', h, e)
  {
    match e
    case Invalid(u) => if u.Some? { UntouchedStable(sh, sh', h, u.value); }
    case NotSigned(u) => UntouchedStable(sh, sh', h, u);
    case RecordNotPut(i) => EndInviteStable(st, sh, sh', h, i);
    case IndexNotPut(i, _) => EndInviteStable(st, sh, sh', h, i);
    case NotSent(i, _) => EndInviteStable(st, sh, sh', h, i);
    case Sent(i) => EndInviteStable(st, sh, sh', h, i);
  }

  lemma EndInviteStable(st: Settings, sh: Shared, sh': Shared, h: nat, i: Issued)
    requires Grows(sh, sh') && RelyOf(sh, sh', h) && IssuedInv(st, sh, h, i) && NothingAfterTombstone(sh, sh', i.uid)
    ensures IssuedInv(st, sh', h, i)
    ensures Alive(sh, i) ==> Alive(sh', i)
    ensures Dead(sh, i) ==> Dead(sh', i)
    ensures P(sh, i.uid) == [] ==> P(sh', i.uid) == []
    ensures NoIndex(sh, i) ==> NoIndex(sh', i)
    ensures Indexed(sh, i) ==> Indexed(sh', i)
    ensures Unindexed(sh, i) ==> Unindexed(sh', i)
  {
    InviteStable(st, sh, sh', h, i);
    if Dead(sh, i) {
      DeadStable(sh, sh', i);
    }
  }

  /** A send handler's assertion survives every action of the others. */
  lemma SenderStable(st: Settings, sh: Shared, sh': Shared, h: nat, l: Local)
    requires Grows(sh, sh') && RelyOf(sh, sh', h) && SenderInv(st, sh, h, l)
    requires UidOf(l).Some? ==> NothingAfterTombstone(sh, sh', UidOf(l).value)
    ensures SenderInv(st, sh', h, l)
  {
    hide IssuedInv, Alive, Dead, NoIndex, Indexed, Unindexed, RelyOf, LinkPayloadOf, ClaimsAdmissible, Untouched, Mint,
      EndInv, P;
    match l
    case SSign(p, uid, at) => MintedForStable(sh, sh', h, p, uid, at); UntouchedStable(sh, sh', h, uid);
    case SBuild(p, uid, at) => MintedForStable(sh, sh', h, p, uid, at); UntouchedStable(sh, sh', h, uid);
    case SPutRecord(i) => EndInviteStable(st, sh, sh', h, i);
    case SPutIndex(i) => EndInviteStable(st, sh, sh', h, i);
    case SUndo(i) => EndInviteStable(st, sh, sh', h, i);
    case SSend(i) => EndInviteStable(st, sh, sh', h, i);
    case SDelGet(i) => EndInviteStable(st, sh, sh', h, i);
    case SDelRecord(i, _) => EndInviteStable(st, sh, sh', h, i);
    case SDelIndex(i, _) => EndInviteStable(st, sh, sh', h, i);
    case SDone(e) => EndStable(st, sh, sh', h, e);
    case _ =>
  }

  lemma SeenStable(sh: Shared, sh': Shared, uid: string, rec: InviteRecord)
    requires Grows(sh, sh') && Seen(sh, uid, rec)
    ensures Seen(sh', uid, rec) && P(sh', uid)[0] == P(sh, uid)[0] && |P(sh, uid)| <= |P(sh', uid)|
  {
    GrowsHist(sh, sh', uid);
  }

  lemma EvidenceStable(st: Settings, sh: Shared, sh': Shared, ev: Evidence)
    requires Grows(sh, sh') && EvidenceInv(st, sh, ev)
    ensures EvidenceInv(st, sh', ev) && P(sh', ev.evt.inviteUID) != []
    ensures P(sh', ev.evt.inviteUID)[0] == P(sh, ev.evt.inviteUID)[0]
    ensures |P(sh, ev.evt.inviteUID)| <= |P(sh', ev.evt.inviteUID)|
  {
    hide Admits;
    SeenStable(sh, sh', ev.evt.inviteUID, ev.rec);
  }

  lemma MarkStable(sh: Shared, sh': Shared, h: nat, ev: Evidence, wrote: InviteRecord)
    requires Grows(sh, sh') && MarkWritten(sh, h, ev, wrote)
    ensures MarkWritten(sh', h, ev, wrote)
  {
    hide Written;
    GrowsHist(sh, sh', ev.evt.inviteUID);
  }

  lemma TombstoneStable(sh: Shared, sh': Shared, uid: string)
    requires Grows(sh, sh')
    ensures HasTombstone(P(sh, uid)) ==> HasTombstone(P(sh', uid))
  {
    GrowsHist(sh, sh', uid);
  }

  /** An accept handler's assertion survives every growth of the shared state. */
  lemma AcceptStable(st: Settings, sh: Shared, sh': Shared, h: nat, l: Local)
    requires Grows(sh, sh') && AcceptInv(st, sh, h, l)
    ensures AcceptInv(st, sh', h, l)
  {
    hide EvidenceInv, MarkWritten, Seen, P, Written, DomainToAPIInvite, HasTombstone;
    match l
    case AClock(evt, rec) => SeenStable(sh, sh', evt.inviteUID, rec);
    case AVerify(evt, rec, _) => SeenStable(sh, sh', evt.inviteUID, rec);
    case AMarkGet(ev, _) => EvidenceStable(st, sh, sh', ev);
    case AMarkClock(ev, _, _, _) => EvidenceStable(st, sh, sh', ev);
    case AMarkUpdate(ev, _, _, _) => EvidenceStable(st, sh, sh', ev);
    case AReread(ev, wrote) => EvidenceStable(st, sh, sh', ev); MarkStable(sh, sh', h, ev, wrote);
    case APublish(ev, wrote, _) => EvidenceStable(st, sh, sh', ev); MarkStable(sh, sh', h, ev, wrote);
    case ADone(UpdateLost(ev, _)) => EvidenceStable(st, sh, sh', ev);
    case ADone(Unpublished(ev, wrote)) =>
      EvidenceStable(st, sh, sh', ev); MarkStable(sh, sh', h, ev, wrote); TombstoneStable(sh, sh', ev.evt.inviteUID);
    case ADone(Published(ev, wrote, _)) => EvidenceStable(st, sh, sh', ev); MarkStable(sh, sh', h, ev, wrote);
    case _ =>
  }
}
