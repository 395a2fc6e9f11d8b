/** Safety over every run: what holds of any number of interleaved handlers, whatever fails. */
module Theorems {
  import opened Base
  import opened Model
  import opened Auth
  import opened KeyValue
  import opened Protocol
  import opened Lifecycle
  import opened Stability
  import opened Preservation
  import opened SendSteps
  import opened SagaSteps
  import opened Runs
  import opened Growth
  import KeySpace

  // ---------------------------------------------------------------- write histories

  predicate KeyLifecycle(sh: Shared, k: string) {
    if k in sh.minted then PrimaryLife(Hist(sh.kv, k), k)
    else
      var h := Hist(sh.kv, k);
      && h != [] && h[0].Put? && h[0].value.Idx? && h[0].value.uid in sh.minted
      && k == IKey(sh, h[0].value.uid) && IndexLife(h, h[0].value.uid)
  }

  /** Every key ever written is either a minted UID with history pending, [accepted,] [tombstone], or
      the index key of one with history entry, [tombstone]. */
  lemma EveryKeyHasALifecycle(d: Deployment, t: int, es: seq<Event>)
    ensures var s := Run(d, Init(t), es); forall k | k in s.shared.kv.hist :: KeyLifecycle(s.shared, k)
  {
    var s := Run(d, Init(t), es);
    ReachableInv(d, t, es);
    hide Run, Inv, KeyInv, KeyLifecycle;
    forall k | k in s.shared.kv.hist ensures KeyLifecycle(s.shared, k) {
      InvKey(d.st, s, k);
      KeyInvLifecycle(s, k);
    }
  }

  lemma KeyInvLifecycle(s: Sys, k: string)
    requires k in s.shared.kv.hist && KeyInv(s.shared, s.procs, k)
    ensures KeyLifecycle(s.shared, k)
  {
    hide PrimaryLife, IKey, MarkedBy, MatchesMint;
  }

  predicate EndsInTombstone(h: seq<Write>) {
    h != [] && h[|h| - 1].Tombstone?
  }

  predicate EndsAccepted(h: seq<Write>) {
    h != [] && h[|h| - 1].Put? && h[|h| - 1].value.Rec? && h[|h| - 1].value.record.status == Accepted
  }

  lemma LifeIsFinal(h: seq<Write>, h2: seq<Write>, uid: string)
    requires h <= h2 && PrimaryLife(h, uid) && PrimaryLife(h2, uid)
    ensures EndsInTombstone(h) ==> h2 == h
    ensures EndsAccepted(h) ==> h2 == h || (|h2| == |h| + 1 && EndsInTombstone(h2))
  {
    hide Accepts;
  }

  lemma MintedLife(st: Settings, s: Sys, uid: string)
    requires Inv(st, s) && uid in s.shared.minted
    ensures P(s.shared, uid) == [] || PrimaryLife(P(s.shared, uid), uid)
  {
    hide Inv, PrimaryLife, MarkedBy, MatchesMint;
    if P(s.shared, uid) != [] {
      InvKey(st, s, uid);
    }
  }

  /** Nothing comes back: after a rollback no write of any handler follows, and an accepted record is
      never pending again; all that can follow an acceptance is one tombstone. */
  lemma NoResurrection(d: Deployment, t: int, es: seq<Event>, fs: seq<Event>, uid: string)
    requires uid in Run(d, Init(t), es).shared.minted
    ensures var h, h2 := P(Run(d, Init(t), es).shared, uid), P(Run(d, Init(t), es + fs).shared, uid);
            && (EndsInTombstone(h) ==> h2 == h)
            && (EndsAccepted(h) ==> h2 == h || (|h2| == |h| + 1 && h <= h2 && EndsInTombstone(h2)))
  {
    hide Inv, Apply, Grows, PrimaryLife, Init, Run;
    var s := Run(d, Init(t), es);
    ReachableInv(d, t, es);
    ReachableInv(d, t, es + fs);
    RunSplits(d, Init(t), es, fs);
    RunGrows(d, s, fs);
    var s2 := Run(d, Init(t), es + fs);
    GrowsKeepsMinted(s.shared, s2.shared, uid);
    GrowsHist(s.shared, s2.shared, uid);
    MintedLife(d.st, s, uid);
    MintedLife(d.st, s2, uid);
    if P(s.shared, uid) != [] {
      LifeIsFinal(P(s.shared, uid), P(s2.shared, uid), uid);
    }
  }

  lemma GrowsKeepsMinted(sh: Shared, sh2: Shared, uid: string)
    requires Grows(sh, sh2) && uid in sh.minted
    ensures uid in sh2.minted
  {
    hide Extends;
  }

  /** The handler rolled this invite back, and its delete of the record was acknowledged: its index write or its
      e-mail had failed. */
  predicate RolledBack(l: Local) {
    match l
    case SDelIndex(_, _) => true
    case SDone(IndexNotPut(_, undo)) => !undo.DeleteFault?
    case SDone(NotSent(_, rollback)) => rollback.RecordDeleted?
    case _ => false
  }

  /** The handler asked for the record to be deleted, whatever the answer. */
  predicate RollbackTried(l: Local) {
    match l
    case SDelIndex(_, _) => true
    case SDone(IndexNotPut(_, _)) => true
    case SDone(NotSent(_, rollback)) => !rollback.RecordNotRead?
    case _ => false
  }

  lemma TombstoneOwner(st: Settings, sh: Shared, h: nat, l: Local, uid: string)
    requires LocalInv(st, sh, h, l) && UidOf(l) == Some(uid) && EndsInTombstone(P(sh, uid))
    ensures RollbackTried(l) && (h !in sh.ambiguous ==> RolledBack(l))
  {
    hide IssuedInv, NoIndex, Indexed, Unindexed, RecordOf, MintedFor, X;
  }

  /** A record disappears only through its own sender's rollback, and, unless a call of that sender took effect
      although it reported an error, through one that was acknowledged. */
  lemma OnlyOwnRollbackDeletes(d: Deployment, t: int, es: seq<Event>, uid: string)
    requires uid in Run(d, Init(t), es).shared.minted && EndsInTombstone(P(Run(d, Init(t), es).shared, uid))
    ensures var s := Run(d, Init(t), es);
            var h := s.shared.minted[uid].handler;
            && h in s.procs && UidOf(s.procs[h]) == Some(uid) && RollbackTried(s.procs[h])
            && (h !in s.shared.ambiguous ==> RolledBack(s.procs[h]))
  {
    hide Run, Init, Inv, P, EndsInTombstone, LocalInv, UidOf, RolledBack, RollbackTried;
    var s := Run(d, Init(t), es);
    ReachableInv(d, t, es);
    InvOwner(d.st, s, uid);
    var h := s.shared.minted[uid].handler;
    InvLocal(d.st, s, h);
    TombstoneOwner(d.st, s.shared, h, s.procs[h], uid);
  }

  lemma InvOwner(st: Settings, s: Sys, uid: string)
    requires Inv(st, s) && uid in s.shared.minted
    ensures OwnerInv(s.shared, s.procs, uid) && s.shared.minted[uid].handler in s.procs
    ensures UidOf(s.procs[s.shared.minted[uid].handler]) == Some(uid) && SlashFree(uid) && uid != ""
  {
    hide KeysInv, TokensInv, LocalsInv, SendsInv, PublishedInv, BucketOk, UidOf, SlashFree;
    assert OwnerInv(s.shared, s.procs, uid);
  }

  // ---------------------------------------------------------------- acceptance

  function EvidenceOf(l: Local): Option<Evidence> {
    match l
    case AReread(ev, _) => Some(ev)
    case APublish(ev, _, _) => Some(ev)
    case ADone(UpdateLost(ev, _)) => Some(ev)
    case ADone(Unpublished(ev, _)) => Some(ev)
    case ADone(Published(ev, _, _)) => Some(ev)
    case _ => None
  }

  /** The acceptance of uid by handler a was backed by a token this service signed and that verified for
      exactly this record. */
  predicate BackedBy(st: Settings, sh: Shared, uid: string, first: InviteRecord, accepted: InviteRecord, l: Local) {
    && EvidenceOf(l).Some?
    && var ev := EvidenceOf(l).value;
    && ev.evt.inviteUID == uid && ev.evt.username != ""
    && accepted.status == Accepted && accepted.acceptedBy == ev.evt.username && accepted.acceptedAt == Some(ev.at)
    && accepted.(status := Pending, acceptedBy := "", acceptedAt := None) == first
    && ev.evt.token.Presented? && ev.evt.token.token in sh.tokens
    && Verify(st.secret, ev.evt.token, ev.verifiedAt) == Some(TokenClaims(first.uid, first.recipient.email))
    && (accepted.recipient.username != "" ==> accepted.acceptedBy == accepted.recipient.username)
    && ev.at < first.expiresAt
  }

  lemma MarkHasEvidence(st: Settings, sh: Shared, h: nat, l: Local)
    requires LocalInv(st, sh, h, l) && MarkOf(l).Some?
    ensures EvidenceOf(l).Some? && EvidenceInv(st, sh, EvidenceOf(l).value)
    ensures MarkOf(l).value ==
            (EvidenceOf(l).value.evt.inviteUID, Written(EvidenceOf(l).value, EvidenceOf(l).value.rec))
  {
    hide EvidenceInv, Written, P, HoldsRecord;
  }

  lemma EvidenceBacks(st: Settings, sh: Shared, l: Local, uid: string, accepted: InviteRecord)
    requires EvidenceOf(l).Some? && EvidenceInv(st, sh, EvidenceOf(l).value)
    requires (uid, accepted) ==
            (EvidenceOf(l).value.evt.inviteUID, Written(EvidenceOf(l).value, EvidenceOf(l).value.rec))
    requires P(sh, uid) != [] && P(sh, uid)[0].Put? && P(sh, uid)[0].value.Rec? && IsPending(P(sh, uid)[0].value.record)
    ensures BackedBy(st, sh, uid, P(sh, uid)[0].value.record, accepted, l)
  {
    hide Verify, EvidenceOf, Hist;
  }

  /** Checks made on a stale read still hold of the record at the write: every acceptance ever written
      carries such evidence, although verification and MarkAccepted read the record separately. */
  lemma EveryAcceptanceWasVerified(d: Deployment, t: int, es: seq<Event>, uid: string)
    requires uid in Run(d, Init(t), es).shared.minted
    ensures var s := Run(d, Init(t), es);
            var h := P(s.shared, uid);
            |h| >= 2 && h[1].Put? ==>
              && h[1].author in s.procs && h[0].Put? && h[0].value.Rec? && h[1].value.Rec?
              && h[0].value.record.uid == uid
              && BackedBy(d.st, s.shared, uid, h[0].value.record, h[1].value.record, s.procs[h[1].author])
  {
    hide Run, Init, Inv, LocalInv, BackedBy, EvidenceInv, EvidenceOf, MarkOf, MatchesMint;
    var s := Run(d, Init(t), es);
    ReachableInv(d, t, es);
    var h := P(s.shared, uid);
    if |h| >= 2 && h[1].Put? {
      InvKey(d.st, s, uid);
      InvLocal(d.st, s, h[1].author);
      MarkHasEvidence(d.st, s.shared, h[1].author, s.procs[h[1].author]);
      EvidenceBacks(d.st, s.shared, s.procs[h[1].author], uid, h[1].value.record);
    }
  }

  /** A handler whose MarkAccepted returned success, and for which invite. */
  function SucceededFor(l: Local): Option<string> {
    match l
    case AReread(ev, _) => Some(ev.evt.inviteUID)
    case APublish(ev, _, _) => Some(ev.evt.inviteUID)
    case ADone(Unpublished(ev, _)) => Some(ev.evt.inviteUID)
    case ADone(Published(ev, _, _)) => Some(ev.evt.inviteUID)
    case _ => None
  }

  lemma SuccessWrote(st: Settings, sh: Shared, h: nat, l: Local)
    requires LocalInv(st, sh, h, l) && SucceededFor(l).Some?
    ensures var p := P(sh, SucceededFor(l).value); |p| >= 2 && p[1].author == h
  {
    hide EvidenceInv, Written, Hist, HoldsRecord;
  }

  /** At most one MarkAccepted per invite ever returns success. */
  lemma AtMostOneAcceptance(d: Deployment, t: int, es: seq<Event>, h1: nat, h2: nat)
    requires h1 in Run(d, Init(t), es).procs && h2 in Run(d, Init(t), es).procs
    requires SucceededFor(Run(d, Init(t), es).procs[h1]).Some?
    requires SucceededFor(Run(d, Init(t), es).procs[h1]) == SucceededFor(Run(d, Init(t), es).procs[h2])
    ensures h1 == h2
  {
    hide Run, Init, Inv, LocalInv, SucceededFor;
    var s := Run(d, Init(t), es);
    ReachableInv(d, t, es);
    InvLocal(d.st, s, h1);
    InvLocal(d.st, s, h2);
    SuccessWrote(d.st, s.shared, h1, s.procs[h1]);
    SuccessWrote(d.st, s.shared, h2, s.procs[h2]);
  }

  // ---------------------------------------------------------------- publication

  /** What is known of one published event. */
  predicate PublishedFact(s: Sys, p: Publication) {
    && p.handler in s.procs && SucceededFor(s.procs[p.handler]) == Some(p.invite.uid)
    && var h := P(s.shared, p.invite.uid);
    && |h| >= 2 && h[1].Put? && h[1].value.Rec? && h[1].author == p.handler
    && h[1].value.record.status == Accepted && p.invite == DomainToAPIInvite(h[1].value.record)
  }

  lemma PublishedFromLocal(st: Settings, s: Sys, p: Publication)
    requires PublicationInv(s.procs, p) && LocalInv(st, s.shared, p.handler, s.procs[p.handler])
    requires SeenUid(s, s.procs[p.handler].acceptEnd.ev)
    ensures PublishedFact(s, p)
  {
    hide Admits, Hist;
  }

  /** The record an accept handler checked carries the UID of its event. */
  predicate SeenUid(s: Sys, ev: Evidence) {
    ev.rec.uid == ev.evt.inviteUID
  }

  lemma EvidenceUid(st: Settings, s: Sys, ev: Evidence)
    requires Inv(st, s) && EvidenceInv(st, s.shared, ev)
    ensures SeenUid(s, ev)
  {
    SeenImpliesWritten(st, s, ev);
    hide Inv, Admits, MatchesMint, MarkedBy, Accepts, IsPending;
    InvKey(st, s, ev.evt.inviteUID);
  }

  lemma SeenImpliesWritten(st: Settings, s: Sys, ev: Evidence)
    requires EvidenceInv(st, s.shared, ev)
    ensures ev.evt.inviteUID in s.shared.kv.hist
  {
    hide Admits, HoldsRecord;
  }

  lemma PublishedEvidence(st: Settings, s: Sys, p: Publication)
    requires PublicationInv(s.procs, p) && LocalInv(st, s.shared, p.handler, s.procs[p.handler])
    ensures EvidenceInv(st, s.shared, s.procs[p.handler].acceptEnd.ev)
  {
    hide EvidenceInv;
  }

  lemma InvPublication(st: Settings, s: Sys, i: nat)
    requires Inv(st, s) && i < |s.shared.published|
    ensures PublishedFact(s, s.shared.published[i])
  {
    InvPublished(st, s);
    hide Inv, LocalInv, EvidenceInv, PublishedFact, SeenUid;
    var p := s.shared.published[i];
    InvLocal(st, s, p.handler);
    PublishedEvidence(st, s, p);
    EvidenceUid(st, s, s.procs[p.handler].acceptEnd.ev);
    PublishedFromLocal(st, s, p);
  }

  lemma InvPublished(st: Settings, s: Sys)
    requires Inv(st, s)
    ensures PublishedInv(s)
  {
    hide BucketOk, OwnersInv, KeysInv, TokensInv, LocalsInv, SendsInv, PublishedInv;
  }

  /** Every published event is the view of exactly the record its own handler's MarkAccepted wrote,
      accepted before the status is forced. */
  lemma PublishedIsWhatWasWritten(d: Deployment, t: int, es: seq<Event>, i: nat)
    requires i < |Run(d, Init(t), es).shared.published|
    ensures var s := Run(d, Init(t), es); PublishedFact(s, s.shared.published[i])
  {
    hide Run, Init, Inv, PublishedFact;
    ReachableInv(d, t, es);
    InvPublication(d.st, Run(d, Init(t), es), i);
  }

  /** At most one enriched event per invite, however many acceptance events arrive. */
  lemma AtMostOnePublication(d: Deployment, t: int, es: seq<Event>, i: nat, j: nat)
    requires i < j < |Run(d, Init(t), es).shared.published|
    ensures Run(d, Init(t), es).shared.published[i].invite.uid != Run(d, Init(t), es).shared.published[j].invite.uid
  {
    hide Run, Init, Inv, SucceededFor;
    var s := Run(d, Init(t), es);
    ReachableInv(d, t, es);
    InvPublished(d.st, s);
    InvPublication(d.st, s, i);
    InvPublication(d.st, s, j);
  }

  // ---------------------------------------------------------------- acceptance and publication

  /** Handler a's acceptance w of uid has been published by a itself. */
  predicate PublishedAcceptance(s: Sys, uid: string, w: Write)
    requires w.author in s.procs && w.Put? && w.value.Rec?
  {
    var l := s.procs[w.author];
    && l.ADone? && l.acceptEnd.Published? && l.acceptEnd.ev.evt.inviteUID == uid
    && l.acceptEnd.invite == DomainToAPIInvite(w.value.record)
    && Publication(w.author, l.acceptEnd.invite) in s.shared.published
  }

  lemma MarkPublished(st: Settings, s: Sys, a: nat, uid: string, w: Write)
    requires a in s.procs && LocalInv(st, s.shared, a, s.procs[a]) && s.procs[a].ADone?
    requires w.author == a && w.Put? && w.value.Rec? && MarkedBy(s.procs, w, uid)
    ensures PublishedAcceptance(s, uid, w) || a in s.shared.faulty || HasTombstone(P(s.shared, uid))
  {
    hide EvidenceInv, P, HasTombstone, DomainToAPIInvite, Written;
  }

  lemma TombstoneIsLast(h: seq<Write>, uid: string)
    requires PrimaryLife(h, uid) && HasTombstone(h)
    ensures EndsInTombstone(h)
  {
    hide Accepts, IsPending;
  }

  /** Every acceptance is published by the handler that wrote it by the time it has finished, unless a KV call of
      that handler failed or the invite's sender has rolled it back. */
  lemma AcceptedIsPublished(d: Deployment, t: int, es: seq<Event>, uid: string)
    requires uid in Run(d, Init(t), es).shared.minted
    ensures var s := Run(d, Init(t), es);
            var h := P(s.shared, uid);
            |h| >= 2 && h[1].Put? ==>
              && h[1].author in s.procs && h[1].value.Rec?
              && (s.procs[h[1].author].ADone? ==>
                    PublishedAcceptance(s, uid, h[1]) || h[1].author in s.shared.faulty || EndsInTombstone(h))
  {
    hide Run, Init, Inv, LocalInv, PublishedAcceptance, EndsInTombstone, HasTombstone, MatchesMint, MarkOf;
    var s := Run(d, Init(t), es);
    ReachableInv(d, t, es);
    var h := P(s.shared, uid);
    if |h| >= 2 && h[1].Put? {
      InvKey(d.st, s, uid);
      var a := h[1].author;
      InvLocal(d.st, s, a);
      if s.procs[a].ADone? {
        MarkPublished(d.st, s, a, uid, h[1]);
        if HasTombstone(h) {
          TombstoneIsLast(h, uid);
        }
      }
    }
  }

  // ---------------------------------------------------------------- who wrote what

  predicate SilentIn(sh: Shared, h: nat) {
    && (forall k, i | k in sh.kv.hist && 0 <= i < |sh.kv.hist[k]| :: sh.kv.hist[k][i].author != h)
    && (forall i | 0 <= i < |sh.published| :: sh.published[i].handler != h)
  }

  lemma AuthorsOfPrimary(s: Sys, k: string, i: nat)
    requires k in s.shared.kv.hist && k in s.shared.minted && PrimaryInv(s.shared, s.procs, k)
    requires i < |s.shared.kv.hist[k]|
    ensures var a := s.shared.kv.hist[k][i].author;
            a == s.shared.minted[k].handler || (a in s.procs && MarkOf(s.procs[a]).Some?)
  {
    hide MarkOf, MatchesMint, Accepts, IsPending;
  }

  lemma AuthorsOfIndex(s: Sys, k: string, i: nat)
    requires k in s.shared.kv.hist && IndexInv(s.shared, k) && i < |s.shared.kv.hist[k]|
    ensures s.shared.kv.hist[k][0].Put?
    ensures var u := s.shared.kv.hist[k][0].value.uid;
            s.shared.kv.hist[k][0].value.Idx? && u in s.shared.minted
            && s.shared.kv.hist[k][i].author == s.shared.minted[u].handler
            && P(s.shared, u) != [] && k == IKey(s.shared, u)
  {
    hide IKey, IndexLife;
  }

  /** Every write is made by the handler that minted the UID, or is the acceptance of an accept handler. */
  lemma AuthorOfWrite(st: Settings, s: Sys, k: string, i: nat)
    requires Inv(st, s) && k in s.shared.kv.hist && i < |s.shared.kv.hist[k]|
    ensures var a := s.shared.kv.hist[k][i].author;
            && a in s.procs
            && (MarkOf(s.procs[a]).Some? || (UidOf(s.procs[a]).Some? && P(s.shared, UidOf(s.procs[a]).value) != []))
  {
    hide Inv, MarkOf, UidOf, PrimaryInv, IndexInv;
    InvKey(st, s, k);
    if k in s.shared.minted {
      AuthorsOfPrimary(s, k, i);
      InvOwner(st, s, k);
      WrittenNonEmpty(st, s, k);
    } else {
      AuthorsOfIndex(s, k, i);
      InvOwner(st, s, s.shared.kv.hist[k][0].value.uid);
    }
  }

  lemma WrittenNonEmpty(st: Settings, s: Sys, k: string)
    requires Inv(st, s) && k in s.shared.kv.hist
    ensures P(s.shared, k) != []
  {
    InvBucket(st, s);
    hide Inv;
    assert RevsOk(s.shared.kv.hist[k], s.shared.kv.last);
  }

  /** A rejected acceptance event has written nothing and published nothing. */
  lemma RejectedIsSilent(d: Deployment, t: int, es: seq<Event>, h: nat)
    requires h in Run(d, Init(t), es).procs && Run(d, Init(t), es).procs[h].ADone?
    requires Run(d, Init(t), es).procs[h].acceptEnd.Discarded?
    ensures SilentIn(Run(d, Init(t), es).shared, h)
  {
    hide Run, Init, Inv;
    var s := Run(d, Init(t), es);
    ReachableInv(d, t, es);
    InvPublished(d.st, s);
    forall k, i | k in s.shared.kv.hist && 0 <= i < |s.shared.kv.hist[k]| ensures s.shared.kv.hist[k][i].author != h {
      AuthorOfWrite(d.st, s, k, i);
    }
  }

  /** Within this protocol the optimistic loop never runs out of attempts: at most one mismatch is ever
      seen, because after it the record is no longer pending. */
  lemma RetriesNeverExhausted(d: Deployment, t: int, es: seq<Event>, h: nat)
    requires h in Run(d, Init(t), es).procs
    ensures var l := Run(d, Init(t), es).procs[h];
            && (l.ADone? && l.acceptEnd.Discarded? ==> l.acceptEnd.reason != Contended)
            && (l.AMarkGet? ==> l.attempt <= 1)
            && (l.AMarkClock? || l.AMarkUpdate? ==> l.attempt == 0)
  {
    hide Run, Init, Inv;
    var s := Run(d, Init(t), es);
    ReachableInv(d, t, es);
    InvLocal(d.st, s, h);
    hide EvidenceInv, SenderInv, P;
  }

  /** Acceptance happens between creation and expiry, and within 90 days, for every requested lifetime. */
  lemma AcceptanceTimeBounds(d: Deployment, t: int, es: seq<Event>, uid: string)
    requires uid in Run(d, Init(t), es).shared.minted
    ensures var h := P(Run(d, Init(t), es).shared, uid);
            |h| >= 2 && h[1].Put? ==>
              && h[1].value.Rec? && h[1].value.record.acceptedAt.Some?
              && var r := h[1].value.record;
              r.createdAt <= r.acceptedAt.value < r.expiresAt && r.acceptedAt.value < r.createdAt + 90 * DAY
  {
    hide Run, Init, Inv;
    var s := Run(d, Init(t), es);
    ReachableInv(d, t, es);
    if P(s.shared, uid) != [] {
      InvKey(d.st, s, uid);
      TTLExact(s.shared.minted[uid].payload.expirationDays);
      hide TTL, IsPending, MarkedBy, AcceptedClaims;
    }
  }

  // ---------------------------------------------------------------- what a reply means

  /** Create completed: both of the invite's keys were first written by this handler. */
  predicate CreateCompleted(sh: Shared, h: nat, i: Issued) {
    && P(sh, i.uid) != [] && P(sh, i.uid)[0].author == h && HoldsRecord(P(sh, i.uid)[0], RecordOf(i))
    && Hist(sh.kv, IndexKeyOf(i)) != [] && Hist(sh.kv, IndexKeyOf(i))[0].author == h
    && Hist(sh.kv, IndexKeyOf(i))[0].Put? && Hist(sh.kv, IndexKeyOf(i))[0].value == Idx(i.uid)
  }

  predicate ReplyEffect(st: Settings, sh: Shared, h: nat, e: SendEnd) {
    match ReplyFor(e)
    case ReplyError(InvalidRequest) => SilentIn(sh, h) && SendsOf(sh.sends, h) == []
    case ReplyError(InternalError) => SendsOf(sh.sends, h) == []
    case ReplyError(EmailDispatchFailed) =>
      e.NotSent? && CreateCompleted(sh, h, e.i) && SendsOf(sh.sends, h) == [EmailOf(st, e.i)]
    case ReplyOk(uid, email, expiresAt) =>
      e.Sent? && CreateCompleted(sh, h, e.i) && SendsOf(sh.sends, h) == [EmailOf(st, e.i)]
      && RecordOf(e.i).uid == uid && RecordOf(e.i).recipient.email == email && RecordOf(e.i).expiresAt == expiresAt
  }

  lemma CreatedFromInv(st: Settings, s: Sys, h: nat, i: Issued)
    requires Inv(st, s) && IssuedInv(st, s.shared, h, i) && (Alive(s.shared, i) || Dead(s.shared, i))
    requires Indexed(s.shared, i) || Unindexed(s.shared, i)
    ensures CreateCompleted(s.shared, h, i)
  {
    IssuedMinted(st, s.shared, h, i);
    WrittenKeys(s.shared, i);
    hide Inv, RecordOf, IndexKeyOf, IKey, IssuedInv, MatchesMint, MarkedBy, Accepts, IsPending;
    InvKey(st, s, i.uid);
    InvKey(st, s, IndexKeyOf(i));
    InvParts(st, s);
    IndexOfIssued(st, s, h, i);
  }

  lemma WrittenKeys(sh: Shared, i: Issued)
    requires (Alive(sh, i) || Dead(sh, i)) && (Indexed(sh, i) || Unindexed(sh, i))
    ensures i.uid in sh.kv.hist && IndexKeyOf(i) in sh.kv.hist
  {
    hide RecordOf, IndexKeyOf;
  }

  lemma IndexOfIssued(st: Settings, s: Sys, h: nat, i: Issued)
    requires OwnersInv(s) && IssuedInv(st, s.shared, h, i) && KeyInv(s.shared, s.procs, IndexKeyOf(i))
    ensures var x := Hist(s.shared.kv, IndexKeyOf(i));
            x != [] && x[0].Put? && x[0].value == Idx(i.uid) && x[0].author == h
  {
    hide OwnersInv, KeySpace.EmailIndexKey, Hist, IssuedInv, PrimaryInv;
    IssuedMinted(st, s.shared, h, i);
    IndexKeyIsNoUid(s, i.p.email, i.uid, IndexKeyOf(i));
    IndexEntryOf(s.shared, IndexKeyOf(i), i.p.email, i.uid);
  }

  lemma InvalidWroteNothing(st: Settings, sh: Shared, h: nat, l: Local)
    requires LocalInv(st, sh, h, l) && l.SDone? && l.sendEnd.Invalid?
    ensures MarkOf(l) == None && (UidOf(l).Some? ==> P(sh, UidOf(l).value) == [])
  {
    hide P, X;
  }

  lemma UntouchedIsSilent(st: Settings, s: Sys, h: nat)
    requires Inv(st, s) && h in s.procs && s.procs[h].SDone? && s.procs[h].sendEnd.Invalid?
    ensures SilentIn(s.shared, h)
  {
    hide Inv, LocalInv, P, MarkOf, UidOf;
    InvLocal(st, s, h);
    InvPublished(st, s);
    InvalidWroteNothing(st, s.shared, h, s.procs[h]);
    forall k, i | k in s.shared.kv.hist && 0 <= i < |s.shared.kv.hist[k]| ensures s.shared.kv.hist[k][i].author != h {
      AuthorOfWrite(st, s, k, i);
    }
  }

  lemma InvSends(st: Settings, s: Sys, h: nat)
    requires Inv(st, s) && h in s.procs
    ensures SendsOf(s.shared.sends, h) == ExpectedSends(st, s.procs[h])
  {
    hide BucketOk, OwnersInv, KeysInv, TokensInv, LocalsInv, PublishedInv, ExpectedSends;
  }

  lemma EndCreated(st: Settings, s: Sys, h: nat, e: SendEnd)
    requires Inv(st, s) && EndInv(st, s.shared, h, e) && (e.NotSent? || e.Sent?)
    ensures CreateCompleted(s.shared, h, e.i)
  {
    hide Inv, IssuedInv, Alive, Dead, Indexed, Unindexed, CreateCompleted;
    CreatedFromInv(st, s, h, e.i);
  }

  lemma DoneLocal(st: Settings, s: Sys, h: nat)
    requires Inv(st, s) && h in s.procs && s.procs[h].SDone?
    ensures EndInv(st, s.shared, h, s.procs[h].sendEnd)
  {
    InvLocal(st, s, h);
    hide Inv, EndInv;
  }

  lemma RecordIdentity(i: Issued)
    ensures RecordOf(i).uid == i.uid && RecordOf(i).recipient.email == i.p.email
  {
    hide ExpiresAt, AcceptedClaims;
  }

  /** The invite a sender has created, from its e-mail on. */
  function CreatedInvite(l: Local): Option<Issued> {
    match l
    case SSend(i) => Some(i)
    case SDelGet(i) => Some(i)
    case SDelRecord(i, _) => Some(i)
    case SDelIndex(i, _) => Some(i)
    case SDone(NotSent(i, _)) => Some(i)
    case SDone(Sent(i)) => Some(i)
    case _ => None
  }

  /** A handler about to send has completed Create and sent nothing yet; one that has sent has completed Create,
      and sent the e-mail of the created invite once. */
  predicate CreatedBeforeSent(st: Settings, s: Sys, h: nat) {
    h in s.procs && (s.procs[h].SSend? || SendsOf(s.shared.sends, h) != []) ==>
      && CreatedInvite(s.procs[h]).Some?
      && var i := CreatedInvite(s.procs[h]).value;
      && CreateCompleted(s.shared, h, i)
      && SendsOf(s.shared.sends, h) == if s.procs[h].SSend? then [] else [EmailOf(st, i)]
  }

  lemma ExpectedInvite(st: Settings, l: Local)
    ensures ExpectedSends(st, l) ==
            if CreatedInvite(l).Some? && !l.SSend? then [EmailOf(st, CreatedInvite(l).value)] else []
  {
    hide EmailOf;
  }

  lemma CreatedLocal(st: Settings, sh: Shared, h: nat, l: Local)
    requires LocalInv(st, sh, h, l) && CreatedInvite(l).Some?
    ensures var i := CreatedInvite(l).value;
            IssuedInv(st, sh, h, i) && (Alive(sh, i) || Dead(sh, i)) && (Indexed(sh, i) || Unindexed(sh, i))
  {
    hide IssuedInv, Alive, Dead, Indexed, Unindexed;
  }

  /** In every state of every run the e-mail comes after both writes. */
  lemma CreateThenSend(d: Deployment, t: int, es: seq<Event>, h: nat)
    ensures CreatedBeforeSent(d.st, Run(d, Init(t), es), h)
  {
    hide Run, Init, Inv, LocalInv, CreateCompleted, EmailOf, SendsOf, CreatedInvite, ExpectedSends, IssuedInv, Alive,
      Dead, Indexed, Unindexed;
    var s := Run(d, Init(t), es);
    ReachableInv(d, t, es);
    if h in s.procs {
      InvSends(d.st, s, h);
      ExpectedInvite(d.st, s.procs[h]);
      SendsInvite(s.procs[h]);
      if CreatedInvite(s.procs[h]).Some? {
        InvLocal(d.st, s, h);
        CreatedLocal(d.st, s.shared, h, s.procs[h]);
        CreatedFromInv(d.st, s, h, CreatedInvite(s.procs[h]).value);
      }
    }
  }

  lemma SendsInvite(l: Local)
    ensures l.SSend? ==> CreatedInvite(l).Some?
  {
  }

  /** The reply soundly reports the effects, for all requests, interleavings and failures: invalid_request
      means no write and no send, internal_error no send, email_dispatch_failed exactly one send attempt
      after a completed Create, success one send after both writes; and at no moment before did the send precede
      them. */
  lemma ReplyReportsEffects(d: Deployment, t: int, es: seq<Event>, h: nat)
    requires h in Run(d, Init(t), es).procs && Run(d, Init(t), es).procs[h].SDone?
    ensures ReplyEffect(d.st, Run(d, Init(t), es).shared, h, Run(d, Init(t), es).procs[h].sendEnd)
    ensures forall n | 0 <= n <= |es| :: CreatedBeforeSent(d.st, Run(d, Init(t), es[..n]), h)
  {
    forall n | 0 <= n <= |es| ensures CreatedBeforeSent(d.st, Run(d, Init(t), es[..n]), h) {
      CreateThenSend(d, t, es[..n], h);
    }
    EndReportsEffects(d, t, es, h);
  }

  lemma EndReportsEffects(d: Deployment, t: int, es: seq<Event>, h: nat)
    requires h in Run(d, Init(t), es).procs && Run(d, Init(t), es).procs[h].SDone?
    ensures ReplyEffect(d.st, Run(d, Init(t), es).shared, h, Run(d, Init(t), es).procs[h].sendEnd)
  {
    hide Run, Init, Inv, SilentIn, CreateCompleted, EndInv, EmailOf, SendsOf;
    var s := Run(d, Init(t), es);
    var e := s.procs[h].sendEnd;
    ReachableInv(d, t, es);
    DoneLocal(d.st, s, h);
    InvSends(d.st, s, h);
    if e.Invalid? {
      UntouchedIsSilent(d.st, s, h);
    }
    if e.NotSent? || e.Sent? {
      EndCreated(d.st, s, h, e);
      RecordIdentity(e.i);
      hide RecordOf;
    }
  }
}
