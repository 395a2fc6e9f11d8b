/** When the fate of a record is settled: until its sender has finished, the record can still be deleted,
    accepted or not; afterwards nobody deletes it. */
module Finality {
  import opened Base
  import opened Model
  import opened KeyValue
  import opened Protocol
  import opened Lifecycle
  import opened Stability
  import opened Preservation
  import opened SagaSteps
  import opened Runs
  import opened Growth
  import opened Theorems
  import opened Completeness
  import opened Refinement
  import opened World
  import KeySpace

  // ---------------------------------------------------------------- what the sender's reply settles

  /** From sh to sh2 handler h has written nothing under k. */
  predicate NoWriteBy(sh: Shared, sh2: Shared, h: nat, k: string) {
    && |Hist(sh.kv, k)| <= |Hist(sh2.kv, k)|
    && forall j | |Hist(sh.kv, k)| <= j < |Hist(sh2.kv, k)| :: Hist(sh2.kv, k)[j].author != h
  }

  lemma NoWriteTransitive(a: Shared, b: Shared, c: Shared, h: nat, k: string)
    requires NoWriteBy(a, b, h, k) && NoWriteBy(b, c, h, k) && Grows(b, c)
    ensures NoWriteBy(a, c, h, k)
  {
    GrowsHist(b, c, k);
    hide Grows;
  }

  lemma OthersWriteAsThemselves(st: Settings, sh: Shared, a: nat, op: Op, ch: Choice, h: nat, k: string)
    requires a != h
    ensures NoWriteBy(sh, Perform(st, sh, a, op, ch).0, h, k)
  {
    hide LastRev, LiveKey, Current;
  }

  lemma FinishedWritesNothing(d: Deployment, s: Sys, e: Event, h: nat, k: string)
    requires h in s.procs && s.procs[h].SDone?
    ensures NoWriteBy(s.shared, Apply(d, s, e).shared, h, k)
    ensures h in Apply(d, s, e).procs && Apply(d, s, e).procs[h] == s.procs[h]
  {
    hide Perform, Call, Resume, Allowed, StartSend, StartAccept, Unforged, NoWriteBy;
    SameNoWrite(s.shared, Apply(d, s, e).shared, h, k);
    match e
    case Step(a, ch) =>
      if CanStep(d.st, s, a, ch) {
        OthersWriteAsThemselves(d.st, s.shared, a, Call(d.st, s.procs[a]), ch, h, k);
      }
    case _ =>
  }

  lemma SameNoWrite(sh: Shared, sh2: Shared, h: nat, k: string)
    ensures sh2.kv == sh.kv ==> NoWriteBy(sh, sh2, h, k)
  {
  }

  /** A finished sender stays finished and writes nothing more. */
  lemma {:induction false} FinishedForGood(d: Deployment, s: Sys, fs: seq<Event>, h: nat, k: string)
    requires Inv(d.st, s) && h in s.procs && s.procs[h].SDone?
    ensures h in Run(d, s, fs).procs && Run(d, s, fs).procs[h] == s.procs[h]
    ensures NoWriteBy(s.shared, Run(d, s, fs).shared, h, k)
  {
    if fs == [] {
    } else {
      hide Inv, Apply, NoWriteBy, Grows, BucketOk;
      var before, e := fs[..|fs| - 1], fs[|fs| - 1];
      FinishedForGood(d, s, before, h, k);
      RunKeepsInv(d, s, before);
      InvBucket(d.st, Run(d, s, before));
      FinishedWritesNothing(d, Run(d, s, before), e, h, k);
      ApplyGrows(d, Run(d, s, before), e);
      NoWriteTransitive(s.shared, Run(d, s, before).shared, Run(d, s, fs).shared, h, k);
    }
  }

  lemma TombstoneByMinter(st: Settings, s: Sys, uid: string)
    requires Inv(st, s) && uid in s.shared.minted && EndsInTombstone(P(s.shared, uid))
    ensures var w := P(s.shared, uid); w[|w| - 1].author == s.shared.minted[uid].handler
  {
    hide Inv, PrimaryLife, MarkedBy, MatchesMint;
    InvKey(st, s, uid);
  }

  /** The reply settles the record's fate: once the sender of an invite has finished, however it ended, nothing
      that happens later deletes the record. */
  lemma ReplySettlesDeletion(d: Deployment, t: int, es: seq<Event>, fs: seq<Event>, uid: string)
    requires uid in Run(d, Init(t), es).shared.minted
    ensures var s := Run(d, Init(t), es);
            var h := s.shared.minted[uid].handler;
            && h in s.procs
            && (s.procs[h].SDone? ==>
                  (EndsInTombstone(P(Run(d, Init(t), es + fs).shared, uid)) <==> EndsInTombstone(P(s.shared, uid))))
  {
    hide Run, Init, Inv, P, EndsInTombstone, Grows, NoWriteBy;
    var s, s2 := Run(d, Init(t), es), Run(d, Init(t), es + fs);
    ReachableInv(d, t, es);
    InvOwner(d.st, s, uid);
    var h := s.shared.minted[uid].handler;
    if s.procs[h].SDone? {
      ReachableInv(d, t, es + fs);
      RunSplits(d, Init(t), es, fs);
      FinishedForGood(d, s, fs, h, uid);
      RunGrows(d, s, fs);
      GrowsMint(s.shared, s2.shared, uid);
      NoResurrection(d, t, es, fs, uid);
      if EndsInTombstone(P(s2.shared, uid)) {
        TombstoneByMinter(d.st, s2, uid);
        TombstoneIsOld(s.shared, s2.shared, h, uid);
      }
    }
  }

  lemma GrowsMint(sh: Shared, sh2: Shared, uid: string)
    requires Grows(sh, sh2) && uid in sh.minted
    ensures uid in sh2.minted && sh2.minted[uid] == sh.minted[uid]
  {
    hide Extends;
  }

  lemma TombstoneIsOld(sh: Shared, sh2: Shared, h: nat, uid: string)
    requires Grows(sh, sh2) && NoWriteBy(sh, sh2, h, uid) && EndsInTombstone(P(sh2, uid))
    requires P(sh2, uid)[|P(sh2, uid)| - 1].author == h
    ensures EndsInTombstone(P(sh, uid))
  {
    GrowsHist(sh, sh2, uid);
    hide Grows;
  }

  // ---------------------------------------------------------------- until the reply the record can go

  /** The e-mail goes out but the call reports an error. */
  const BOUNCED := Choice(NotApplied, "", true, false)

  /** A sender of uid that has the record and has not deleted it. */
  predicate CanUndo(l: Local, uid: string) {
    UidOf(l) == Some(uid) && (l.SPutIndex? || l.SUndo? || l.SSend? || l.SDelGet? || l.SDelRecord?)
  }

  lemma LiveUnderSender(st: Settings, sh: Shared, h: nat, l: Local, uid: string)
    requires LocalInv(st, sh, h, l) && UidOf(l) == Some(uid) && !l.SDone? && LiveKey(sh.kv, uid)
    ensures CanUndo(l, uid)
  {
    hide IssuedInv, NoIndex, Indexed, Unindexed, RecordOf, MintedFor, X;
  }

  /** The choice that takes a sender towards deleting its record: what it must do succeeds, what it could keep the
      invite by fails. */
  function Undoing(l: Local): Choice {
    if l.SPutIndex? || l.SSend? then BOUNCED else FINE
  }

  function StepsToDelete(l: Local): nat {
    match l
    case SSend(_) => 3
    case SPutIndex(_) => 2
    case SDelGet(_) => 2
    case _ => 1
  }

  lemma UndoMoves(d: Deployment, s: Sys, h: nat, uid: string)
    requires h in s.procs && CanUndo(s.procs[h], uid)
    requires s.procs[h].SDelGet? ==> Current(s.shared.kv, uid).Some? && Current(s.shared.kv, uid).value.value.Rec?
    ensures var l, s1 := s.procs[h], Apply(d, s, Step(h, Undoing(s.procs[h])));
            if l.SUndo? || l.SDelRecord? then s1.shared.kv == KvDelete(s.shared.kv, uid, h)
            else h in s1.procs && CanUndo(s1.procs[h], uid) && StepsToDelete(s1.procs[h]) < StepsToDelete(l)
  {
    hide KvDelete, KvPut, Current, EmailOf, KeySpace.EmailIndexKey, RecordOf;
    assert CanStep(d.st, s, h, Undoing(s.procs[h]));
  }

  lemma DeleteEnds(b: Bucket, k: string, h: nat)
    ensures EndsInTombstone(Hist(KvDelete(b, k, h), k))
  {
  }

  lemma ReadBackOwn(st: Settings, s: Sys, h: nat, uid: string)
    requires Inv(st, s) && h in s.procs && s.procs[h].SDelGet? && CanUndo(s.procs[h], uid)
    ensures Current(s.shared.kv, uid).Some? && Current(s.shared.kv, uid).value.value.Rec?
  {
    hide Inv, Alive, IssuedInv, Current, LocalInv, KeyInv;
    InvLocal(st, s, h);
    DelGetPre(st, s.shared, h, s.procs[h].i);
    AliveIsLive(s.shared, s.procs[h].i);
    InvKey(st, s, uid);
    ReadBack(st, s, h, s.procs[h].i);
  }

  /** A sender that still can delete its record has a run in which it does. */
  lemma {:induction false} UndoRun(d: Deployment, s: Sys, h: nat, uid: string) returns (fs: seq<Event>)
    requires Inv(d.st, s) && h in s.procs && CanUndo(s.procs[h], uid)
    ensures EndsInTombstone(P(Run(d, s, fs).shared, uid))
    decreases StepsToDelete(s.procs[h])
  {
    hide Inv, Apply, CanUndo, KvDelete, EndsInTombstone, StepsToDelete, Undoing, Current, P;
    var l := s.procs[h];
    var e := Step(h, Undoing(l));
    var s1 := Apply(d, s, e);
    if l.SDelGet? {
      ReadBackOwn(d.st, s, h, uid);
    }
    UndoMoves(d, s, h, uid);
    RunOneMore(d, s, [], e);
    assert [] + [e] == [e];
    if l.SUndo? || l.SDelRecord? {
      fs := [e];
      DeleteEnds(s.shared.kv, uid, h);
      DeletedUnder(s1.shared, s.shared.kv, uid, h);
    } else {
      ApplyKeepsInv(d, s, e);
      var rest := UndoRun(d, s1, h, uid);
      fs := [e] + rest;
      RunSplits(d, s, [e], rest);
    }
  }

  lemma DeletedUnder(sh: Shared, b: Bucket, uid: string, h: nat)
    requires sh.kv == KvDelete(b, uid, h)
    ensures EndsInTombstone(P(sh, uid))
  {
    hide EndsInTombstone, KvDelete, Hist;
    DeleteEnds(b, uid, h);
  }

  /** Whatever happens after es, the record of uid stays as it is. */
  ghost predicate Permanent(d: Deployment, t: int, es: seq<Event>, uid: string) {
    forall fs: seq<Event> :: P(Run(d, Init(t), es + fs).shared, uid) == P(Run(d, Init(t), es).shared, uid)
  }

  /** An acceptance is permanent exactly when the sender of the invite has finished, so when the caller of the send
      has been answered. Until then it can still be lost, without any KV call failing; after that nobody deletes
      it, whatever the answer was. */
  lemma PermanentIffAnswered(d: Deployment, t: int, es: seq<Event>, uid: string)
    requires uid in Run(d, Init(t), es).shared.minted && EndsAccepted(P(Run(d, Init(t), es).shared, uid))
    ensures var s := Run(d, Init(t), es);
            var h := s.shared.minted[uid].handler;
            h in s.procs && (Permanent(d, t, es, uid) <==> s.procs[h].SDone?)
  {
    hide Run, Init, Inv, P, EndsInTombstone, EndsAccepted, LocalInv, CanUndo, UidOf, LiveKey;
    var s := Run(d, Init(t), es);
    ReachableInv(d, t, es);
    InvOwner(d.st, s, uid);
    var h := s.shared.minted[uid].handler;
    AcceptedIsLive(s.shared, uid);
    if s.procs[h].SDone? {
      forall fs: seq<Event> ensures P(Run(d, Init(t), es + fs).shared, uid) == P(s.shared, uid) {
        ReplySettlesDeletion(d, t, es, fs, uid);
        NoResurrection(d, t, es, fs, uid);
      }
    } else {
      InvLocal(d.st, s, h);
      LiveUnderSender(d.st, s.shared, h, s.procs[h], uid);
      var fs := UndoRun(d, s, h, uid);
      RunSplits(d, Init(t), es, fs);
    }
  }

  lemma AcceptedIsLive(sh: Shared, uid: string)
    requires EndsAccepted(P(sh, uid))
    ensures LiveKey(sh.kv, uid) && !EndsInTombstone(P(sh, uid))
  {
  }

  // ---------------------------------------------------------------- a sent invite stays

  lemma SentHistories(st: Settings, s: Sys, h: nat, i: Issued)
    requires Inv(st, s) && h in s.procs && s.procs[h] == SDone(Sent(i))
    ensures LiveKey(s.shared.kv, i.uid) && LiveKey(s.shared.kv, IndexKeyOf(i)) && SlashFree(i.uid)
    ensures forall j | 0 <= j < |Hist(s.shared.kv, i.uid)| :: Hist(s.shared.kv, i.uid)[j].Put?
    ensures forall j | 0 <= j < |Hist(s.shared.kv, IndexKeyOf(i))| :: Hist(s.shared.kv, IndexKeyOf(i))[j].Put?
  {
    hide Inv, EndInv, LiveKey, IndexKeyOf, RecordOf, IssuedInv, SlashFree, UidOf, Alive, Indexed;
    DoneLocal(st, s, h);
    SentMeans(st, s.shared, h, i);
    IssuedMinted(st, s.shared, h, i);
    InvOwner(st, s, i.uid);
    MintedLife(st, s, i.uid);
    AliveAllPut(s.shared, i);
  }

  lemma PutsOnly(h: seq<Write>, uid: string)
    requires PrimaryLife(h, uid) && h[|h| - 1].Put?
    ensures forall j | 0 <= j < |h| :: h[j].Put?
  {
    hide Accepts, IsPending;
    assert |h| == 2 ==> h[1].Put?;
  }

  lemma SentMeans(st: Settings, sh: Shared, h: nat, i: Issued)
    requires EndInv(st, sh, h, Sent(i))
    ensures IssuedInv(st, sh, h, i) && Alive(sh, i) && Indexed(sh, i) && P(sh, i.uid) != []
  {
    hide IssuedInv, Indexed;
  }

  lemma AliveAllPut(sh: Shared, i: Issued)
    requires Alive(sh, i) && Indexed(sh, i) && PrimaryLife(P(sh, i.uid), i.uid)
    ensures LiveKey(sh.kv, i.uid) && LiveKey(sh.kv, IndexKeyOf(i))
    ensures forall j | 0 <= j < |Hist(sh.kv, i.uid)| :: Hist(sh.kv, i.uid)[j].Put?
    ensures forall j | 0 <= j < |Hist(sh.kv, IndexKeyOf(i))| :: Hist(sh.kv, IndexKeyOf(i))[j].Put?
  {
    hide RecordOf, IndexKeyOf, PrimaryLife;
    PutsOnly(P(sh, i.uid), i.uid);
  }

  lemma PutsSince(b: Bucket, b2: Bucket, k: string)
    requires LiveKey(b, k) && Hist(b, k) <= Hist(b2, k) && forall j | 0 <= j < |Hist(b2, k)| :: Hist(b2, k)[j].Put?
    ensures LiveThroughout(b, b2, k)
  {
    hide LiveKey, Hist;
  }

  /** Success means for good: the record and the index entry of an invite whose send was answered with success are
      never deleted, whatever happens afterwards. */
  lemma SentInviteStays(d: Deployment, t: int, es: seq<Event>, fs: seq<Event>, h: nat, i: Issued)
    requires h in Run(d, Init(t), es).procs && Run(d, Init(t), es).procs[h] == SDone(Sent(i))
    ensures var b, b2 := Run(d, Init(t), es).shared.kv, Run(d, Init(t), es + fs).shared.kv;
            && LiveKey(b, i.uid) && LiveKey(b, IndexKeyOf(i)) && SlashFree(i.uid)
            && LiveThroughout(b, b2, i.uid) && LiveThroughout(b, b2, IndexKeyOf(i))
  {
    hide Run, Init, Inv, LiveKey, IndexKeyOf, RecordOf, SlashFree, Grows, NoWriteBy, LiveThroughout;
    var s, s2 := Run(d, Init(t), es), Run(d, Init(t), es + fs);
    ReachableInv(d, t, es);
    ReachableInv(d, t, es + fs);
    RunSplits(d, Init(t), es, fs);
    FinishedForGood(d, s, fs, h, i.uid);
    RunGrows(d, s, fs);
    SentHistories(d.st, s, h, i);
    SentHistories(d.st, s2, h, i);
    GrowsHist(s.shared, s2.shared, i.uid);
    GrowsHist(s.shared, s2.shared, IndexKeyOf(i));
    PutsSince(s.shared.kv, s2.shared.kv, i.uid);
    PutsSince(s.shared.kv, s2.shared.kv, IndexKeyOf(i));
  }
}
