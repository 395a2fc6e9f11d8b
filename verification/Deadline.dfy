/** Acceptance and expiry: when an expired invite can still be accepted. */
module Deadline {
  import opened Base
  import opened Model
  import opened Auth
  import opened KeyValue
  import opened Protocol
  import opened Lifecycle
  import opened Stability
  import opened Preservation
  import opened SagaSteps
  import opened Runs
  import opened Growth
  import opened Theorems
  import opened Completeness
  import opened Refinement
  import KeySpace

  /** The handler has made its last check on the invite and is about to write the acceptance. */
  predicate AboutToAccept(l: Local, uid: string) {
    l.AMarkUpdate? && l.ev.evt.inviteUID == uid
  }

  ghost predicate SomebodyAboutToAccept(s: Sys, uid: string) {
    exists a :: a in s.procs && AboutToAccept(s.procs[a], uid)
  }

  /** The record has been accepted, whatever happened to it afterwards. */
  predicate WasAccepted(h: seq<Write>) {
    |h| >= 2 && h[1].Put?
  }

  /** A record is stored that has expired and has not been accepted. */
  predicate ExpiredUnaccepted(sh: Shared, uid: string) {
    var h := P(sh, uid);
    h != [] && h[0].Put? && h[0].value.Rec? && h[0].value.record.expiresAt <= sh.clock && !WasAccepted(h)
  }

  /** Expired, and nobody is past the last check. */
  ghost predicate TooLate(s: Sys, uid: string) {
    uid in s.shared.minted && ExpiredUnaccepted(s.shared, uid) && !SomebodyAboutToAccept(s, uid)
  }

  /** Who writes under a stored record's key: a delete of its sender, or a handler about to accept. */
  lemma WritersOfRecord(st: Settings, sh: Shared, h: nat, l: Local, uid: string)
    requires LocalInv(st, sh, h, l) && Running(l) && KeyOf(Call(st, l)) == Some(uid) && P(sh, uid) != []
    requires SlashFree(uid)
    ensures Call(st, l) == Op.Delete(uid) || AboutToAccept(l, uid)
  {
    match l
    case SPutIndex(i) => KeySpace.EmailIndexKeyNotPrimary(i.p.email, i.uid, uid);
    case SDelIndex(i, got) => KeySpace.EmailIndexKeyNotPrimary(got.recipient.email, i.uid, uid);
    case _ =>
    hide IssuedInv, RecordOf, KeySpace.EmailIndexKey, NoIndex, Indexed, EvidenceInv, SlashFree, Written;
  }

  lemma OnlyFromClock(st: Settings, l: Local, r: Res, uid: string)
    requires !AboutToAccept(l, uid)
    ensures AboutToAccept(Resume(st, l, r), uid) ==>
              l.AMarkClock? && r.Time? && r.t < l.got.expiresAt && l.ev.evt.inviteUID == uid
  {
    hide Admits, Written, ClaimsAdmissible, DomainToAPIInvite;
  }

  lemma ClockCheckFails(st: Settings, sh: Shared, h: nat, l: Local, uid: string)
    requires LocalInv(st, sh, h, l) && l.AMarkClock? && l.ev.evt.inviteUID == uid && ExpiredUnaccepted(sh, uid)
    ensures l.got.expiresAt <= sh.clock
  {
    hide Admits, WasAccepted;
  }

  /** A handler gets past the last check only before the record expires. */
  lemma PassesInTime(st: Settings, sh: Shared, h: nat, l: Local, ch: Choice, uid: string)
    requires LocalInv(st, sh, h, l) && Running(l) && ExpiredUnaccepted(sh, uid) && !AboutToAccept(l, uid)
    ensures !AboutToAccept(Resume(st, l, Perform(st, sh, h, Call(st, l), ch).1), uid)
  {
    hide LocalInv, Resume, ExpiredUnaccepted, AboutToAccept, KvPut, KvDelete, LiveKey, Current, LastRev;
    OnlyFromClock(st, l, Perform(st, sh, h, Call(st, l), ch).1, uid);
    if l.AMarkClock? && l.ev.evt.inviteUID == uid {
      ClockCheckFails(st, sh, h, l, uid);
      assert Call(st, l) == Now;
    }
  }

  lemma DeletedOrNot(st: Settings, sh: Shared, h: nat, uid: string, ch: Choice)
    requires ExpiredUnaccepted(sh, uid)
    ensures ExpiredUnaccepted(Perform(st, sh, h, Op.Delete(uid), ch).0, uid)
  {
    hide LiveKey;
  }

  lemma SameRecord(sh: Shared, sh2: Shared, uid: string)
    requires Grows(sh, sh2) && P(sh2, uid) == P(sh, uid) && ExpiredUnaccepted(sh, uid)
    ensures ExpiredUnaccepted(sh2, uid)
  {
    hide Extends;
  }

  lemma LateStep(st: Settings, s: Sys, h: nat, ch: Choice, uid: string)
    requires Inv(st, s) && TooLate(s, uid) && CanStep(st, s, h, ch)
    ensures ExpiredUnaccepted(StepOf(st, s, h, ch).shared, uid)
    ensures !AboutToAccept(StepOf(st, s, h, ch).procs[h], uid)
  {
    hide Inv, LocalInv, Call, Resume, Perform, Running, Allowed, ExpiredUnaccepted, AboutToAccept, Grows, BucketOk,
      KeyOf, Hist, SlashFree;
    InvBucket(st, s);
    InvOwner(st, s, uid);
    InvLocal(st, s, h);
    StepGrows(st, s, h, ch);
    var l := s.procs[h];
    PassesInTime(st, s.shared, h, l, ch, uid);
    if KeyOf(Call(st, l)) == Some(uid) {
      StoredSomething(s.shared, uid);
      WritersOfRecord(st, s.shared, h, l, uid);
      DeletedOrNot(st, s.shared, h, uid, ch);
    } else {
      SameRecord(s.shared, StepOf(st, s, h, ch).shared, uid);
    }
  }

  lemma StoredSomething(sh: Shared, uid: string)
    requires ExpiredUnaccepted(sh, uid)
    ensures P(sh, uid) != []
  {
  }

  lemma LateApply(d: Deployment, s: Sys, e: Event, uid: string)
    requires Inv(d.st, s) && TooLate(s, uid)
    ensures TooLate(Apply(d, s, e), uid)
  {
    hide Inv, StepOf, CanStep, BucketOk, Grows, Prepare, Unforged, Hist;
    InvBucket(d.st, s);
    ApplyGrows(d, s, e);
    GrowsKeepsMinted(s.shared, Apply(d, s, e).shared, uid);
    match e
    case Step(h, ch) =>
      if CanStep(d.st, s, h, ch) {
        LateStep(d.st, s, h, ch, uid);
        StepMovesOne(d.st, s, h, ch);
      }
    case _ =>
  }

  lemma StepMovesOne(st: Settings, s: Sys, h: nat, ch: Choice)
    requires CanStep(st, s, h, ch)
    ensures var s2 := StepOf(st, s, h, ch);
            h in s2.procs && forall a | a in s2.procs && a != h :: a in s.procs && s2.procs[a] == s.procs[a]
  {
    hide Call, Resume, Perform, Running, Allowed;
  }

  lemma {:induction false} LateRun(d: Deployment, s: Sys, fs: seq<Event>, uid: string)
    requires Inv(d.st, s) && TooLate(s, uid)
    ensures TooLate(Run(d, s, fs), uid)
  {
    if fs == [] {
    } else {
      hide Inv, Apply, TooLate;
      LateRun(d, s, fs[..|fs| - 1], uid);
      RunKeepsInv(d, s, fs[..|fs| - 1]);
      LateApply(d, Run(d, s, fs[..|fs| - 1]), fs[|fs| - 1], uid);
    }
  }

  lemma AboutToAcceptCan(d: Deployment, s: Sys, a: nat, uid: string)
    requires Inv(d.st, s) && a in s.procs && AboutToAccept(s.procs[a], uid) && |P(s.shared, uid)| == 1
    ensures WasAccepted(P(Apply(d, s, Step(a, FINE)).shared, uid))
  {
    hide Inv, Written, EvidenceInv;
    InvLocal(d.st, s, a);
    assert LastRev(s.shared.kv, uid) == s.procs[a].rev;
  }

  /** An expired invite must not become accepted, and almost never can: if its record is still pending when it
      expires, some continuation of the run accepts it if and only if a handler has already made its last check and
      is about to write, having read the clock before. */
  lemma LateAcceptanceIff(d: Deployment, t: int, es: seq<Event>, uid: string)
    requires uid in Run(d, Init(t), es).shared.minted && |P(Run(d, Init(t), es).shared, uid)| == 1
    requires ExpiredUnaccepted(Run(d, Init(t), es).shared, uid)
    ensures (exists fs: seq<Event> :: WasAccepted(P(Run(d, Init(t), es + fs).shared, uid)))
            <==> SomebodyAboutToAccept(Run(d, Init(t), es), uid)
  {
    hide Run, Init, Inv, P, AboutToAccept, WasAccepted, Apply;
    var s := Run(d, Init(t), es);
    ReachableInv(d, t, es);
    if SomebodyAboutToAccept(s, uid) {
      var a :| a in s.procs && AboutToAccept(s.procs[a], uid);
      AboutToAcceptCan(d, s, a, uid);
      RunOneMore(d, Init(t), es, Step(a, FINE));
    } else {
      forall fs: seq<Event> ensures !WasAccepted(P(Run(d, Init(t), es + fs).shared, uid)) {
        RunSplits(d, Init(t), es, fs);
        LateRun(d, s, fs, uid);
      }
    }
  }
}
