/** How long an acceptance lasts: exactly until the invite's own sender rolls it back, which it does when an
    e-mail that was delivered is reported failed. */
module Rollback {
  import opened Base
  import opened Model
  import opened Auth
  import opened KeyValue
  import opened Protocol
  import opened Lifecycle
  import opened Stability
  import opened Preservation
  import opened Runs
  import opened Growth
  import opened Theorems
  import opened Completeness
  import opened Refinement
  import opened Finality
  import Settled
  import KeySpace

  // ---------------------------------------------------------------- exactly when a record is deleted

  lemma RolledBackIsDeleted(st: Settings, sh: Shared, h: nat, l: Local, uid: string)
    requires LocalInv(st, sh, h, l) && UidOf(l) == Some(uid) && RolledBack(l)
    ensures EndsInTombstone(P(sh, uid))
  {
    hide IssuedInv, NoIndex, Indexed, Unindexed, RecordOf, X, Alive;
  }

  /** What its sender knows of the rollback is true: a record whose delete was acknowledged is gone, and, unless
      a call of the sender took effect although it reported an error, no other record is. */
  lemma DeletedIffRolledBack(d: Deployment, t: int, es: seq<Event>, uid: string)
    requires uid in Run(d, Init(t), es).shared.minted
    ensures var s := Run(d, Init(t), es);
            var h := s.shared.minted[uid].handler;
            && h in s.procs
            && (RolledBack(s.procs[h]) ==> EndsInTombstone(P(s.shared, uid)))
            && (h !in s.shared.ambiguous ==> (EndsInTombstone(P(s.shared, uid)) <==> RolledBack(s.procs[h])))
  {
    hide Run, Init, Inv, P, EndsInTombstone, LocalInv, UidOf, RolledBack;
    var s := Run(d, Init(t), es);
    ReachableInv(d, t, es);
    InvOwner(d.st, s, uid);
    var h := s.shared.minted[uid].handler;
    InvLocal(d.st, s, h);
    if EndsInTombstone(P(s.shared, uid)) {
      TombstoneOwner(d.st, s.shared, h, s.procs[h], uid);
    }
    if RolledBack(s.procs[h]) {
      RolledBackIsDeleted(d.st, s.shared, h, s.procs[h], uid);
    }
  }

  /** An acceptance lasts, record and all, as long as its sender has not asked for the record to be deleted, and,
      unless a call of the sender took effect although it reported an error, exactly until that delete is
      acknowledged. */
  lemma AcceptanceLastsUntilRollback(d: Deployment, t: int, es: seq<Event>, fs: seq<Event>, uid: string)
    requires uid in Run(d, Init(t), es).shared.minted && EndsAccepted(P(Run(d, Init(t), es).shared, uid))
    ensures var s, s2 := Run(d, Init(t), es), Run(d, Init(t), es + fs);
            && uid in s2.shared.minted && s2.shared.minted[uid].handler in s2.procs
            && var h := s2.shared.minted[uid].handler;
            && (!RollbackTried(s2.procs[h]) ==> P(s2.shared, uid) == P(s.shared, uid))
            && (h !in s2.shared.ambiguous && !RolledBack(s2.procs[h]) ==> P(s2.shared, uid) == P(s.shared, uid))
            && (RolledBack(s2.procs[h]) ==> EndsInTombstone(P(s2.shared, uid)))
  {
    hide Run, Init, Inv, P, EndsInTombstone, EndsAccepted, RolledBack, RollbackTried, Grows;
    var s, s2 := Run(d, Init(t), es), Run(d, Init(t), es + fs);
    ReachableInv(d, t, es);
    RunSplits(d, Init(t), es, fs);
    RunGrows(d, s, fs);
    GrowsKeepsMinted(s.shared, s2.shared, uid);
    NoResurrection(d, t, es, fs, uid);
    DeletedIffRolledBack(d, t, es + fs, uid);
    if EndsInTombstone(P(s2.shared, uid)) {
      OnlyOwnRollbackDeletes(d, t, es + fs, uid);
    }
  }

  // ---------------------------------------------------------------- a delivered e-mail that is reported failed

  function Minting(uid: string): Choice {
    Choice(NoFault, uid, true, false)
  }

  /** Handler h sends the invite; the e-mail is delivered and reported failed. */
  function BouncedSend(h: nat, req: SendInviteRequest, uid: string): seq<Event> {
    [SpawnSend(h, req), Step(h, FINE), Step(h, Minting(uid)), Step(h, FINE), Step(h, FINE),
     Step(h, FINE), Step(h, FINE), Step(h, BOUNCED)]
  }

  function RollingBack(h: nat): seq<Event> {
    [Step(h, FINE), Step(h, FINE), Step(h, FINE)]
  }

  const NO_PAUSES: seq<nat> := [0, 0, 0, 0, 0, 0, 0, 0]

  /** h stands at l; time, publications and fault reports are as in s0. */
  predicate Stage(s0: Sys, s: Sys, h: nat, l: Local) {
    && h in s.procs && s.procs == s0.procs[h := l]
    && s.shared.clock == s0.shared.clock && s.shared.published == s0.shared.published
    && s.shared.faulty == s0.shared.faulty
  }

  lemma StageStep(d: Deployment, s0: Sys, s: Sys, h: nat, l: Local, ch: Choice, res: Res, l2: Local)
    requires Stage(s0, s, h, l) && Running(l) && Allowed(s.shared, Call(d.st, l), ch) && !Call(d.st, l).Publish?
    requires ch.fault.NoFault? || Call(d.st, l).Send?
    requires Perform(d.st, s.shared, h, Call(d.st, l), ch).1 == res && Resume(d.st, l, res) == l2
    ensures Stage(s0, Apply(d, s, Step(h, ch)), h, l2)
  {
    hide Call, Resume, Running, Allowed, KvPut, KvDelete, Current, LiveKey, LastRev;
  }

  lemma StageSpawn(d: Deployment, s: Sys, h: nat, req: SendInviteRequest, p: Prepared)
    requires h !in s.procs && Prepare(d.cfg, d.parsers, req) == Some(p)
    ensures Stage(s, Apply(d, s, SpawnSend(h, req)), h, SClock(p))
    ensures Apply(d, s, SpawnSend(h, req)).shared == s.shared
  {
    hide Prepare;
  }

  lemma StageClock(d: Deployment, s0: Sys, s: Sys, h: nat, p: Prepared)
    requires Stage(s0, s, h, SClock(p))
    ensures Stage(s0, Apply(d, s, Step(h, FINE)), h, SUid(p, s0.shared.clock))
    ensures Apply(d, s, Step(h, FINE)).shared == s.shared
  {
    StageStep(d, s0, s, h, SClock(p), FINE, Time(s0.shared.clock), SUid(p, s0.shared.clock));
    hide Stage;
  }

  lemma StageUid(d: Deployment, s0: Sys, s: Sys, h: nat, p: Prepared, at: int, uid: string)
    requires Stage(s0, s, h, SUid(p, at)) && FreshUid(s.shared, uid) && ClaimsAdmissible(p.req.customClaims)
    ensures Stage(s0, Apply(d, s, Step(h, Minting(uid))), h, SSign(p, uid, at))
  {
    hide FreshUid, ClaimsAdmissible, LinkPayloadOf;
    StageStep(d, s0, s, h, SUid(p, at), Minting(uid), Uid(uid), SSign(p, uid, at));
  }

  lemma StageSign(d: Deployment, s0: Sys, s: Sys, h: nat, p: Prepared, at: int, uid: string)
    requires Stage(s0, s, h, SSign(p, uid, at))
    ensures Stage(s0, Apply(d, s, Step(h, FINE)), h, SBuild(p, uid, at))
  {
    hide MintedClaims, LinkPayloadOf;
    StageStep(d, s0, s, h, SSign(p, uid, at), FINE,
              Signed(Some(Token(d.st.secret, MintedClaims(LinkPayloadOf(p), uid, at)))), SBuild(p, uid, at));
  }

  lemma StageBuild(d: Deployment, s0: Sys, s: Sys, h: nat, p: Prepared, at: int, uid: string)
    requires Stage(s0, s, h, SBuild(p, uid, at))
    ensures Stage(s0, Apply(d, s, Step(h, FINE)), h, SPutRecord(Issued(p, uid, at, s0.shared.clock)))
  {
    StageStep(d, s0, s, h, SBuild(p, uid, at), FINE, Time(s0.shared.clock),
              SPutRecord(Issued(p, uid, at, s0.shared.clock)));
  }

  lemma StagePut(d: Deployment, s0: Sys, s: Sys, h: nat, i: Issued)
    requires Inv(d.st, s) && Stage(s0, s, h, SPutRecord(i))
    ensures Stage(s0, Apply(d, s, Step(h, FINE)), h, SPutIndex(i)) && |P(Apply(d, s, Step(h, FINE)).shared, i.uid)| == 1
  {
    hide Inv, RecordOf, KvPut, LocalInv;
    StageStep(d, s0, s, h, SPutRecord(i), FINE, PutDone(true), SPutIndex(i));
    InvLocal(d.st, s, h);
    NothingPut(d.st, s.shared, h, i);
    PutLength(s.shared.kv, i.uid, Rec(RecordOf(i)), h);
    FirstPut(d, s, h, i);
  }

  lemma FirstPut(d: Deployment, s: Sys, h: nat, i: Issued)
    requires h in s.procs && s.procs[h] == SPutRecord(i)
    ensures Apply(d, s, Step(h, FINE)).shared.kv == KvPut(s.shared.kv, i.uid, Rec(RecordOf(i)), h)
  {
    hide RecordOf, KvPut;
  }

  lemma NothingPut(st: Settings, sh: Shared, h: nat, i: Issued)
    requires LocalInv(st, sh, h, SPutRecord(i))
    ensures Hist(sh.kv, i.uid) == []
  {
    hide IssuedInv, NoIndex, Hist;
  }

  lemma PutLength(b: Bucket, k: string, v: Value, h: nat)
    ensures |Hist(KvPut(b, k, v, h), k)| == |Hist(b, k)| + 1
  {
  }

  /** A step that writes another key, or none, leaves the record's history alone. */
  lemma RecordUntouched(d: Deployment, s: Sys, h: nat, ch: Choice, uid: string)
    requires Inv(d.st, s) && CanStep(d.st, s, h, ch) && KeyOf(Call(d.st, s.procs[h])) != Some(uid)
    ensures P(Apply(d, s, Step(h, ch)).shared, uid) == P(s.shared, uid)
  {
    hide Inv, CanStep, StepOf, Hist, KeyOf, Call, BucketOk, Grows;
    InvBucket(d.st, s);
    StepGrows(d.st, s, h, ch);
  }

  lemma StageIndex(d: Deployment, s0: Sys, s: Sys, h: nat, i: Issued)
    requires Inv(d.st, s) && Stage(s0, s, h, SPutIndex(i)) && |P(s.shared, i.uid)| == 1 && SlashFree(i.uid)
    ensures Stage(s0, Apply(d, s, Step(h, FINE)), h, SSend(i)) && |P(Apply(d, s, Step(h, FINE)).shared, i.uid)| == 1
  {
    hide Inv, KvPut, KeySpace.EmailIndexKey, P, SlashFree;
    StageStep(d, s0, s, h, SPutIndex(i), FINE, PutDone(true), SSend(i));
    KeySpace.EmailIndexKeyNotPrimary(i.p.email, i.uid, i.uid);
    RecordUntouched(d, s, h, FINE, i.uid);
  }

  lemma StageBounce(d: Deployment, s0: Sys, s: Sys, h: nat, i: Issued)
    requires Inv(d.st, s) && Stage(s0, s, h, SSend(i)) && |P(s.shared, i.uid)| == 1
    ensures var s2 := Apply(d, s, Step(h, BOUNCED));
            && Stage(s0, s2, h, SDelGet(i)) && |P(s2.shared, i.uid)| == 1
            && s2.shared.sends == s.shared.sends + [Dispatch(h, EmailOf(d.st, i), true)]
  {
    hide Inv, EmailOf, P;
    StageStep(d, s0, s, h, SSend(i), BOUNCED, SendDone(false), SDelGet(i));
    RecordUntouched(d, s, h, BOUNCED, i.uid);
  }

  lemma RunEight(d: Deployment, s: Sys, es: seq<Event>)
    requires |es| == 8
    ensures Run(d, s, es) ==
            var s4 := Apply(d, Apply(d, Apply(d, Apply(d, s, es[0]), es[1]), es[2]), es[3]);
            Apply(d, Apply(d, Apply(d, Apply(d, s4, es[4]), es[5]), es[6]), es[7])
  {
    hide Apply;
    assert es[..7][..6] == es[..6] && es[..6][..5] == es[..5] && es[..5][..4] == es[..4];
    assert es[..4][..3] == es[..3] && es[..3][..2] == es[..2] && es[..2][..1] == es[..1] && es[..1][..0] == [];
    assert Run(d, s, es[..1]) == Apply(d, s, es[0]);
    assert Run(d, s, es[..2]) == Apply(d, Run(d, s, es[..1]), es[1]);
    assert Run(d, s, es[..3]) == Apply(d, Run(d, s, es[..2]), es[2]);
    assert Run(d, s, es[..4]) == Apply(d, Run(d, s, es[..3]), es[3]);
    assert Run(d, s, es[..5]) == Apply(d, Run(d, s, es[..4]), es[4]);
    assert Run(d, s, es[..6]) == Apply(d, Run(d, s, es[..5]), es[5]);
    assert Run(d, s, es[..7]) == Apply(d, Run(d, s, es[..6]), es[6]);
  }

  /** From every reachable state and for every valid request, the bounced send leads to a sender about to
      roll back an invite that is still pending. */
  lemma BouncedSendWaits(d: Deployment, s: Sys, h: nat, req: SendInviteRequest, p: Prepared, uid: string)
    requires Inv(d.st, s) && h !in s.procs && FreshUid(s.shared, uid)
    requires Prepare(d.cfg, d.parsers, req) == Some(p) && ClaimsAdmissible(p.req.customClaims)
    ensures var s2 := Run(d, s, BouncedSend(h, req, uid));
            var i := Issued(p, uid, s.shared.clock, s.shared.clock);
            && Stage(s, s2, h, SDelGet(i)) && NotYetAccepted(s2.shared, i)
            && s2.shared.sends != [] && s2.shared.sends[|s2.shared.sends| - 1] == Dispatch(h, EmailOf(d.st, i), true)
  {
    hide Inv, Apply, Run, Prepare, ClaimsAdmissible, FreshUid, Stage, EmailOf, P, SlashFree, Minting;
    var c := s.shared.clock;
    var i := Issued(p, uid, c, c);
    RunEight(d, s, BouncedSend(h, req, uid));
    var s1 := Apply(d, s, SpawnSend(h, req));
    StageSpawn(d, s, h, req, p);
    ApplyKeepsInv(d, s, SpawnSend(h, req));
    var s2 := Apply(d, s1, Step(h, FINE));
    StageClock(d, s, s1, h, p);
    ApplyKeepsInv(d, s1, Step(h, FINE));
    var s3 := Apply(d, s2, Step(h, Minting(uid)));
    StageUid(d, s, s2, h, p, c, uid);
    ApplyKeepsInv(d, s2, Step(h, Minting(uid)));
    var s4 := Apply(d, s3, Step(h, FINE));
    StageSign(d, s, s3, h, p, c, uid);
    ApplyKeepsInv(d, s3, Step(h, FINE));
    var s5 := Apply(d, s4, Step(h, FINE));
    StageBuild(d, s, s4, h, p, c, uid);
    ApplyKeepsInv(d, s4, Step(h, FINE));
    var s6 := Apply(d, s5, Step(h, FINE));
    StagePut(d, s, s5, h, i);
    ApplyKeepsInv(d, s5, Step(h, FINE));
    var s7 := Apply(d, s6, Step(h, FINE));
    FreshIsPlain(s.shared, uid);
    StageIndex(d, s, s6, h, i);
    ApplyKeepsInv(d, s6, Step(h, FINE));
    StageBounce(d, s, s7, h, i);
  }

  lemma FreshIsPlain(sh: Shared, uid: string)
    requires FreshUid(sh, uid)
    ensures SlashFree(uid)
  {
  }

  // ---------------------------------------------------------------- the rollback afterwards

  lemma {:induction false} StepsOfOther(h: nat, a: nat, ticks: seq<nat>)
    requires a != h
    ensures OfOthers(h, Steps(a, ticks))
  {
    if ticks != [] {
      StepsOfOther(h, a, ticks[..|ticks| - 1]);
    }
  }

  lemma AttemptOfOther(h: nat, a: nat, evt: AcceptedEvent, ticks: seq<nat>)
    requires a != h
    ensures OfOthers(h, Attempt(a, evt, ticks))
  {
    hide Steps;
    StepsOfOther(h, a, ticks);
  }

  lemma OthersBlameThemselves(d: Deployment, s: Sys, h: nat, e: Event)
    requires h !in s.shared.faulty && (e.Tick? || e.h != h)
    ensures h !in Apply(d, s, e).shared.faulty
  {
    hide Call, Resume, CanStep, KvPut, KvDelete, LiveKey, Current, LastRev, StartSend, StartAccept, Unforged;
  }

  lemma {:induction false} OthersNeverBlame(d: Deployment, s: Sys, h: nat, es: seq<Event>)
    requires h !in s.shared.faulty && OfOthers(h, es)
    ensures h !in Run(d, s, es).shared.faulty
  {
    if es != [] {
      hide Apply;
      OthersNeverBlame(d, s, h, es[..|es| - 1]);
      OthersBlameThemselves(d, Run(d, s, es[..|es| - 1]), h, es[|es| - 1]);
    }
  }

  lemma BlameIsForStarted(d: Deployment, s: Sys, h: nat, e: Event)
    requires h in s.shared.faulty ==> h in s.procs
    ensures h in Apply(d, s, e).shared.faulty ==> h in Apply(d, s, e).procs
  {
    hide Call, Resume, Allowed, Running, KvPut, KvDelete, LiveKey, Current, LastRev, StartSend, StartAccept, Unforged;
  }

  /** A handler that has not started has seen no fault. */
  lemma {:induction false} OnlyStartedBlamed(d: Deployment, t: int, es: seq<Event>, h: nat)
    ensures h in Run(d, Init(t), es).shared.faulty ==> h in Run(d, Init(t), es).procs
  {
    if es == [] {
    } else {
      hide Apply, Init;
      OnlyStartedBlamed(d, t, es[..|es| - 1], h);
      BlameIsForStarted(d, Run(d, Init(t), es[..|es| - 1]), h, es[|es| - 1]);
    }
  }

  lemma RunThree(d: Deployment, s: Sys, es: seq<Event>)
    requires |es| == 3
    ensures Run(d, s, es) == Apply(d, Apply(d, Apply(d, s, es[0]), es[1]), es[2])
  {
    hide Apply;
    assert es[..2][..1] == es[..1] && es[..1][..0] == [];
    assert Run(d, s, es[..1]) == Apply(d, s, es[0]);
    assert Run(d, s, es[..2]) == Apply(d, Run(d, s, es[..1]), es[1]);
  }

  lemma RollbackFinishes(d: Deployment, s: Sys, h: nat, i: Issued, rec: InviteRecord, rev: nat)
    requires h in s.procs && s.procs[h] == SDelGet(i) && Current(s.shared.kv, i.uid) == Some(Entry(Rec(rec), rev))
    ensures Stage(s, Run(d, s, RollingBack(h)), h, SDone(NotSent(i, RecordDeleted(Deleted))))
  {
    hide Current, LiveKey, KvDelete, Stage, Run, KeySpace.EmailIndexKey;
    RunThree(d, s, RollingBack(h));
    StageHere(s, h);
    RollbackReads(d, s, h, i, rec, rev);
    var s1 := Apply(d, s, Step(h, FINE));
    RollbackDeletes(d, s, s1, h, i, rec);
    var s2 := Apply(d, s1, Step(h, FINE));
    RollbackUnindexes(d, s, s2, h, i, rec);
  }

  lemma StageHere(s: Sys, h: nat)
    requires h in s.procs
    ensures Stage(s, s, h, s.procs[h])
  {
    assert s.procs == s.procs[h := s.procs[h]];
  }

  lemma RollbackReads(d: Deployment, s: Sys, h: nat, i: Issued, rec: InviteRecord, rev: nat)
    requires Stage(s, s, h, SDelGet(i)) && Current(s.shared.kv, i.uid) == Some(Entry(Rec(rec), rev))
    ensures Stage(s, Apply(d, s, Step(h, FINE)), h, SDelRecord(i, rec))
  {
    hide Current;
    StageStep(d, s, s, h, SDelGet(i), FINE, Got(Found(Entry(Rec(rec), rev))), SDelRecord(i, rec));
  }

  lemma RollbackDeletes(d: Deployment, s0: Sys, s: Sys, h: nat, i: Issued, rec: InviteRecord)
    requires Stage(s0, s, h, SDelRecord(i, rec))
    ensures Stage(s0, Apply(d, s, Step(h, FINE)), h, SDelIndex(i, rec))
  {
    hide KvDelete;
    StageStep(d, s0, s, h, SDelRecord(i, rec), FINE, DeleteDone(Deleted), SDelIndex(i, rec));
  }

  lemma RollbackUnindexes(d: Deployment, s0: Sys, s: Sys, h: nat, i: Issued, rec: InviteRecord)
    requires Stage(s0, s, h, SDelIndex(i, rec))
    ensures Stage(s0, Apply(d, s, Step(h, FINE)), h, SDone(NotSent(i, RecordDeleted(Deleted))))
  {
    hide KvDelete, KeySpace.EmailIndexKey;
    StageStep(d, s0, s, h, SDelIndex(i, rec), FINE, DeleteDone(Deleted), SDone(NotSent(i, RecordDeleted(Deleted))));
  }

  // ---------------------------------------------------------------- acceptance is not permanent

  /** A delivered e-mail reported failed, an acceptance, and the rollback. */
  function Scenario(d: Deployment, h: nat, a: nat, req: SendInviteRequest, uid: string, evt: AcceptedEvent): seq<Event>
  {
    BouncedSend(h, req, uid) + Attempt(a, evt, NO_PAUSES) + RollingBack(h)
  }

  /** Both parties have been told the opposite: the acceptance has been published, the caller of the send is
      told the e-mail failed, and the record is gone. */
  predicate AcceptedAndGone(s: Sys, h: nat, a: nat, i: Issued) {
    && h in s.procs && s.procs[h] == SDone(NotSent(i, RecordDeleted(Deleted))) && h !in s.shared.faulty
    && !LiveKey(s.shared.kv, i.uid)
    && exists k :: 0 <= k < |s.shared.published| && PublishedBy(s.shared.published[k], a, i.uid)
  }

  predicate PublishedBy(p: Publication, a: nat, uid: string) {
    p.handler == a && p.invite.uid == uid && p.invite.status == ApiAccepted
  }

  lemma WroteView(s: Sys, s2: Sys, a: nat, i: Issued, username: string)
    requires AcceptedBy(s, s2, a, i, username)
    ensures Current(s2.shared.kv, i.uid).Some?
    ensures s2.shared.published != [] && PublishedBy(s2.shared.published[|s2.shared.published| - 1], a, RecordOf(i).uid)
    ensures exists rec, rev :: Current(s2.shared.kv, i.uid) == Some(Entry(Rec(rec), rev))
  {
    hide RecordOf, Current;
    var e := Current(s2.shared.kv, i.uid).value;
    assert Current(s2.shared.kv, i.uid) == Some(Entry(Rec(e.value.record), e.rev));
  }

  lemma GoneAfterRollback(st: Settings, s: Sys, h: nat, i: Issued)
    requires Inv(st, s) && h in s.procs && s.procs[h] == SDone(NotSent(i, RecordDeleted(Deleted)))
    ensures !LiveKey(s.shared.kv, i.uid)
  {
    hide Inv, EndInv;
    DoneLocal(st, s, h);
    Settled.ResidueFromEnd(st, s.shared, h, NotSent(i, RecordDeleted(Deleted)));
  }

  lemma SumOfNothing()
    ensures |NO_PAUSES| == 8 && Sum(NO_PAUSES) == 0
  {
    EightSum(NO_PAUSES);
  }

  lemma ExpiryAhead(i: Issued)
    ensures i.mintedAt < RecordOf(i).expiresAt
  {
    TTLExact(i.p.req.expirationDays);
    hide TTL, AcceptedClaims;
  }

  /** Acceptance is not permanent. From every reachable state and for every valid request there is a run in
      which the invite is accepted and the acceptance published, and the record is then deleted, although
      no KV call fails: the e-mail is delivered but reported failed, and the recipient is faster than the
      rollback. */
  lemma AcceptedInviteCanBeRolledBack(d: Deployment, t: int, es: seq<Event>, h: nat, a: nat, req: SendInviteRequest,
                                      p: Prepared, uid: string, evt: AcceptedEvent)
    requires var s := Run(d, Init(t), es); h !in s.procs && a !in s.procs && a != h && FreshUid(s.shared, uid)
    requires Prepare(d.cfg, d.parsers, req) == Some(p) && ClaimsAdmissible(p.req.customClaims)
    requires var c := Run(d, Init(t), es).shared.clock; Admissible(d.st, Issued(p, uid, c, c), evt)
    ensures var c := Run(d, Init(t), es).shared.clock;
            AcceptedAndGone(Run(d, Init(t), es + Scenario(d, h, a, req, uid, evt)), h, a, Issued(p, uid, c, c))
  {
    hide *;
    var s := Run(d, Init(t), es);
    var c := s.shared.clock;
    var i := Issued(p, uid, c, c);
    var send, attempt, undo := BouncedSend(h, req, uid), Attempt(a, evt, NO_PAUSES), RollingBack(h);
    ReachableInv(d, t, es);
    OnlyStartedBlamed(d, t, es, h);
    BouncedSendWaits(d, s, h, req, p, uid);
    RunSplits(d, Init(t), es, send);
    var s1 := Run(d, Init(t), es + send);
    StageMeans(s, s1, h, a, i);
    SumOfNothing();
    ExpiryAhead(i);
    SentInvitesCanBeAccepted(d, t, es + send, h, i, a, evt, NO_PAUSES);
    RunSplits(d, Init(t), es + send, attempt);
    var s2 := Run(d, Init(t), es + send + attempt);
    AttemptOfOther(h, a, evt, NO_PAUSES);
    OthersKeepHandler(d, s1, h, attempt);
    OthersNeverBlame(d, s1, h, attempt);
    WroteView(s1, s2, a, i, evt.username);
    var rec, rev :| Current(s2.shared.kv, i.uid) == Some(Entry(Rec(rec), rev));
    RollbackFinishes(d, s2, h, i, rec, rev);
    RunSplits(d, Init(t), es + send + attempt, undo);
    ReachableInv(d, t, es + send + attempt + undo);
    var s3 := Run(d, Init(t), es + send + attempt + undo);
    RolledBackState(d.st, s2, s3, h, a, i);
    ScenarioIs(d, es, h, a, req, uid, evt);
  }

  lemma ScenarioIs(d: Deployment, es: seq<Event>, h: nat, a: nat, req: SendInviteRequest, uid: string,
                   evt: AcceptedEvent)
    ensures es + Scenario(d, h, a, req, uid, evt) ==
            es + BouncedSend(h, req, uid) + Attempt(a, evt, NO_PAUSES) + RollingBack(h)
  {
    hide BouncedSend, Attempt, RollingBack;
  }

  lemma StageMeans(s: Sys, s1: Sys, h: nat, a: nat, i: Issued)
    requires Stage(s, s1, h, SDelGet(i)) && a != h && a !in s.procs && h !in s.shared.faulty
    requires i.mintedAt == s.shared.clock
    ensures h in s1.procs && s1.procs[h] == SDelGet(i) && Outstanding(s1.procs[h], i) && a !in s1.procs
    ensures h !in s1.shared.faulty
    ensures s1.shared.clock == i.mintedAt
  {
  }

  lemma RolledBackState(st: Settings, s2: Sys, s3: Sys, h: nat, a: nat, i: Issued)
    requires Inv(st, s3) && Stage(s2, s3, h, SDone(NotSent(i, RecordDeleted(Deleted)))) && h !in s2.shared.faulty
    requires s2.shared.published != []
    requires PublishedBy(s2.shared.published[|s2.shared.published| - 1], a, RecordOf(i).uid)
    ensures AcceptedAndGone(s3, h, a, i)
  {
    hide Inv, LiveKey, PublishedBy, RecordOf;
    GoneAfterRollback(st, s3, h, i);
    RecordIdentity(i);
  }
}
