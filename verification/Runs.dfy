/** The invariant holds along every run. */
module Runs {
  import opened Base
  import opened Model
  import opened Auth
  import opened KeyValue
  import opened Protocol
  import opened Lifecycle
  import opened Stability
  import opened Preservation
  import opened SendSteps
  import opened SagaSteps
  import opened AcceptSteps
  import KeySpace

  /** The invariant is kept by whatever action a handler performs, with whatever outcome. */
  lemma StepKeepsInv(st: Settings, s: Sys, h: nat, ch: Choice)
    requires Inv(st, s) && CanStep(st, s, h, ch)
    ensures Inv(st, StepOf(st, s, h, ch))
  {
    CanStepMeans(st, s, h, ch);
    var l := s.procs[h];
    hide *;
    match l
    case SClock(_) => StepClock(st, s, h, ch);
    case SUid(_, _) => StepUid(st, s, h, ch);
    case SSign(_, _, _) => StepSign(st, s, h, ch);
    case SBuild(_, _, _) => StepBuild(st, s, h, ch);
    case SPutRecord(_) => StepPutRecord(st, s, h, ch);
    case SPutIndex(_) => StepPutIndex(st, s, h, ch);
    case SUndo(_) => StepUndo(st, s, h, ch);
    case SSend(_) => StepSend(st, s, h, ch);
    case SDelGet(_) => StepDelGet(st, s, h, ch);
    case SDelRecord(_, _) => StepDelRecord(st, s, h, ch);
    case SDelIndex(_, _) => StepDelIndex(st, s, h, ch);
    case ARead(_) => StepRead(st, s, h, ch);
    case AClock(_, _) => StepAClock(st, s, h, ch);
    case AVerify(_, _, _) => StepAVerify(st, s, h, ch);
    case AMarkGet(_, _) => StepMarkGet(st, s, h, ch);
    case AMarkClock(_, _, _, _) => StepMarkClock(st, s, h, ch);
    case AMarkUpdate(_, _, _, _) => StepUpdate(st, s, h, ch);
    case AReread(_, _) => StepReread(st, s, h, ch);
    case APublish(_, _, _) => StepPublish(st, s, h, ch);
    case _ =>
  }

  lemma CanStepMeans(st: Settings, s: Sys, h: nat, ch: Choice)
    requires CanStep(st, s, h, ch)
    ensures h in s.procs && !s.procs[h].SDone? && !s.procs[h].ADone?
  {
    hide Call, Allowed;
  }

  // ---------------------------------------------------------------- new handlers and time

  predicate Started(l: Local) {
    || l.SClock? || l.ARead?
    || (l.SDone? && l.sendEnd == Invalid(None))
    || (l.ADone? && l.acceptEnd == Discarded(Malformed))
  }

  lemma NotYetSent(sends: seq<Dispatch>, h: nat)
    requires forall i | 0 <= i < |sends| :: sends[i].handler != h
    ensures SendsOf(sends, h) == []
  {
    if sends != [] {
      NotYetSent(sends[..|sends| - 1], h);
    }
  }

  lemma SpawnSends(st: Settings, s: Sys, h: nat, l: Local)
    requires SendsInv(st, s) && h !in s.procs && ExpectedSends(st, l) == []
    ensures SendsInv(st, Moved(s, h, s.shared, l))
  {
    hide ExpectedSends;
    NotYetSent(s.shared.sends, h);
  }

  lemma SpawnPublished(s: Sys, h: nat, l: Local)
    requires PublishedInv(s) && h !in s.procs
    ensures PublishedInv(Moved(s, h, s.shared, l))
  {
  }

  lemma SpawnOwners(s: Sys, h: nat, l: Local)
    requires OwnersInv(s) && h !in s.procs
    ensures OwnersInv(Moved(s, h, s.shared, l))
  {
    OwnersKept(s, h, s.shared, l);
    hide OwnersInv;
  }

  lemma SpawnKeepsInv(st: Settings, s: Sys, h: nat, l: Local)
    requires Inv(st, s) && h !in s.procs && Started(l) && ExpectedSends(st, l) == [] && LocalInv(st, s.shared, h, l)
    ensures Inv(st, Moved(s, h, s.shared, l))
  {
    SameBucketRely(s, h, s.shared);
    hide LocalInv, OwnersInv, KeysInv, TokensInv, SendsInv, PublishedInv, LocalsInv, Grows, BucketOk, ExpectedSends,
      Keeps, Moved, OthersRely;
    SameBucketKeys(s, h, s.shared, l);
    SpawnOwners(s, h, l);
    TokensKept(st, s, h, s.shared, l);
    SpawnSends(st, s, h, l);
    SpawnPublished(s, h, l);
    Assemble(st, s, h, s.shared, l);
  }

  lemma StartSendLocal(d: Deployment, sh: Shared, h: nat, req: SendInviteRequest)
    ensures var l := StartSend(d.cfg, d.parsers, req);
            Started(l) && ExpectedSends(d.st, l) == [] && LocalInv(d.st, sh, h, l)
  {
    hide Prepare;
  }

  lemma StartAcceptLocal(d: Deployment, sh: Shared, h: nat, evt: AcceptedEvent)
    requires Unforged(d.st, sh, evt.token)
    ensures var l := StartAccept(evt);
            Started(l) && ExpectedSends(d.st, l) == [] && LocalInv(d.st, sh, h, l)
  {
    hide Unforged;
  }

  /** The shared state n nanoseconds later. */
  function Later(sh: Shared, n: nat): Shared {
    sh.(clock := sh.clock + n)
  }

  lemma LaterRely(sh: Shared, n: nat, h: nat)
    ensures Grows(sh, Later(sh, n)) && RelyOf(sh, Later(sh, n), h)
    ensures forall u :: NothingAfterTombstone(sh, Later(sh, n), u)
  {
    GrowsReflexive(sh, Later(sh, n));
    hide KeySpace.EmailIndexKey, Hist;
  }

  lemma TickLocals(st: Settings, s: Sys, n: nat)
    requires LocalsInv(st, s)
    ensures LocalsInv(st, Sys(Later(s.shared, n), s.procs))
  {
    hide LocalInv, Later, Grows, RelyOf, UidOf, NothingAfterTombstone;
    forall h | h in s.procs ensures LocalInv(st, Later(s.shared, n), h, s.procs[h]) {
      LaterRely(s.shared, n, h);
      OneLocalKept(st, s.shared, Later(s.shared, n), h, s.procs[h]);
    }
  }

  lemma TickKey(s: Sys, n: nat, k: string)
    requires KeyInv(s.shared, s.procs, k)
    ensures KeyInv(Later(s.shared, n), s.procs, k)
  {
    hide PrimaryLife, IndexLife, MarkedBy, ExpiresAt, AcceptedClaims, KeySpace.EmailIndexKey, Hist;
  }

  lemma TickKeys(s: Sys, n: nat)
    requires KeysInv(s)
    ensures KeysInv(Sys(Later(s.shared, n), s.procs))
  {
    hide KeyInv;
    forall k | k in s.shared.kv.hist ensures KeyInv(Later(s.shared, n), s.procs, k) {
      TickKey(s, n, k);
    }
  }

  lemma TickTokens(st: Settings, s: Sys, n: nat)
    requires TokensInv(st, s)
    ensures TokensInv(st, Sys(Later(s.shared, n), s.procs))
  {
    hide Mint;
    forall t | t in s.shared.tokens ensures TokenInv(st, Later(s.shared, n), t) {
      assert TokenInv(st, s.shared, t);
    }
  }

  lemma TickOwners(s: Sys, n: nat)
    requires OwnersInv(s)
    ensures OwnersInv(Sys(Later(s.shared, n), s.procs))
  {
    hide UidOf;
    forall u | u in s.shared.minted ensures OwnerInv(Later(s.shared, n), s.procs, u) {
      assert OwnerInv(s.shared, s.procs, u);
    }
  }

  lemma TickKeepsInv(st: Settings, s: Sys, n: nat)
    requires Inv(st, s)
    ensures Inv(st, Sys(Later(s.shared, n), s.procs))
  {
    hide OwnersInv, KeysInv, TokensInv, LocalsInv, BucketOk, ExpectedSends, SendsOf;
    TickLocals(st, s, n);
    TickKeys(s, n);
    TickTokens(st, s, n);
    TickOwners(s, n);
  }

  // ---------------------------------------------------------------- every run

  lemma ApplyKeepsInv(d: Deployment, s: Sys, e: Event)
    requires Inv(d.st, s)
    ensures Inv(d.st, Apply(d, s, e))
  {
    hide Inv, LocalInv, Started, ExpectedSends, StartSend, StartAccept, CanStep, StepOf, Unforged;
    match e
    case SpawnSend(h, req) =>
      StartSendLocal(d, s.shared, h, req);
      if h !in s.procs {
        SpawnKeepsInv(d.st, s, h, StartSend(d.cfg, d.parsers, req));
      }
    case SpawnAccept(h, evt) =>
      if h !in s.procs && Unforged(d.st, s.shared, evt.token) {
        StartAcceptLocal(d, s.shared, h, evt);
        SpawnKeepsInv(d.st, s, h, StartAccept(evt));
      }
    case Step(h, ch) =>
      if CanStep(d.st, s, h, ch) {
        StepKeepsInv(d.st, s, h, ch);
      }
    case Tick(n) =>
      TickKeepsInv(d.st, s, n);
  }

  lemma InitInv(st: Settings, t: int)
    ensures Inv(st, Init(t))
  {
  }

  /** Every run, from an empty bucket at any time, keeps the invariant. */
  lemma {:induction false} RunKeepsInv(d: Deployment, s: Sys, es: seq<Event>)
    requires Inv(d.st, s)
    ensures Inv(d.st, Run(d, s, es))
  {
    hide Inv, Apply;
    if es == [] {
    } else {
      RunKeepsInv(d, s, es[..|es| - 1]);
      ApplyKeepsInv(d, Run(d, s, es[..|es| - 1]), es[|es| - 1]);
    }
  }

  lemma ReachableInv(d: Deployment, t: int, es: seq<Event>)
    ensures Inv(d.st, Run(d, Init(t), es))
  {
    hide Inv, Apply, Init;
    InitInv(d.st, t);
    RunKeepsInv(d, Init(t), es);
  }
}
