/** The code-shaped handlers are handlers of the system: the actions a method logs, woven together with
    whatever the others did in between, are a run, so everything proved of runs holds of the code. */
module Refinement {
  import opened Model
  import opened KeyValue
  import opened Protocol
  import opened Lifecycle
  import opened Runs
  import opened Growth
  import opened Theorems
  import opened World
  import Preservation

  /** The events of a handler's logged actions, each preceded by the events of the others. */
  function Woven(h: nat, log: seq<Obs>, others: seq<seq<Event>>): seq<Event>
    requires |log| == |others|
  {
    if log == [] then []
    else
      var n := |log| - 1;
      Woven(h, log[..n], others[..n]) + others[n] + [Step(h, log[n].ch)]
  }

  predicate OfOthers(h: nat, es: seq<Event>) {
    forall i | 0 <= i < |es| :: es[i].Tick? || es[i].h != h
  }

  /** The others' events account for the interference: each action met exactly the shared state they led to. */
  ghost predicate Explains(d: Deployment, s0: Sys, h: nat, log: seq<Obs>, others: seq<seq<Event>>) {
    && |log| == |others|
    && forall i | 0 <= i < |log| ::
         OfOthers(h, others[i]) && MetState(d, s0, h, log[..i], others[..i], others[i]).shared == log[i].before
  }

  function MetState(d: Deployment, s0: Sys, h: nat, log: seq<Obs>, others: seq<seq<Event>>, es: seq<Event>): Sys
    requires |log| == |others|
  {
    Run(d, Run(d, s0, Woven(h, log, others)), es)
  }

  /** Nobody moves another handler. */
  lemma {:induction false} OthersKeepHandler(d: Deployment, s: Sys, h: nat, es: seq<Event>)
    requires h in s.procs && OfOthers(h, es)
    ensures h in Run(d, s, es).procs && Run(d, s, es).procs[h] == s.procs[h]
  {
    if es == [] {
    } else {
      OthersKeepHandler(d, s, h, es[..|es| - 1]);
      hide CanStep, Perform, Resume, Call, Prepare, Unforged;
    }
  }

  /** One logged action is one step of the handler that makes it. */
  lemma ActionIsStep(d: Deployment, s: Sys, h: nat, o: Obs)
    requires h in s.procs && s.shared == o.before && ObsOk(d.st, h, o) && Follows(d.st, At(s.procs[h]), o.op)
    ensures var s2 := Apply(d, s, Step(h, o.ch));
            && h in s2.procs && s2.shared == o.after && At(s2.procs[h]) == Advance(d.st, At(s.procs[h]), o.res)
  {
    hide Perform, Resume, Call, Running, Allowed;
  }

  /** The whole log of a followed program, with the interference explained, is a run of the system that leaves
      the handler where the program stands and the shared state as its last action left it. */
  lemma {:induction false} CodeRunsAreRuns(d: Deployment, s0: Sys, h: nat, log: seq<Obs>, others: seq<seq<Event>>)
    requires h in s0.procs && InStep(d.st, h, At(s0.procs[h]), log) && Explains(d, s0, h, log, others)
    ensures var s := Run(d, s0, Woven(h, log, others));
            && h in s.procs && At(s.procs[h]) == Replayed(d.st, At(s0.procs[h]), log)
            && (log != [] ==> s.shared == log[|log| - 1].after)
  {
    if log == [] {
    } else {
      hide Apply, ObsOk, Follows, Advance;
      var n := |log| - 1;
      var before, o := log[..n], log[n];
      Earlier(d, s0, h, log, others);
      CodeRunsAreRuns(d, s0, h, before, others[..n]);
      var s1 := Run(d, s0, Woven(h, before, others[..n]));
      OthersKeepHandler(d, s1, h, others[n]);
      var s2 := Run(d, s1, others[n]);
      assert ObsOk(d.st, h, o) && Follows(d.st, Replayed(d.st, At(s0.procs[h]), before), o.op);
      ActionIsStep(d, s2, h, o);
      RunSplits(d, s0, Woven(h, before, others[..n]), others[n]);
      RunOneMore(d, s0, Woven(h, before, others[..n]) + others[n], Step(h, o.ch));
    }
  }

  lemma Earlier(d: Deployment, s0: Sys, h: nat, log: seq<Obs>, others: seq<seq<Event>>)
    requires h in s0.procs
    requires log != [] && InStep(d.st, h, At(s0.procs[h]), log) && Explains(d, s0, h, log, others)
    ensures var n := |log| - 1; InStep(d.st, h, At(s0.procs[h]), log[..n]) && Explains(d, s0, h, log[..n], others[..n])
  {
    hide ObsOk, Follows, Advance, Replayed, MetState, OfOthers;
    var n := |log| - 1;
    forall i | 0 <= i < n
      ensures ObsOk(d.st, h, log[..n][i])
      ensures Follows(d.st, Replayed(d.st, At(s0.procs[h]), log[..n][..i]), log[..n][i].op)
      ensures OfOthers(h, others[..n][i])
      ensures MetState(d, s0, h, log[..n][..i], others[..n][..i], others[..n][i]).shared == log[..n][i].before
    {
      assert log[..n][..i] == log[..i] && others[..n][..i] == others[..i];
    }
  }

  lemma RunOneMore(d: Deployment, s: Sys, es: seq<Event>, e: Event)
    ensures Run(d, s, es + [e]) == Apply(d, Run(d, s, es), e)
  {
    hide Apply;
    assert (es + [e])[..|es|] == es;
  }

  // ---------------------------------------------------------------- what this gives the code

  /** A client whose program started as handler me of a reachable state, with all interference explained. */
  ghost predicate Embedded(d: Deployment, t: int, es: seq<Event>, world: Client, others: seq<seq<Event>>)
    reads world
  {
    var s0 := Run(d, Init(t), es);
    && world.Valid() && world.st == d.st && world.me in s0.procs && world.start == At(s0.procs[world.me])
    && Explains(d, s0, world.me, world.log, others)
  }

  function WholeRun(es: seq<Event>, me: nat, log: seq<Obs>, others: seq<seq<Event>>): seq<Event>
    requires |log| == |others|
  {
    es + Woven(me, log, others)
  }

  lemma EmbeddedRun(d: Deployment, t: int, es: seq<Event>, world: Client, others: seq<seq<Event>>)
    requires Embedded(d, t, es, world, others)
    ensures |world.log| == |others|
    ensures var s := Run(d, Init(t), WholeRun(es, world.me, world.log, others));
            world.me in s.procs && world.pc == At(s.procs[world.me])
  {
    hide Run, Init, Woven, BucketOk, InStep, Replayed;
    var s0 := Run(d, Init(t), es);
    CodeRunsAreRuns(d, s0, world.me, world.log, others);
    RunSplits(d, Init(t), es, Woven(world.me, world.log, others));
  }

  /** The code's send reply reports its effects on the bucket everybody shares, and the code's MarkAccepted
      never runs out of attempts among the protocol's own writers. */
  lemma CodeObeysTheorems(d: Deployment, t: int, es: seq<Event>, world: Client, others: seq<seq<Event>>)
    requires Embedded(d, t, es, world, others)
    ensures world.pc.At? && |world.log| == |others|
    ensures world.pc.l.SDone? ==>
              ReplyEffect(d.st, Run(d, Init(t), WholeRun(es, world.me, world.log, others)).shared,
                          world.me, world.pc.l.sendEnd)
    ensures world.pc.l.ADone? && world.pc.l.acceptEnd.Discarded? ==>
              world.pc.l.acceptEnd.reason != Contended
              && SilentIn(Run(d, Init(t), WholeRun(es, world.me, world.log, others)).shared, world.me)
    ensures world.pc.l.ADone? && world.pc.l.acceptEnd.Published? ==>
              world.pc.l.acceptEnd.invite == DomainToAPIInvite(world.pc.l.acceptEnd.wrote)
  {
    hide Run, Init, WholeRun, Embedded, ReplyEffect, SilentIn, DomainToAPIInvite;
    EmbeddedRun(d, t, es, world, others);
    var fs := WholeRun(es, world.me, world.log, others);
    if world.pc.l.SDone? {
      ReplyReportsEffects(d, t, fs, world.me);
    }
    if world.pc.l.ADone? && world.pc.l.acceptEnd.Discarded? {
      RetriesNeverExhausted(d, t, fs, world.me);
      RejectedIsSilent(d, t, fs, world.me);
    }
    if world.pc.l.ADone? && world.pc.l.acceptEnd.Published? {
      PublishedWrote(d, t, fs, world.me);
    }
  }

  /** What a handler published is the view of the record its own MarkAccepted wrote. */
  lemma PublishedWrote(d: Deployment, t: int, es: seq<Event>, h: nat)
    requires h in Run(d, Init(t), es).procs
    requires var l := Run(d, Init(t), es).procs[h]; l.ADone? && l.acceptEnd.Published?
    ensures var e := Run(d, Init(t), es).procs[h].acceptEnd; e.invite == DomainToAPIInvite(e.wrote)
  {
    hide Run, Init, Inv, DomainToAPIInvite;
    ReachableInv(d, t, es);
    Preservation.InvLocal(d.st, Run(d, Init(t), es), h);
    hide EvidenceInv, MarkWritten;
  }
}
