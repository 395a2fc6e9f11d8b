/** Runs as a whole: what any number of further events can and cannot change. */
module Growth {
  import opened Base
  import opened KeyValue
  import opened Protocol
  import opened Lifecycle
  import opened Stability
  import opened Runs

  lemma GrowsTransitive(a: Shared, b: Shared, c: Shared)
    requires Grows(a, b) && Grows(b, c)
    ensures Grows(a, c)
  {
    hide Extends;
    ExtendsTransitive(a.kv, b.kv, c.kv);
  }

  lemma WriteGrows(sh: Shared, h: nat, f: Fault, k: string, w: Write)
    requires BucketOk(sh.kv) && w.rev == sh.kv.last + 1
    ensures var sh2 := WriteEffect(sh, h, f, Append(sh.kv, k, w));
            Grows(sh, sh2) && BucketOk(sh2.kv) && forall k2 | k2 != k :: Hist(sh2.kv, k2) == Hist(sh.kv, k2)
  {
    hide BucketOk, Hist, Extends, Append;
    AppendGrows(sh.kv, k, w);
    ExtendsReflexive(sh.kv);
  }

  lemma ExtendsReflexive(b: Bucket)
    ensures Extends(b, b)
  {
  }

  /** Which key an action can write. */
  function KeyOf(op: Op): Option<string> {
    match op
    case PutOp(k, _) => Some(k)
    case Update(k, _, _) => Some(k)
    case Delete(k) => Some(k)
    case _ => None
  }

  /** Every action of every handler, whatever its outcome, only adds to the shared state, keeps revisions
      strictly increasing per key, and writes no key but the one it names. */
  lemma PerformGrows(st: Settings, sh: Shared, h: nat, op: Op, ch: Choice)
    requires BucketOk(sh.kv) && Allowed(sh, op, ch)
    ensures var sh2 := Perform(st, sh, h, op, ch).0;
            && Grows(sh, sh2) && BucketOk(sh2.kv)
            && forall k | KeyOf(op) != Some(k) :: Hist(sh2.kv, k) == Hist(sh.kv, k)
  {
    hide BucketOk, Hist, Append, WriteEffect, LastRev, LiveKey, Current, Extends;
    ExtendsReflexive(sh.kv);
    match op
    case PutOp(k, v) => WriteGrows(sh, h, ch.fault, k, Put(sh.kv.last + 1, v, h));
    case Update(k, v, _) => WriteGrows(sh, h, ch.fault, k, Put(sh.kv.last + 1, v, h));
    case Delete(k) => WriteGrows(sh, h, ch.fault, k, Tombstone(sh.kv.last + 1, h));
    case _ =>
  }

  lemma StepGrows(st: Settings, s: Sys, h: nat, ch: Choice)
    requires BucketOk(s.shared.kv) && CanStep(st, s, h, ch)
    ensures Grows(s.shared, StepOf(st, s, h, ch).shared)
    ensures forall k | KeyOf(Call(st, s.procs[h])) != Some(k) ::
        Hist(StepOf(st, s, h, ch).shared.kv, k) == Hist(s.shared.kv, k)
  {
    hide Perform, BucketOk, Grows, Hist, Call, Resume, KeyOf;
    PerformGrows(st, s.shared, h, Call(st, s.procs[h]), ch);
  }

  lemma SameGrows(sh: Shared)
    ensures Grows(sh, sh)
  {
    ExtendsReflexive(sh.kv);
  }

  lemma ApplyGrows(d: Deployment, s: Sys, e: Event)
    requires BucketOk(s.shared.kv)
    ensures Grows(s.shared, Apply(d, s, e).shared)
  {
    hide StepOf, CanStep, Grows, BucketOk, StartSend, StartAccept, Unforged;
    SameGrows(s.shared);
    match e
    case Step(h, ch) => if CanStep(d.st, s, h, ch) { StepGrows(d.st, s, h, ch); }
    case Tick(n) => LaterRely(s.shared, n, 0);
    case _ =>
  }

  lemma InvBucket(st: Settings, s: Sys)
    requires Inv(st, s)
    ensures BucketOk(s.shared.kv)
  {
    hide BucketOk, OwnersInv, KeysInv, TokensInv, LocalsInv, SendsInv, PublishedInv;
  }

  lemma {:induction false} RunGrows(d: Deployment, s: Sys, es: seq<Event>)
    requires Inv(d.st, s)
    ensures Grows(s.shared, Run(d, s, es).shared)
  {
    hide Inv, Grows, Apply, BucketOk;
    SameGrows(s.shared);
    if es != [] {
      var before := es[..|es| - 1];
      RunGrows(d, s, before);
      RunKeepsInv(d, s, before);
      InvBucket(d.st, Run(d, s, before));
      ApplyGrows(d, Run(d, s, before), es[|es| - 1]);
      GrowsTransitive(s.shared, Run(d, s, before).shared, Run(d, s, es).shared);
    }
  }

  lemma {:induction false} RunSplits(d: Deployment, s: Sys, es: seq<Event>, fs: seq<Event>)
    ensures Run(d, s, es + fs) == Run(d, Run(d, s, es), fs)
  {
    hide Apply;
    if fs == [] {
      assert es + fs == es;
    } else {
      assert (es + fs)[..|es + fs| - 1] == es + fs[..|fs| - 1];
      RunSplits(d, s, es, fs[..|fs| - 1]);
    }
  }
}
