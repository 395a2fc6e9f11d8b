/** The world one handler's code runs in: the shared state, which others may change between any two of
    the handler's actions, and the actions themselves. Every action is the protocol's own Perform, under
    a choice nobody controls. */
module World {
  import opened Base
  import opened Model
  import opened Auth
  import opened KeyValue
  import opened Protocol
  import opened Lifecycle
  import opened Stability
  import opened Growth
  import Lookup
  import Runs

  /** One action of this handler, with the shared states right before and after it. */
  datatype Obs = Obs(op: Op, ch: Choice, before: Shared, after: Shared, res: Res)

  /** Where the handler's program stands, if it is being followed. */
  datatype Tracker = Untracked | At(l: Local)

  predicate ObsOk(st: Settings, me: nat, o: Obs) {
    Allowed(o.before, o.op, o.ch) && Perform(st, o.before, me, o.op, o.ch) == (o.after, o.res)
  }

  /** What others may do meanwhile: anything that only adds to the shared state. */
  predicate Env(sh: Shared, sh2: Shared) {
    Grows(sh, sh2) && BucketOk(sh2.kv)
  }

  predicate Follows(st: Settings, pc: Tracker, op: Op) {
    pc.At? ==> Running(pc.l) && Call(st, pc.l) == op
  }

  function Advance(st: Settings, pc: Tracker, res: Res): Tracker {
    if pc.At? then At(Resume(st, pc.l, res)) else pc
  }

  /** Where a program started at start stands after the actions of log. */
  function Replayed(st: Settings, start: Tracker, log: seq<Obs>): Tracker {
    if log == [] then start else Advance(st, Replayed(st, start, log[..|log| - 1]), log[|log| - 1].res)
  }

  /** Every action of log is the one the program makes at that point, with an outcome the world allows. */
  predicate InStep(st: Settings, me: nat, start: Tracker, log: seq<Obs>) {
    forall i | 0 <= i < |log| :: ObsOk(st, me, log[i]) && Follows(st, Replayed(st, start, log[..i]), log[i].op)
  }

  lemma OneMoreInStep(st: Settings, me: nat, start: Tracker, log: seq<Obs>, o: Obs)
    requires InStep(st, me, start, log) && ObsOk(st, me, o) && Follows(st, Replayed(st, start, log), o.op)
    ensures InStep(st, me, start, log + [o])
    ensures Replayed(st, start, log + [o]) == Advance(st, Replayed(st, start, log), o.res)
  {
    hide ObsOk, Follows, Advance;
    var log2 := log + [o];
    assert log2[..|log|] == log;
    forall i | 0 <= i < |log2|
      ensures ObsOk(st, me, log2[i]) && Follows(st, Replayed(st, start, log2[..i]), log2[i].op)
    {
      if i < |log| {
        assert log2[..i] == log[..i];
      }
    }
  }

  lemma EnvReflexive(sh: Shared)
    requires BucketOk(sh.kv)
    ensures Env(sh, sh)
  {
    SameGrows(sh);
    hide Grows, BucketOk;
  }

  lemma EnvTransitive(a: Shared, b: Shared, c: Shared)
    requires Env(a, b) && Env(b, c)
    ensures Env(a, c)
  {
    hide Grows, BucketOk;
    GrowsTransitive(a, b, c);
  }

  /** The rely is justified by the protocol: every event of the other handlers respects it. */
  lemma OthersRespectEnv(d: Deployment, s: Sys, e: Event)
    requires Inv(d.st, s)
    ensures Env(s.shared, Apply(d, s, e).shared)
  {
    hide Inv, Apply, Grows, BucketOk;
    InvBucket(d.st, s);
    ApplyGrows(d, s, e);
    Runs.ApplyKeepsInv(d, s, e);
    InvBucket(d.st, Apply(d, s, e));
  }

  // ---------------------------------------------------------------- fresh UIDs exist

  ghost function TotalLength(s: set<string>): nat {
    if s == {} then 0 else var x :| x in s; |x| + TotalLength(s - {x})
  }

  lemma {:induction false} LengthBound(s: set<string>, x: string)
    requires x in s
    ensures |x| <= TotalLength(s)
    decreases s
  {
    var y :| y in s && TotalLength(s) == |y| + TotalLength(s - {y});
    assert TotalLength(s - {y}) >= 0;
    if x != y {
      LengthBound(s - {y}, x);
    }
  }

  lemma FreshUidExists(sh: Shared)
    ensures exists u: string :: FreshUid(sh, u)
  {
    var u := seq(TotalLength(sh.minted.Keys) + 1, _ => 'u');
    if u in sh.minted {
      LengthBound(sh.minted.Keys, u);
    }
    assert FreshUid(sh, u);
  }

  // ---------------------------------------------------------------- listing keys

  /** A key listing, not atomic: keys come one by one while others write, and it may stop early. */
  datatype Listing = Listing(keys: seq<string>, complete: bool)

  /** Live at b, and not deleted up to b2. */
  predicate LiveThroughout(b: Bucket, b2: Bucket, k: string) {
    LiveKey(b, k) && |Hist(b, k)| <= |Hist(b2, k)|
    && forall i | |Hist(b, k)| <= i < |Hist(b2, k)| :: Hist(b2, k)[i].Put?
  }

  /** No key twice, every listed key live at some moment of the listing, and a complete listing misses no
      key that stayed live from start to end. */
  ghost predicate ListingOk(start: Shared, end: Shared, l: Listing, moment: map<string, Shared>) {
    && Lookup.NoDuplicates(l.keys)
    && (forall k | k in l.keys :: k in moment && LiveAt(start, moment[k], end, k))
    && (l.complete ==> forall k | LiveThroughout(start.kv, end.kv, k) :: k in l.keys)
  }

  predicate LiveAt(start: Shared, moment: Shared, end: Shared, k: string) {
    Env(start, moment) && Env(moment, end) && LiveKey(moment.kv, k)
  }

  /** A key that stayed live was live at every moment in between. */
  lemma LiveBetween(start: Shared, moment: Shared, end: Shared, k: string)
    requires Env(start, moment) && Env(moment, end) && LiveThroughout(start.kv, end.kv, k)
    ensures LiveKey(moment.kv, k) && LiveThroughout(moment.kv, end.kv, k)
  {
    hide BucketOk;
    GrowsHist(start, moment, k);
    GrowsHist(moment, end, k);
    var h, h2 := Hist(moment.kv, k), Hist(end.kv, k);
    assert h[|h| - 1] == h2[|h| - 1];
  }

  lemma LiveIsWritten(b: Bucket, k: string)
    requires LiveKey(b, k)
    ensures k in b.hist
  {
  }

  /** The moments at which the keys were looked at: all keys of start but the pending ones, and each
      was listed if it was live then. */
  ghost predicate ListedSoFar(start: Shared, now: Shared, keys: seq<string>, pending: set<string>,
                              looked: map<string, Shared>)
  {
    && Env(start, now)
    && Lookup.NoDuplicates(keys) && (forall k | k in keys :: k !in pending && k in looked && LiveKey(looked[k].kv, k))
    && (forall k | k in start.kv.hist && k !in pending :: k in looked && (LiveKey(looked[k].kv, k) ==> k in keys))
    && (forall k | k in looked :: Env(start, looked[k]) && Env(looked[k], now))
  }

  lemma ListedMore(start: Shared, before: Shared, now: Shared, keys: seq<string>, pending: set<string>,
                   looked: map<string, Shared>, k: string)
    requires ListedSoFar(start, before, keys, pending, looked) && Env(before, now) && k in pending
    ensures ListedSoFar(start, now, if LiveKey(now.kv, k) then keys + [k] else keys, pending - {k}, looked[k := now])
  {
    hide Env, LiveKey;
    EnvTransitive(start, before, now);
    EnvKeepsBucket(before, now);
    EnvReflexive(now);
    var looked2 := looked[k := now];
    forall x | x in looked2 ensures Env(start, looked2[x]) && Env(looked2[x], now) {
      if x != k {
        EnvTransitive(looked[x], before, now);
      }
    }
  }

  lemma EnvKeepsBucket(sh: Shared, sh2: Shared)
    requires Env(sh, sh2)
    ensures BucketOk(sh2.kv)
  {
    hide Grows, BucketOk;
  }

  lemma ListedAll(start: Shared, now: Shared, keys: seq<string>, pending: set<string>, looked: map<string, Shared>,
                  complete: bool)
    requires ListedSoFar(start, now, keys, pending, looked) && (complete ==> pending == {})
    ensures ListingOk(start, now, Listing(keys, complete), looked)
  {
    hide Env, LiveKey, LiveThroughout;
    forall k | complete && LiveThroughout(start.kv, now.kv, k) ensures k in keys {
      StayedLive(start.kv, now.kv, k);
      LiveIsWritten(start.kv, k);
      LiveBetween(start, looked[k], now, k);
    }
  }

  lemma StayedLive(b: Bucket, b2: Bucket, k: string)
    requires LiveThroughout(b, b2, k)
    ensures LiveKey(b, k)
  {
    hide LiveKey;
  }

  // ---------------------------------------------------------------- the class

  class Client {
    const st: Settings
    const me: nat
    var shared: Shared
    ghost var log: seq<Obs>
    ghost const start: Tracker
    ghost var pc: Tracker

    /** The program being followed has made exactly the logged actions, each in its turn. */
    ghost predicate Traced()
      reads `log, `pc
    {
      InStep(st, me, start, log) && pc == Replayed(st, start, log)
    }

    ghost predicate Valid()
      reads this
    {
      BucketOk(shared.kv) && Traced()
    }

    /** One more action has been performed: op, answered by res. */
    twostate predicate Did(op: Op, res: Res)
      reads this
    {
      && Valid()
      && |log| == |old(log)| + 1 && old(log) <= log
      && var o := log[|old(log)|];
      && o.op == op && o.res == res && ObsOk(st, me, o)
      && Env(old(shared), o.before) && Env(o.before, o.after) && shared == o.after
      && Env(old(shared), shared)
      && pc == Advance(st, old(pc), res)
    }

    /** The others run for a while. */
    method Interfere()
      requires Valid()
      modifies this`shared
      ensures Env(old(shared), shared)
    {
      EnvReflexive(shared);
      var other: Shared := *;
      if Env(shared, other) {
        shared := other;
      }
    }

    /** One action: interference, then the effect the protocol prescribes under an arbitrary choice. */
    method Do(op: Op) returns (res: Res)
      requires Valid() && Follows(st, pc, op)
      modifies this
      ensures Did(op, res)
    {
      hide Perform, Grows, BucketOk, Resume, Call, InStep, Replayed, Advance, Follows;
      ghost var first := shared;
      Interfere();
      var ch: Choice := *;
      if !Allowed(shared, op, ch) {
        FreshUidExists(shared);
        var u: string :| FreshUid(shared, u);
        ch := ch.(uid := u);
      }
      PerformGrows(st, shared, me, op, ch);
      ghost var before := shared;
      var (after, answer) := Perform(st, shared, me, op, ch);
      EnvTransitive(first, before, after);
      shared, res := after, answer;
      OneMoreInStep(st, me, start, log, Obs(op, ch, before, after, answer));
      log := log + [Obs(op, ch, before, after, answer)];
      pc := Advance(st, pc, answer);
    }

    method Now() returns (t: int)
      requires Valid() && Follows(st, pc, Op.Now)
      modifies this
      ensures Did(Op.Now, Time(t))
      ensures shared == log[|old(log)|].before && t == shared.clock
    {
      var res := Do(Op.Now);
      t := res.t;
    }

    method NewUid(p: LinkPayload, at: int) returns (uid: string)
      requires Valid() && Follows(st, pc, Op.NewUid(p, at))
      modifies this
      ensures Did(Op.NewUid(p, at), Uid(uid))
      ensures FreshUid(log[|old(log)|].before, uid) && shared.kv == log[|old(log)|].before.kv
    {
      var res := Do(Op.NewUid(p, at));
      uid := res.uid;
    }

    /** HMAC signing with the service's key. */
    method Sign(claims: Claims) returns (token: Option<Token>)
      requires Valid() && Follows(st, pc, Op.Sign(claims))
      modifies this
      ensures Did(Op.Sign(claims), Signed(token))
      ensures token.Some? ==> token.value == Token(st.secret, claims)
      ensures shared.kv == log[|old(log)|].before.kv
    {
      var res := Do(Op.Sign(claims));
      token := res.token;
    }

    method Get(key: string) returns (r: GetResult)
      requires Valid() && Follows(st, pc, Op.Get(key))
      modifies this
      ensures Did(Op.Get(key), Got(r))
      ensures shared.kv == log[|old(log)|].before.kv
      ensures r.Found? ==> Current(shared.kv, key) == Some(r.entry)
      ensures r.KeyNotFound? ==> !LiveKey(shared.kv, key)
    {
      var res := Do(Op.Get(key));
      r := res.get;
    }

    method Put(key: string, v: Value) returns (ok: bool)
      requires Valid() && Follows(st, pc, PutOp(key, v))
      modifies this
      ensures Did(PutOp(key, v), PutDone(ok))
      ensures var b := log[|old(log)|].before.kv;
              if ok then shared.kv == KvPut(b, key, v, me) else shared.kv in {b, KvPut(b, key, v, me)}
    {
      hide KvPut;
      var res := Do(PutOp(key, v));
      ok := res.ok;
    }

    method Update(key: string, v: Value, rev: nat) returns (r: UpdateResult)
      requires Valid() && Follows(st, pc, Op.Update(key, v, rev))
      modifies this
      ensures Did(Op.Update(key, v, rev), UpdateDone(r))
      ensures var b := log[|old(log)|].before.kv;
              && (r.Updated? ==> LastRev(b, key) == rev && shared.kv == KvPut(b, key, v, me))
              && (r.Mismatch? ==> LastRev(b, key) != rev && shared.kv == b)
              && (r.UpdateFault? ==> shared.kv == b || (LastRev(b, key) == rev && shared.kv == KvPut(b, key, v, me)))
    {
      hide KvPut, LastRev;
      var res := Do(Op.Update(key, v, rev));
      r := res.update;
    }

    method Delete(key: string) returns (r: DeleteResult)
      requires Valid() && Follows(st, pc, Op.Delete(key))
      modifies this
      ensures Did(Op.Delete(key), DeleteDone(r))
      ensures var b := log[|old(log)|].before.kv;
              && (r.Deleted? ==> shared.kv == KvDelete(b, key, me))
              && (r.NothingToDelete? ==> !LiveKey(b, key) && shared.kv == b)
              && (r.DeleteFault? ==> shared.kv in {b, KvDelete(b, key, me)})
    {
      hide KvDelete, LiveKey;
      var res := Do(Op.Delete(key));
      r := res.delete;
    }

    method Send(payload: InviteEmailPayload) returns (ok: bool)
      requires Valid() && Follows(st, pc, Op.Send(payload))
      modifies this
      ensures Did(Op.Send(payload), SendDone(ok))
      ensures shared.kv == log[|old(log)|].before.kv
    {
      var res := Do(Op.Send(payload));
      ok := res.sent;
    }

    method Publish(inv: Invite) returns (ok: bool)
      requires Valid() && Follows(st, pc, Op.Publish(inv))
      modifies this
      ensures Did(Op.Publish(inv), PublishDone(ok))
      ensures shared.kv == log[|old(log)|].before.kv
    {
      var res := Do(Op.Publish(inv));
      ok := res.publishOk;
    }

    /** Lists the keys of the bucket; None when the listing cannot be started. Not an action of the
        followed handlers. */
    method ListKeys() returns (r: Option<Listing>, ghost moment: map<string, Shared>)
      requires Valid()
      modifies this`shared
      ensures Valid() && Env(old(shared), shared)
      ensures r.Some? ==> ListingOk(old(shared), shared, r.value, moment)
    {
      hide BucketOk, Grows, Env, LiveKey, ListingOk, ListedSoFar, InStep, Replayed;
      ghost var first := shared;
      EnvReflexive(shared);
      moment := map[];
      var available: bool := *;
      if !available {
        return None, map[];
      }
      var keys, pending, interrupted := [], shared.kv.hist.Keys, false;
      NothingListed(shared);
      while pending != {} && !interrupted
        invariant Valid() && Env(first, shared) && ListedSoFar(first, shared, keys, pending, moment)
        decreases |pending|
      {
        ghost var before := shared;
        Interfere();
        EnvTransitive(first, before, shared);
        EnvKeepsBucket(before, shared);
        var k :| k in pending;
        ListedMore(first, before, shared, keys, pending, moment, k);
        if LiveKey(shared.kv, k) {
          keys := keys + [k];
        }
        pending := pending - {k};
        moment := moment[k := shared];
        interrupted := *;
      }
      ListedAll(first, shared, keys, pending, moment, pending == {});
      r := Some(Listing(keys, pending == {}));
    }
  }

  lemma NothingListed(sh: Shared)
    requires BucketOk(sh.kv)
    ensures ListedSoFar(sh, sh, [], sh.kv.hist.Keys, map[])
  {
    hide BucketOk, Env;
    EnvReflexive(sh);
  }
}
