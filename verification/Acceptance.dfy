/** AcceptanceService: checks an acceptance event against the stored record, marks the record accepted and
    publishes the enriched event. */
module Acceptance {
  import opened Base
  import opened Model
  import opened Auth
  import opened KeyValue
  import opened Protocol
  import opened World
  import opened InviteStore
  import opened Repository
  import Stability

  datatype Rejection = ErrAcceptanceRejected | ErrExpired

  // ---------------------------------------------------------------- what the handler promises

  /** The handler's first three actions read the pending record, took the acceptance time and verified the
      token, and the event passed every check against that record; nothing was written meanwhile. */
  ghost predicate Checked(st: Settings, log0: seq<Obs>, log: seq<Obs>, evt: AcceptedEvent, ev: Evidence) {
    var n := |log0|;
    && ev.evt == evt && evt.inviteUID != "" && evt.username != ""
    && log0 <= log && n + 3 <= |log| && Quiet(log0, log[..n + 3])
    && ReadOk(log[n], evt.inviteUID) && DecodeGet(log[n].res.get) == Ok(ev.rec) && ev.rec.status == Pending
    && log[n + 1].res == Time(ev.at) && ev.at < ev.rec.expiresAt
    && log[n + 2].res == Time(ev.verifiedAt) && Admits(st, evt, ev.rec, ev.verifiedAt)
  }

  /** The actions after the three checks, up to n2, are one MarkAccepted answering r. */
  ghost predicate MarkedUpTo(me: nat, log0: seq<Obs>, log: seq<Obs>, ev: Evidence, n2: nat, r: Outcome) {
    var n := |log0|;
    && n + 3 < n2 <= |log|
    && MarkContract(log[n + 2].after, log[..n + 3], log[n2 - 1].after, log[..n2],
                    me, ev.evt.inviteUID, ev.evt.username, ev.at, r)
  }

  /** The last update wrote, or tried to write, this record under the invite's key. */
  predicate TriedToWrite(o: Obs, uid: string, wrote: InviteRecord) {
    o.op.Update? && o.op.key == uid && o.op.value == Rec(wrote)
  }

  /** What each way an acceptance ends says about the handler's own actions since log0. */
  ghost predicate AcceptEffects(st: Settings, me: nat, log0: seq<Obs>, log: seq<Obs>, evt: AcceptedEvent, e: AcceptEnd)
  {
    match e
    case Discarded(_) => Quiet(log0, log)
    case UpdateLost(ev, wrote) =>
      && Checked(st, log0, log, evt, ev) && NoDispatch(log0, log)
      && log[|log| - 1].res == UpdateDone(UpdateFault) && TriedToWrite(log[|log| - 1], evt.inviteUID, wrote)
    case Unpublished(ev, wrote) =>
      && Checked(st, log0, log, evt, ev) && MarkedUpTo(me, log0, log, ev, |log| - 1, Ok(())) && NoDispatch(log0, log)
      && TriedToWrite(log[|log| - 2], evt.inviteUID, wrote)
      && ReadOk(log[|log| - 1], evt.inviteUID) && DecodeGet(log[|log| - 1].res.get).Err?
    case Published(ev, wrote, inv) =>
      && |log| >= 2
      && Checked(st, log0, log, evt, ev) && MarkedUpTo(me, log0, log, ev, |log| - 2, Ok(()))
      && TriedToWrite(log[|log| - 3], evt.inviteUID, wrote)
      && ReadOk(log[|log| - 2], evt.inviteUID) && DecodeGet(log[|log| - 2].res.get).Ok?
      && inv == DomainToAPIInvite(DecodeGet(log[|log| - 2].res.get).value).(status := ApiAccepted)
      && NoDispatch(log0, log[..|log| - 1]) && log[|log| - 1].op == Op.Publish(inv)
  }

  /** A finished acceptance: the program being followed is at an end, and the actions since log0 are those of
      that end. */
  ghost predicate AcceptHandled(st: Settings, me: nat, log0: seq<Obs>, log: seq<Obs>, pc: Tracker, evt: AcceptedEvent) {
    pc.At? && pc.l.ADone? && AcceptEffects(st, me, log0, log, evt, pc.l.acceptEnd)
  }

  // ---------------------------------------------------------------- the service

  class AcceptanceService {
    const world: Client
    const inviteStore: NATSInviteRepository

    constructor (world: Client, store: NATSInviteRepository)
      requires store.kv == world
      ensures this.world == world && inviteStore == store
    {
      this.world, inviteStore := world, store;
    }

    predicate Wired() {
      inviteStore.kv == world
    }

    /** The handler is the protocol's accept automaton, action by action, and its actions are those of the end
        it reaches: a rejected event writes and publishes nothing; a publication follows a successful
        MarkAccepted, made on the strength of a verified token, and shows the record as read back. */
    method HandleInviteAccepted(evt: AcceptedEvent)
      requires world.Valid() && Wired() && world.pc == At(StartAccept(evt))
      modifies world
      ensures world.Valid() && Env(old(world.shared), world.shared)
      ensures AcceptHandled(world.st, world.me, old(world.log), world.log, world.pc, evt)
    {
      hide BucketOk, Stability.Grows, Env, ObsOk, Advance, Perform, Allowed, Call, Resume, Running, Follows,
        Client.Valid, Admits, AcceptHandled, Quiet, NoDispatch, Harmless, MarkContract, ReadOk, Checked, MarkEnd,
        AfterPublish, MarkedUpTo;
      ghost var sh0, log0, st, me := world.shared, world.log, world.st, world.me;
      NothingHandled(world, evt);
      if evt.inviteUID == "" || evt.username == "" {
        return;
      }
      ReadStarts(st, evt);
      var loaded := inviteStore.GetByUID(evt.inviteUID);
      ghost var log1, sh1 := world.log, world.shared;
      ReadDone(st, me, log0, log1, evt, loaded);
      if loaded.Err? {
        return;
      }
      var record := loaded.value;
      if record.status == Accepted {
        return;
      }
      ClockStarts(st, evt, record);
      var now := world.Now();
      ghost var log2, sh2 := world.log, world.shared;
      EnvSteps(sh0, sh1, sh2);
      Clocked(log0, log1, log2);
      var err, ev := VerifyAcceptance(evt, record, now);
      ghost var log3, sh3 := world.log, world.shared;
      EnvSteps(sh0, sh2, sh3);
      Verified(st, me, log0, log1, log2, log3, evt, record, now, ev);
      if err.Some? {
        return;
      }
      MarkStarts(ev, evt, now);
      var marked, got := inviteStore.MarkAccepted(evt.inviteUID, evt.username, now, ev);
      ghost var log4, sh4 := world.log, world.shared;
      MarkMeans(sh3, log3, sh4, log4, me, evt.inviteUID, evt.username, now, marked);
      EnvSteps(sh0, sh3, sh4);
      MarkHandled(st, me, log0, log3, log4, evt, ev, got, marked, sh3, sh4);
      if marked.Err? {
        return;
      }
      PublishAccepted(evt.inviteUID, ev, Written(ev, got));
      EnvSteps(sh0, sh4, world.shared);
      PublishHandled(st, me, log0, log4, world.log, world.pc, evt, ev, Written(ev, got));
    }

    /** Accepts the event only for a present token, an unexpired record, a token that verifies for exactly this
        record, and the recipient's own username where the record names one. */
    method VerifyAcceptance(evt: AcceptedEvent, record: InviteRecord, now: int)
      returns (err: Option<Rejection>, ghost ev: Evidence)
      requires world.Valid() && world.pc == Advance(world.st, At(AClock(evt, record)), Time(now))
      modifies world
      ensures world.Valid() && Env(old(world.shared), world.shared)
      ensures old(world.log) <= world.log && Quiet(old(world.log), world.log)
      ensures ev == Evidence(evt, record, now, ev.verifiedAt)
      ensures match err
              case Some(ErrAcceptanceRejected) =>
                world.pc == At(ADone(Discarded(NotVerified)))
                && (evt.token.NoToken? || !Admits(world.st, evt, record, ev.verifiedAt))
              case Some(ErrExpired) => world.pc == At(ADone(Discarded(Expired))) && now >= record.expiresAt
              case None =>
                && world.pc == At(AMarkGet(ev, 0)) && now < record.expiresAt
                && Admits(world.st, evt, record, ev.verifiedAt)
                && |world.log| == |old(world.log)| + 1 && world.log[|old(world.log)|].res == Time(ev.verifiedAt)
                && world.log[|old(world.log)|].after == world.shared
    {
      hide BucketOk, Stability.Grows, Env, ObsOk, Advance, Perform, Allowed, Call, Resume, Running, Follows,
        Client.Valid, Verify;
      EnvReflexiveAt(world);
      VerifyStarts(world.st, evt, record, now);
      ev := Evidence(evt, record, now, 0);
      if evt.token.NoToken? {
        return Some(ErrAcceptanceRejected), ev;
      }
      if now >= record.expiresAt {
        return Some(ErrExpired), ev;
      }
      var verifiedAt := world.Now();
      ev := Evidence(evt, record, now, verifiedAt);
      VerifyEnds(world.st, evt, record, now, verifiedAt);
      var claims := Verify(world.st.secret, evt.token, verifiedAt);
      if claims.None? {
        return Some(ErrAcceptanceRejected), ev;
      }
      if claims.value.inviteUID != record.uid {
        return Some(ErrAcceptanceRejected), ev;
      }
      if claims.value.email != record.recipient.email {
        return Some(ErrAcceptanceRejected), ev;
      }
      if record.recipient.username != "" && evt.username != record.recipient.username {
        return Some(ErrAcceptanceRejected), ev;
      }
      err := None;
    }

    /** Reads the record back and publishes its view with the status forced to accepted, or publishes nothing
        when it cannot be read. */
    method PublishAccepted(inviteUID: string, ghost ev: Evidence, ghost wrote: InviteRecord)
      requires world.Valid() && Wired() && world.pc == At(AReread(ev, wrote)) && ev.evt.inviteUID == inviteUID
      modifies world
      ensures world.Valid() && Env(old(world.shared), world.shared)
      ensures AfterPublish(old(world.log), world.log, world.pc, inviteUID, ev, wrote)
    {
      hide BucketOk, Stability.Grows, Env, ObsOk, Advance, Perform, Allowed, Call, Resume, Running, Follows,
        Client.Valid, DomainToAPIInvite, Harmless, Current, LiveKey;
      RereadStarts(world.st, ev, wrote);
      var loaded := inviteStore.GetByUID(inviteUID);
      ghost var sh0, sh1 := old(world.shared), world.shared;
      RereadGoesOn(world.st, ev, wrote, world.log[|old(world.log)|].res, loaded);
      if loaded.Err? {
        ReadEnv(sh0, world.log[|old(world.log)|]);
        return;
      }
      var inv := DomainToAPIInvite(loaded.value);
      inv := inv.(status := ApiAccepted);
      ReadEnv(sh0, world.log[|old(world.log)|]);
      var published := world.Publish(inv);
      PublishEnds(world.st, ev, wrote, inv, published);
      EnvSteps(sh0, sh1, world.shared);
    }
  }

  /** What PublishAccepted did: one read, and one publication of that record's view if it succeeded. */
  ghost predicate AfterPublish(log0: seq<Obs>, log: seq<Obs>, pc: Tracker, uid: string, ev: Evidence,
                               wrote: InviteRecord)
  {
    var n := |log0|;
    && log0 <= log && n < |log| && ReadOk(log[n], uid)
    && match DecodeGet(log[n].res.get)
       case Err(_) => |log| == n + 1 && pc == At(ADone(Unpublished(ev, wrote)))
       case Ok(rec) =>
         var inv := DomainToAPIInvite(rec).(status := ApiAccepted);
         |log| == n + 2 && log[n + 1].op == Op.Publish(inv) && pc == At(ADone(Published(ev, wrote, inv)))
  }

  // ---------------------------------------------------------------- the automaton, step by step

  lemma NothingHandled(world: Client, evt: AcceptedEvent)
    requires world.Valid()
    ensures Env(world.shared, world.shared)
    ensures evt.inviteUID == "" || evt.username == "" ==>
              AcceptHandled(world.st, world.me, world.log, world.log, At(StartAccept(evt)), evt)
  {
    EnvReflexiveAt(world);
    hide Env;
  }

  lemma ReadStarts(st: Settings, evt: AcceptedEvent)
    requires evt.inviteUID != "" && evt.username != ""
    ensures StartAccept(evt) == ARead(evt) && Follows(st, At(ARead(evt)), Op.Get(evt.inviteUID))
  {
  }

  lemma ReadDone(st: Settings, me: nat, log0: seq<Obs>, log1: seq<Obs>, evt: AcceptedEvent,
                 r: Result<InviteRecord, StoreError>)
    requires log0 <= log1 && |log1| == |log0| + 1
    requires ReadOk(log1[|log0|], evt.inviteUID) && r == DecodeGet(log1[|log0|].res.get)
    ensures Quiet(log0, log1)
    ensures var pc := Advance(st, At(ARead(evt)), log1[|log0|].res);
            if r.Err? || r.value.status == Accepted then AcceptHandled(st, me, log0, log1, pc, evt)
            else pc == At(AClock(evt, r.value))
  {
  }

  lemma ClockStarts(st: Settings, evt: AcceptedEvent, rec: InviteRecord)
    ensures Follows(st, At(AClock(evt, rec)), Op.Now)
  {
  }

  lemma Clocked(log0: seq<Obs>, log1: seq<Obs>, log2: seq<Obs>)
    requires Quiet(log0, log1) && log1 <= log2 && |log2| == |log1| + 1
    requires log2[|log1|].op.Now? && log2[|log1|].before == log2[|log1|].after
    ensures Quiet(log0, log2)
  {
  }

  lemma VerifyStarts(st: Settings, evt: AcceptedEvent, rec: InviteRecord, now: int)
    ensures var pc := Advance(st, At(AClock(evt, rec)), Time(now));
            if evt.token.NoToken? then pc == At(ADone(Discarded(NotVerified)))
            else if now >= rec.expiresAt then pc == At(ADone(Discarded(Expired)))
            else pc == At(AVerify(evt, rec, now)) && Follows(st, pc, Op.Now)
  {
  }

  lemma VerifyEnds(st: Settings, evt: AcceptedEvent, rec: InviteRecord, now: int, vt: int)
    ensures Advance(st, At(AVerify(evt, rec, now)), Time(vt)) ==
            if Admits(st, evt, rec, vt) then At(AMarkGet(Evidence(evt, rec, now, vt), 0))
            else At(ADone(Discarded(NotVerified)))
  {
    hide Admits;
  }

  lemma QuietTransitive(a: seq<Obs>, b: seq<Obs>, c: seq<Obs>)
    requires Quiet(a, b) && Quiet(b, c)
    ensures Quiet(a, c)
  {
    hide Harmless;
  }

  lemma Verified(st: Settings, me: nat, log0: seq<Obs>, log1: seq<Obs>, log2: seq<Obs>, log3: seq<Obs>,
                 evt: AcceptedEvent, rec: InviteRecord, now: int, ev: Evidence)
    requires log0 <= log1 <= log2 && |log1| == |log0| + 1 && |log2| == |log1| + 1 && Quiet(log0, log2)
    requires Quiet(log2, log3)
    requires ReadOk(log1[|log0|], evt.inviteUID) && DecodeGet(log1[|log0|].res.get) == Ok(rec) && rec.status == Pending
    requires log2[|log1|].res == Time(now) && evt.inviteUID != "" && evt.username != ""
    requires ev == Evidence(evt, rec, now, ev.verifiedAt)
    ensures forall reason :: AcceptHandled(st, me, log0, log3, At(ADone(Discarded(reason))), evt)
    ensures now < rec.expiresAt && Admits(st, evt, rec, ev.verifiedAt) ==>
              |log3| == |log2| + 1 && log3[|log2|].res == Time(ev.verifiedAt) ==> Checked(st, log0, log3, evt, ev)
  {
    hide Admits, ReadOk, Quiet;
    QuietTransitive(log0, log2, log3);
    QuietExtends(log2, log3);
    assert log3[..|log3|] == log3;
  }

  lemma QuietExtends(a: seq<Obs>, b: seq<Obs>)
    requires Quiet(a, b)
    ensures a <= b
  {
  }

  lemma MarkStarts(ev: Evidence, evt: AcceptedEvent, now: int)
    requires ev.evt == evt && ev.at == now
    ensures ForCall(ev, evt.inviteUID, evt.username, now) && AtMarkGet(At(AMarkGet(ev, 0)), ev, 0)
  {
  }

  /** Checks made before are still checks made, whatever follows. */
  lemma CheckedLater(st: Settings, log0: seq<Obs>, log3: seq<Obs>, log: seq<Obs>, evt: AcceptedEvent, ev: Evidence)
    requires Checked(st, log0, log3, evt, ev) && log3 <= log
    ensures Checked(st, log0, log, evt, ev)
  {
    hide Admits, ReadOk, Quiet;
    assert log[..|log0| + 3] == log3[..|log0| + 3];
  }

  lemma CheckedQuietly(st: Settings, log0: seq<Obs>, log3: seq<Obs>, evt: AcceptedEvent, ev: Evidence)
    requires Checked(st, log0, log3, evt, ev) && |log3| == |log0| + 3
    ensures Quiet(log0, log3) && ev.evt == evt
  {
    hide Admits, ReadOk, Quiet;
    assert log3[..|log0| + 3] == log3;
  }

  /** What MarkAccepted's contract says about going on. */
  lemma MarkMeans(sh3: Protocol.Shared, log3: seq<Obs>, sh4: Protocol.Shared, log4: seq<Obs>, me: nat, uid: string,
                  username: string, at: int, r: Outcome)
    requires MarkContract(sh3, log3, sh4, log4, me, uid, username, at, r)
    ensures Env(sh3, sh4) && log3 <= log4 && |log3| < |log4| && NoDispatch(log3, log4)
    ensures r.Ok? ==> log4[|log4| - 1].res.UpdateDone?
    ensures r.Err? ==>
              Quiet(log3, log4)
              || (log4[|log4| - 1].res == UpdateDone(UpdateFault)
                  && r.error.ServiceUnavailable? && r.error.cause.UpdateFailed? && !r.error.cause.mismatch)
    ensures r.Err? && r.error.ServiceUnavailable? && r.error.cause.UpdateFailed? && !r.error.cause.mismatch ==>
              log4[|log4| - 1].res == UpdateDone(UpdateFault)
  {
    hide Linearized, Env, Shifts, Harmless;
    var last := log4[|log4| - 1];
    assert log4 == log4[..|log4| - 1] + [last];
    if r.Err? && Harmless(last) {
      assert Quiet(log3, log4);
    }
  }

  lemma DiscardedAfterMark(st: Settings, me: nat, log0: seq<Obs>, log4: seq<Obs>, evt: AcceptedEvent, ev: Evidence,
                           got: InviteRecord, r: Outcome)
    requires Quiet(log0, log4) && r.Err? && !AfterMark(ev, got, r).acceptEnd.UpdateLost?
    ensures AcceptHandled(st, me, log0, log4, MarkEnd(At(AMarkGet(ev, 0)), ev, got, r), evt)
  {
    hide Quiet, Written;
  }

  lemma MarkHandled(st: Settings, me: nat, log0: seq<Obs>, log3: seq<Obs>, log4: seq<Obs>, evt: AcceptedEvent,
                    ev: Evidence, got: InviteRecord, r: Outcome, sh3: Protocol.Shared, sh4: Protocol.Shared)
    requires Checked(st, log0, log3, evt, ev) && |log3| == |log0| + 3 && log3[|log3| - 1].after == sh3
    requires MarkContract(sh3, log3, sh4, log4, me, evt.inviteUID, evt.username, ev.at, r) && log4 != []
    requires log4[|log4| - 1].after == sh4
    requires log4[|log4| - 1].res.UpdateDone? ==> TriedToWrite(log4[|log4| - 1], evt.inviteUID, Written(ev, got))
    ensures r.Err? ==> AcceptHandled(st, me, log0, log4, MarkEnd(At(AMarkGet(ev, 0)), ev, got, r), evt)
    ensures r.Ok? ==>
              && MarkEnd(At(AMarkGet(ev, 0)), ev, got, r) == At(AReread(ev, Written(ev, got))) && r == Ok(())
              && Checked(st, log0, log4, evt, ev) && MarkedUpTo(me, log0, log4, ev, |log4|, Ok(()))
              && NoDispatch(log0, log4) && TriedToWrite(log4[|log4| - 1], evt.inviteUID, Written(ev, got))
  {
    hide Checked, MarkContract, Written, NoDispatch, Quiet, TriedToWrite;
    MarkMeans(sh3, log3, sh4, log4, me, evt.inviteUID, evt.username, ev.at, r);
    CheckedLater(st, log0, log3, log4, evt, ev);
    CheckedQuietly(st, log0, log3, evt, ev);
    assert log4[..|log0| + 3] == log3;
    QuietSends(log0, log3);
    NoDispatchOn(log0, log3, log4);
    assert log4[..|log4|] == log4;
    assert r.Ok? ==> r.value == ();
    if Quiet(log3, log4) && r.Err? {
      QuietTransitive(log0, log3, log4);
      if !AfterMark(ev, got, r).acceptEnd.UpdateLost? {
        DiscardedAfterMark(st, me, log0, log4, evt, ev, got, r);
      }
    }
  }

  lemma QuietSends(a: seq<Obs>, b: seq<Obs>)
    requires Quiet(a, b)
    ensures NoDispatch(a, b)
  {
    hide Harmless;
  }

  lemma NoDispatchOn(a: seq<Obs>, b: seq<Obs>, c: seq<Obs>)
    requires NoDispatch(a, b) && NoDispatch(b, c)
    ensures NoDispatch(a, c)
  {
  }

  lemma RereadStarts(st: Settings, ev: Evidence, wrote: InviteRecord)
    ensures Follows(st, At(AReread(ev, wrote)), Op.Get(ev.evt.inviteUID))
  {
  }

  lemma RereadGoesOn(st: Settings, ev: Evidence, wrote: InviteRecord, res: Res, r: Result<InviteRecord, StoreError>)
    requires res.Got? && r == DecodeGet(res.get)
    ensures var pc := Advance(st, At(AReread(ev, wrote)), res);
            if r.Err? then pc == At(ADone(Unpublished(ev, wrote)))
            else var inv := DomainToAPIInvite(r.value).(status := ApiAccepted);
              pc == At(APublish(ev, wrote, inv)) && Follows(st, pc, Op.Publish(inv))
  {
    hide DomainToAPIInvite;
  }

  lemma PublishEnds(st: Settings, ev: Evidence, wrote: InviteRecord, inv: Invite, ok: bool)
    ensures Advance(st, At(APublish(ev, wrote, inv)), Res.PublishDone(ok)) == At(ADone(Published(ev, wrote, inv)))
  {
  }

  lemma ReadEnv(sh0: Protocol.Shared, o: Obs)
    requires Env(sh0, o.before) && Env(o.before, o.after)
    ensures Env(sh0, o.after)
  {
    EnvTransitive(sh0, o.before, o.after);
    hide Env;
  }

  lemma ReadIsNoDispatch(o: Obs, uid: string)
    requires ReadOk(o, uid)
    ensures !Dispatches(o)
  {
    hide Harmless, LiveKey, Current;
  }

  lemma MarkedLater(me: nat, log0: seq<Obs>, log4: seq<Obs>, log: seq<Obs>, ev: Evidence, r: Outcome)
    requires MarkedUpTo(me, log0, log4, ev, |log4|, r) && log4 <= log
    ensures MarkedUpTo(me, log0, log, ev, |log4|, r)
  {
    hide MarkContract;
    assert log[..|log4|] == log4[..|log4|] && log[..|log0| + 3] == log4[..|log0| + 3];
  }

  lemma PublishHandled(st: Settings, me: nat, log0: seq<Obs>, log4: seq<Obs>, log: seq<Obs>, pc: Tracker,
                       evt: AcceptedEvent, ev: Evidence, wrote: InviteRecord)
    requires Checked(st, log0, log4, evt, ev) && MarkedUpTo(me, log0, log4, ev, |log4|, Ok(()))
    requires NoDispatch(log0, log4)
    requires log4 != [] && TriedToWrite(log4[|log4| - 1], evt.inviteUID, wrote)
    requires AfterPublish(log4, log, pc, evt.inviteUID, ev, wrote)
    ensures AcceptHandled(st, me, log0, log, pc, evt)
  {
    hide MarkContract, Checked, MarkedUpTo, ReadOk, TriedToWrite, DomainToAPIInvite;
    CheckedLater(st, log0, log4, log, evt, ev);
    MarkedLater(me, log0, log4, log, ev, Ok(()));
    ReadIsNoDispatch(log[|log4|], evt.inviteUID);
    assert forall j | 0 <= j < |log4| :: log[j] == log4[j];
  }
}
