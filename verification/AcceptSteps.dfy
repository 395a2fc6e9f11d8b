/** Every action of an accept handler keeps the invariant. */
module AcceptSteps {
  import opened Base
  import opened Model
  import opened Auth
  import opened KeyValue
  import opened Protocol
  import opened Lifecycle
  import opened Stability
  import opened Preservation
  import opened SagaSteps

  // ---------------------------------------------------------------- what a read can return

  /** A record read as not yet accepted is the lone pending record of a minted UID. */
  lemma PendingRead(s: Sys, k: string)
    requires k in s.shared.kv.hist && KeyInv(s.shared, s.procs, k) && LiveKey(s.shared.kv, k)
    requires Current(s.shared.kv, k).value.value.Rec? && Current(s.shared.kv, k).value.value.record.status != Accepted
    ensures k in s.shared.minted && |P(s.shared, k)| == 1
    ensures HoldsRecord(P(s.shared, k)[0], Current(s.shared.kv, k).value.value.record)
    ensures Current(s.shared.kv, k).value.rev == P(s.shared, k)[0].rev
  {
    hide MatchesMint, MarkedBy, IKey;
  }

  lemma LiveInHist(b: Bucket, k: string)
    requires LiveKey(b, k)
    ensures k in b.hist
  {
  }

  /** After this handler's acceptance, a live read returns exactly the record it wrote. */
  lemma RereadOwn(s: Sys, h: nat, ev: Evidence, wrote: InviteRecord)
    requires MarkWritten(s.shared, h, ev, wrote) && ev.evt.inviteUID in s.shared.minted
    requires KeyInv(s.shared, s.procs, ev.evt.inviteUID) && LiveKey(s.shared.kv, ev.evt.inviteUID)
    ensures Current(s.shared.kv, ev.evt.inviteUID).value.value == Rec(wrote)
  {
    hide MatchesMint, MarkedBy, Written, IsPending, Accepts;
  }

  // ---------------------------------------------------------------- quiet steps with and without a fault

  /** The two shared states a read can leave: unchanged, or with its failure noted. */
  function AfterGet(sh: Shared, h: nat, f: Fault): Shared {
    if f.NoFault? then sh else MarkFault(sh, h, NotApplied)
  }

  lemma AfterGetGrows(sh: Shared, h: nat, f: Fault)
    ensures SameBucket(sh, AfterGet(sh, h, f)) && Grows(sh, AfterGet(sh, h, f))
  {
    GrowsReflexive(sh, AfterGet(sh, h, f));
    hide Grows;
  }

  lemma QuietGet(st: Settings, s: Sys, h: nat, f: Fault, l2: Local)
    requires h in s.procs && Running(s.procs[h])
    requires Keeps(s.procs[h], l2) && ExpectedSends(st, l2) == ExpectedSends(st, s.procs[h])
    ensures Quiet(st, s, h, AfterGet(s.shared, h, f), l2)
  {
    hide Keeps, ExpectedSends, Running;
  }

  function GetAnswer(sh: Shared, k: string, f: Fault): GetResult {
    if f.NoFault? then (if LiveKey(sh.kv, k) then Found(Current(sh.kv, k).value) else KeyNotFound) else GetFault
  }

  // ---------------------------------------------------------------- the first read

  lemma ReadNext(st: Settings, s: Sys, h: nat, ch: Choice, evt: AcceptedEvent)
    requires CanStep(st, s, h, ch) && s.procs[h] == ARead(evt)
    ensures var l2 := ResumeRead(evt, GetAnswer(s.shared, evt.inviteUID, ch.fault));
            && StepOf(st, s, h, ch) == Moved(s, h, AfterGet(s.shared, h, ch.fault), l2)
            && Running(s.procs[h]) && Keeps(s.procs[h], l2) && ExpectedSends(st, l2) == ExpectedSends(st, s.procs[h])
  {
    hide Current, LiveKey;
  }

  lemma ReadLocal(st: Settings, s: Sys, h: nat, evt: AcceptedEvent, f: Fault)
    requires LocalInv(st, s.shared, h, ARead(evt)) && KeysInv(s)
    ensures LocalInv(st, s.shared, h, ResumeRead(evt, GetAnswer(s.shared, evt.inviteUID, f)))
  {
    hide Current, LiveKey, KeyInv, Unforged, KeysInv, P;
    if f.NoFault? && LiveKey(s.shared.kv, evt.inviteUID) {
      ReadSeen(s, evt.inviteUID);
    }
  }

  lemma ReadSeen(s: Sys, k: string)
    requires KeysInv(s) && LiveKey(s.shared.kv, k)
    ensures Current(s.shared.kv, k).Some?
    ensures var e := Current(s.shared.kv, k).value;
            e.value.Rec? && e.value.record.status != Accepted ==>
              Seen(s.shared, k, e.value.record) && |P(s.shared, k)| == 1 && e.rev == P(s.shared, k)[0].rev
  {
    LiveInHist(s.shared.kv, k);
    hide Current, KeyInv, P, HoldsRecord, Hist;
    var e := Current(s.shared.kv, k).value;
    if e.value.Rec? && e.value.record.status != Accepted {
      PendingRead(s, k);
    }
  }

  lemma StepRead(st: Settings, s: Sys, h: nat, ch: Choice)
    requires Inv(st, s) && CanStep(st, s, h, ch) && s.procs[h].ARead?
    ensures Inv(st, StepOf(st, s, h, ch))
  {
    var evt := s.procs[h].evt;
    var l2 := ResumeRead(evt, GetAnswer(s.shared, evt.inviteUID, ch.fault));
    assert !IsSender(l2);
    hide *;
    InvParts(st, s);
    InvLocal(st, s, h);
    ReadNext(st, s, h, ch, evt);
    ReadLocal(st, s, h, evt, ch.fault);
    GetStep(st, s, h, ch.fault, l2);
  }

  lemma LocalSplit(st: Settings, sh: Shared, h: nat, l: Local)
    requires !IsSender(l)
    ensures LocalInv(st, sh, h, l) <==> AcceptInv(st, sh, h, l)
  {
    hide AcceptInv;
  }

  /** A step that reads and otherwise only moves an accept handler. */
  lemma GetStep(st: Settings, s: Sys, h: nat, f: Fault, l2: Local)
    requires Inv(st, s) && h in s.procs && Running(s.procs[h]) && !IsSender(l2)
    requires Keeps(s.procs[h], l2) && ExpectedSends(st, l2) == ExpectedSends(st, s.procs[h])
    requires LocalInv(st, s.shared, h, l2)
    ensures Inv(st, Moved(s, h, AfterGet(s.shared, h, f), l2))
  {
    hide *;
    AfterGetGrows(s.shared, h, f);
    LocalSplit(st, s.shared, h, l2);
    LocalSplit(st, AfterGet(s.shared, h, f), h, l2);
    AcceptStable(st, s.shared, AfterGet(s.shared, h, f), h, l2);
    QuietGet(st, s, h, f, l2);
    QuietStep(st, s, h, AfterGet(s.shared, h, f), l2);
  }

  // ---------------------------------------------------------------- verification

  lemma VerifiedToken(key: Secret, t: PresentedToken, now: int)
    requires Verify(key, t, now).Some?
    ensures t.Presented? && t.token.key == key
  {
    hide AudienceOk, TimesOk;
  }

  lemma AdmittedToken(st: Settings, sh: Shared, evt: AcceptedEvent, rec: InviteRecord, vt: int)
    requires Admits(st, evt, rec, vt) && Unforged(st, sh, evt.token)
    ensures evt.token.Presented? && evt.token.token in sh.tokens
  {
    hide Verify;
    VerifiedToken(st.secret, evt.token, vt);
  }

  function AfterClock(evt: AcceptedEvent, rec: InviteRecord, t: int): Local {
    if evt.token.NoToken? then ADone(Discarded(NotVerified))
    else if t >= rec.expiresAt then ADone(Discarded(Expired))
    else AVerify(evt, rec, t)
  }

  function AfterVerify(st: Settings, evt: AcceptedEvent, rec: InviteRecord, now: int, vt: int): Local {
    if Admits(st, evt, rec, vt) then AMarkGet(Evidence(evt, rec, now, vt), 0) else ADone(Discarded(NotVerified))
  }

  function AfterMarkClock(ev: Evidence, n: nat, got: InviteRecord, rev: nat, t: int): Local {
    if t >= got.expiresAt then ADone(Discarded(Expired)) else AMarkUpdate(ev, n, got, rev)
  }

  lemma ClockLocal(st: Settings, s: Sys, h: nat, evt: AcceptedEvent, rec: InviteRecord)
    requires LocalInv(st, s.shared, h, AClock(evt, rec)) && KeyInv(s.shared, s.procs, evt.inviteUID)
    ensures LocalInv(st, s.shared, h, AfterClock(evt, rec, s.shared.clock))
  {
    hide Unforged, PrimaryLife, MarkedBy, IndexInv, ExpiresAt, AcceptedClaims;
  }

  lemma ClockNext(st: Settings, s: Sys, h: nat, ch: Choice, evt: AcceptedEvent, rec: InviteRecord)
    requires CanStep(st, s, h, ch) && s.procs[h] == AClock(evt, rec)
    ensures var l2 := AfterClock(evt, rec, s.shared.clock);
            StepOf(st, s, h, ch) == Moved(s, h, s.shared, l2) && Quiet(st, s, h, s.shared, l2)
  {
  }

  lemma StepAClock(st: Settings, s: Sys, h: nat, ch: Choice)
    requires Inv(st, s) && CanStep(st, s, h, ch) && s.procs[h].AClock?
    ensures Inv(st, StepOf(st, s, h, ch))
  {
    var AClock(evt, rec) := s.procs[h];
    hide *;
    InvLocal(st, s, h);
    SeenInHist(st, s.shared, h, evt, rec);
    InvKey(st, s, evt.inviteUID);
    ClockNext(st, s, h, ch, evt, rec);
    ClockLocal(st, s, h, evt, rec);
    QuietStep(st, s, h, s.shared, AfterClock(evt, rec, s.shared.clock));
  }

  lemma SeenInHist(st: Settings, sh: Shared, h: nat, evt: AcceptedEvent, rec: InviteRecord)
    requires LocalInv(st, sh, h, AClock(evt, rec))
    ensures evt.inviteUID in sh.kv.hist
  {
    hide Unforged, HoldsRecord;
  }

  lemma VerifyLocal(st: Settings, sh: Shared, h: nat, evt: AcceptedEvent, rec: InviteRecord, now: int)
    requires LocalInv(st, sh, h, AVerify(evt, rec, now))
    ensures LocalInv(st, sh, h, AfterVerify(st, evt, rec, now, sh.clock))
  {
    hide Admits, Unforged, Seen;
    if Admits(st, evt, rec, sh.clock) {
      AdmittedToken(st, sh, evt, rec, sh.clock);
    }
  }

  lemma VerifyNext(st: Settings, s: Sys, h: nat, ch: Choice, evt: AcceptedEvent, rec: InviteRecord, now: int)
    requires CanStep(st, s, h, ch) && s.procs[h] == AVerify(evt, rec, now)
    ensures var l2 := AfterVerify(st, evt, rec, now, s.shared.clock);
            StepOf(st, s, h, ch) == Moved(s, h, s.shared, l2) && Quiet(st, s, h, s.shared, l2)
  {
    hide Admits;
  }

  lemma StepAVerify(st: Settings, s: Sys, h: nat, ch: Choice)
    requires Inv(st, s) && CanStep(st, s, h, ch) && s.procs[h].AVerify?
    ensures Inv(st, StepOf(st, s, h, ch))
  {
    var AVerify(evt, rec, now) := s.procs[h];
    hide *;
    InvLocal(st, s, h);
    VerifyNext(st, s, h, ch, evt, rec, now);
    VerifyLocal(st, s.shared, h, evt, rec, now);
    QuietStep(st, s, h, s.shared, AfterVerify(st, evt, rec, now, s.shared.clock));
  }

  // ---------------------------------------------------------------- MarkAccepted

  lemma MarkGetNext(st: Settings, s: Sys, h: nat, ch: Choice, ev: Evidence, n: nat)
    requires CanStep(st, s, h, ch) && s.procs[h] == AMarkGet(ev, n)
    ensures var l2 := ResumeMarkGet(ev, n, GetAnswer(s.shared, ev.evt.inviteUID, ch.fault));
            && StepOf(st, s, h, ch) == Moved(s, h, AfterGet(s.shared, h, ch.fault), l2)
            && Running(s.procs[h]) && Keeps(s.procs[h], l2) && ExpectedSends(st, l2) == ExpectedSends(st, s.procs[h])
            && !IsSender(l2)
  {
    hide Current, LiveKey;
  }

  lemma MarkGetLocal(st: Settings, s: Sys, h: nat, ev: Evidence, n: nat, f: Fault)
    requires LocalInv(st, s.shared, h, AMarkGet(ev, n)) && KeysInv(s)
    ensures LocalInv(st, s.shared, h, ResumeMarkGet(ev, n, GetAnswer(s.shared, ev.evt.inviteUID, f)))
  {
    hide Current, LiveKey, KeyInv, Unforged, KeysInv, P, Admits;
    if f.NoFault? && LiveKey(s.shared.kv, ev.evt.inviteUID) {
      ReadSeen(s, ev.evt.inviteUID);
    }
  }

  lemma StepMarkGet(st: Settings, s: Sys, h: nat, ch: Choice)
    requires Inv(st, s) && CanStep(st, s, h, ch) && s.procs[h].AMarkGet?
    ensures Inv(st, StepOf(st, s, h, ch))
  {
    var AMarkGet(ev, n) := s.procs[h];
    hide *;
    InvParts(st, s);
    InvLocal(st, s, h);
    MarkGetNext(st, s, h, ch, ev, n);
    MarkGetLocal(st, s, h, ev, n, ch.fault);
    GetStep(st, s, h, ch.fault, ResumeMarkGet(ev, n, GetAnswer(s.shared, ev.evt.inviteUID, ch.fault)));
  }

  lemma MarkClockLocal(st: Settings, sh: Shared, h: nat, ev: Evidence, n: nat, got: InviteRecord, rev: nat, t: int)
    requires LocalInv(st, sh, h, AMarkClock(ev, n, got, rev))
    ensures LocalInv(st, sh, h, AfterMarkClock(ev, n, got, rev, t))
  {
    hide EvidenceInv, P;
  }

  lemma MarkClockNext(st: Settings, s: Sys, h: nat, ch: Choice, ev: Evidence, n: nat, got: InviteRecord, rev: nat)
    requires CanStep(st, s, h, ch) && s.procs[h] == AMarkClock(ev, n, got, rev)
    ensures var l2 := AfterMarkClock(ev, n, got, rev, s.shared.clock);
            StepOf(st, s, h, ch) == Moved(s, h, s.shared, l2) && Quiet(st, s, h, s.shared, l2)
  {
  }

  lemma StepMarkClock(st: Settings, s: Sys, h: nat, ch: Choice)
    requires Inv(st, s) && CanStep(st, s, h, ch) && s.procs[h].AMarkClock?
    ensures Inv(st, StepOf(st, s, h, ch))
  {
    var AMarkClock(ev, n, got, rev) := s.procs[h];
    hide *;
    InvLocal(st, s, h);
    MarkClockNext(st, s, h, ch, ev, n, got, rev);
    MarkClockLocal(st, s.shared, h, ev, n, got, rev, s.shared.clock);
    QuietStep(st, s, h, s.shared, AfterMarkClock(ev, n, got, rev, s.shared.clock));
  }

  // ---------------------------------------------------------------- the conditional update

  lemma UpdateFaultNext(st: Settings, s: Sys, h: nat, ch: Choice, ev: Evidence, n: nat, got: InviteRecord, rev: nat)
    requires CanStep(st, s, h, ch) && s.procs[h] == AMarkUpdate(ev, n, got, rev)
    ensures var lost, again := ADone(UpdateLost(ev, Written(ev, got))), ResumeUpdate(ev, n, got, Mismatch);
            && (ch.fault.NotApplied? ==> StepOf(st, s, h, ch) == Moved(s, h, MarkFault(s.shared, h, NotApplied), lost))
            && Quiet(st, s, h, MarkFault(s.shared, h, NotApplied), lost)
            && (!ch.fault.NotApplied? && LastRev(s.shared.kv, ev.evt.inviteUID) != rev ==>
                  StepOf(st, s, h, ch) == Moved(s, h, s.shared, again))
            && Quiet(st, s, h, s.shared, again)
  {
    hide LastRev, Written, WriteEffect, KvPut;
  }

  function AfterUpdate(ev: Evidence, got: InviteRecord, f: Fault): Local {
    if f.NoFault? then AReread(ev, Written(ev, got)) else ADone(UpdateLost(ev, Written(ev, got)))
  }

  lemma UpdateNext(st: Settings, s: Sys, h: nat, ch: Choice, ev: Evidence, n: nat, got: InviteRecord, rev: nat)
    requires CanStep(st, s, h, ch) && s.procs[h] == AMarkUpdate(ev, n, got, rev)
    requires !ch.fault.NotApplied? && LastRev(s.shared.kv, ev.evt.inviteUID) == rev
    ensures var w, l2 := PutBy(s.shared, h, Rec(Written(ev, got))), AfterUpdate(ev, got, ch.fault);
            && StepOf(st, s, h, ch)
               == Moved(s, h, WriteEffect(s.shared, h, ch.fault, Append(s.shared.kv, ev.evt.inviteUID, w)), l2)
            && Running(s.procs[h]) && Keeps(s.procs[h], l2) && ExpectedSends(st, l2) == ExpectedSends(st, s.procs[h])
            && MarkOf(l2) == Some((ev.evt.inviteUID, Written(ev, got)))
  {
    hide LastRev, Written, WriteEffect, Append;
  }

  /** The revision that was read is current exactly while the record is still alone. */
  lemma AloneIffCurrent(s: Sys, uid: string)
    requires BucketOk(s.shared.kv) && uid in s.shared.kv.hist
    ensures P(s.shared, uid) != []
    ensures (LastRev(s.shared.kv, uid) == P(s.shared, uid)[0].rev <==> |P(s.shared, uid)| == 1)
  {
    assert RevsOk(s.shared.kv.hist[uid], s.shared.kv.last);
  }

  lemma AcceptanceLife(h: seq<Write>, uid: string, w: Write, ev: Evidence)
    requires PrimaryLife(h, uid) && |h| == 1 && HoldsRecord(h[0], ev.rec)
    requires HoldsRecord(w, Written(ev, ev.rec)) && ev.rec.createdAt <= ev.at < ev.rec.expiresAt
    ensures PrimaryLife(h + [w], uid)
  {
    hide IsPending;
  }

  lemma AcceptanceKey(s: Sys, sh2: Shared, h: nat, l2: Local, ev: Evidence, w: Write)
    requires BucketOk(s.shared.kv) && KeyInv(s.shared, s.procs, ev.evt.inviteUID)
    requires Seen(s.shared, ev.evt.inviteUID, ev.rec)
    requires |P(s.shared, ev.evt.inviteUID)| == 1 && ev.rec.createdAt <= ev.at < ev.rec.expiresAt
    requires Appended(s.shared, sh2, h, ev.evt.inviteUID, w) && HoldsRecord(w, Written(ev, ev.rec))
    requires MarkOf(l2) == Some((ev.evt.inviteUID, Written(ev, ev.rec)))
    ensures KeyInv(sh2, Moved(s, h, sh2, l2).procs, ev.evt.inviteUID)
    ensures MarkWritten(sh2, h, ev, Written(ev, ev.rec))
    ensures AtMostAccepted(P(s.shared, ev.evt.inviteUID), P(sh2, ev.evt.inviteUID))
    ensures P(s.shared, ev.evt.inviteUID)[0].Put?
  {
    hide BucketOk, Appended, Hist, Written, MarkOf, ExpiresAt, AcceptedClaims, PrimaryLife, Grows;
    var uid := ev.evt.inviteUID;
    AppendedGrows(s.shared, sh2, h, uid, w);
    AcceptanceLife(P(s.shared, uid), uid, w, ev);
    assert P(sh2, uid) == P(s.shared, uid) + [w];
  }

  lemma UpdatePre(st: Settings, sh: Shared, h: nat, ev: Evidence, n: nat, got: InviteRecord, rev: nat)
    requires LocalInv(st, sh, h, AMarkUpdate(ev, n, got, rev))
    ensures EvidenceInv(st, sh, ev) && n == 0 && got == ev.rec
    ensures Seen(sh, ev.evt.inviteUID, ev.rec) && ev.evt.inviteUID in sh.kv.hist && ev.evt.inviteUID in sh.minted
    ensures P(sh, ev.evt.inviteUID) != [] && rev == P(sh, ev.evt.inviteUID)[0].rev
    ensures ev.rec.createdAt <= ev.at < ev.rec.expiresAt
  {
    hide Admits;
  }

  lemma UpdatePost(st: Settings, sh: Shared, h: nat, ev: Evidence, f: Fault)
    requires EvidenceInv(st, sh, ev)
    requires !f.NotApplied? ==> MarkWritten(sh, h, ev, Written(ev, ev.rec))
    requires f.NoFault? || h in sh.faulty
    ensures LocalInv(st, sh, h, AfterUpdate(ev, ev.rec, f))
  {
    hide EvidenceInv, MarkWritten, Written;
  }

  lemma UpdateRetry(st: Settings, sh: Shared, h: nat, ev: Evidence)
    requires EvidenceInv(st, sh, ev) && |P(sh, ev.evt.inviteUID)| >= 2
    ensures LocalInv(st, sh, h, ResumeUpdate(ev, 0, ev.rec, Mismatch))
  {
    hide EvidenceInv, P, Written;
  }

  lemma FaultEvidence(st: Settings, sh: Shared, h: nat, ev: Evidence)
    requires EvidenceInv(st, sh, ev)
    ensures EvidenceInv(st, MarkFault(sh, h, NotApplied), ev) && h in MarkFault(sh, h, NotApplied).faulty
  {
    hide Admits, HoldsRecord;
  }

  lemma AcceptStep(st: Settings, s: Sys, h: nat, ev: Evidence, f: Fault, w: Write, l2: Local)
    requires Inv(st, s) && h in s.procs && Running(s.procs[h]) && !f.NotApplied?
    requires EvidenceInv(st, s.shared, ev) && Seen(s.shared, ev.evt.inviteUID, ev.rec)
    requires ev.evt.inviteUID in s.shared.kv.hist && ev.evt.inviteUID in s.shared.minted
    requires |P(s.shared, ev.evt.inviteUID)| == 1 && ev.rec.createdAt <= ev.at < ev.rec.expiresAt
    requires w.rev == s.shared.kv.last + 1 && w.author == h && HoldsRecord(w, Written(ev, ev.rec))
    requires l2 == AfterUpdate(ev, ev.rec, f) && MarkOf(l2) == Some((ev.evt.inviteUID, Written(ev, ev.rec)))
    requires Keeps(s.procs[h], l2) && ExpectedSends(st, l2) == ExpectedSends(st, s.procs[h])
    ensures Inv(st, Moved(s, h, WriteEffect(s.shared, h, f, Append(s.shared.kv, ev.evt.inviteUID, w)), l2))
  {
    var uid := ev.evt.inviteUID;
    var sh2 := WriteEffect(s.shared, h, f, Append(s.shared.kv, uid, w));
    hide *;
    InvParts(st, s);
    InvKey(st, s, uid);
    WriteEffectAppends(s.shared, h, f, uid, w);
    AppendedGrows(s.shared, sh2, h, uid, w);
    AcceptanceKey(s, sh2, h, l2, ev, w);
    AcceptanceRely(s, h, sh2, uid);
    EvidenceStable(st, s.shared, sh2, ev);
    FaultNoted(s.shared, h, f, uid, w);
    UpdatePost(st, sh2, h, ev, f);
    AppendingHolds(st, s, h, sh2, l2, uid, w);
    AppendStep(st, s, h, sh2, l2, uid, w);
  }

  lemma FaultNoted(sh: Shared, h: nat, f: Fault, k: string, w: Write)
    ensures f.NoFault? || h in WriteEffect(sh, h, f, Append(sh.kv, k, w)).faulty
  {
    hide Append;
  }

  lemma StepUpdate(st: Settings, s: Sys, h: nat, ch: Choice)
    requires Inv(st, s) && CanStep(st, s, h, ch) && s.procs[h].AMarkUpdate?
    ensures Inv(st, StepOf(st, s, h, ch))
  {
    var AMarkUpdate(ev, n, got, rev) := s.procs[h];
    var uid, w := ev.evt.inviteUID, PutBy(s.shared, h, Rec(Written(ev, got)));
    assert w.rev == s.shared.kv.last + 1 && w.author == h && HoldsRecord(w, Written(ev, got));
    hide *;
    InvParts(st, s);
    InvLocal(st, s, h);
    UpdatePre(st, s.shared, h, ev, n, got, rev);
    UpdateFaultNext(st, s, h, ch, ev, n, got, rev);
    AloneIffCurrent(s, uid);
    if ch.fault.NotApplied? {
      FaultEvidence(st, s.shared, h, ev);
      UpdateLostLocal(st, MarkFault(s.shared, h, NotApplied), h, ev);
      QuietStep(st, s, h, MarkFault(s.shared, h, NotApplied), ADone(UpdateLost(ev, Written(ev, got))));
    } else if LastRev(s.shared.kv, uid) != rev {
      UpdateRetry(st, s.shared, h, ev);
      QuietStep(st, s, h, s.shared, ResumeUpdate(ev, n, got, Mismatch));
    } else {
      UpdateNext(st, s, h, ch, ev, n, got, rev);
      AcceptStep(st, s, h, ev, ch.fault, w, AfterUpdate(ev, got, ch.fault));
    }
  }

  lemma UpdateLostLocal(st: Settings, sh: Shared, h: nat, ev: Evidence)
    requires EvidenceInv(st, sh, ev) && h in sh.faulty
    ensures LocalInv(st, sh, h, ADone(UpdateLost(ev, Written(ev, ev.rec))))
  {
    hide EvidenceInv, Written;
  }

  // ---------------------------------------------------------------- re-read and publish

  lemma RereadNext(st: Settings, s: Sys, h: nat, ch: Choice, ev: Evidence, wrote: InviteRecord)
    requires CanStep(st, s, h, ch) && s.procs[h] == AReread(ev, wrote)
    ensures var l2 := ResumeReread(ev, wrote, GetAnswer(s.shared, ev.evt.inviteUID, ch.fault));
            && StepOf(st, s, h, ch) == Moved(s, h, AfterGet(s.shared, h, ch.fault), l2)
            && Running(s.procs[h]) && Keeps(s.procs[h], l2) && ExpectedSends(st, l2) == ExpectedSends(st, s.procs[h])
            && !IsSender(l2)
  {
    hide Current, LiveKey, DomainToAPIInvite;
  }

  lemma ViewOfAccepted(ev: Evidence)
    ensures DomainToAPIInvite(Written(ev, ev.rec)).(status := ApiAccepted) == DomainToAPIInvite(Written(ev, ev.rec))
  {
  }

  lemma RereadPost(st: Settings, sh: Shared, h: nat, ev: Evidence, wrote: InviteRecord, r: GetResult)
    requires EvidenceInv(st, sh, ev) && MarkWritten(sh, h, ev, wrote)
    requires DomainToAPIInvite(wrote).(status := ApiAccepted) == DomainToAPIInvite(wrote)
    requires r.Found? ==> r.entry.value == Rec(wrote)
    requires r.Found? || h in sh.faulty || HasTombstone(P(sh, ev.evt.inviteUID))
    ensures LocalInv(st, sh, h, ResumeReread(ev, wrote, r))
  {
    hide EvidenceInv, MarkWritten, DomainToAPIInvite, HasTombstone, P;
  }

  lemma RereadLocal(st: Settings, s: Sys, h: nat, ev: Evidence, wrote: InviteRecord, f: Fault)
    requires LocalInv(st, s.shared, h, AReread(ev, wrote)) && KeysInv(s)
    ensures LocalInv(st, AfterGet(s.shared, h, f), h, ResumeReread(ev, wrote, GetAnswer(s.shared, ev.evt.inviteUID, f)))
  {
    hide Current, LiveKey, KeyInv, EvidenceInv, MarkWritten, DomainToAPIInvite, Written, Hist, LocalInv, ResumeReread,
      Grows, HasTombstone, AfterGet, P, SameBucket;
    var uid, sh2 := ev.evt.inviteUID, AfterGet(s.shared, h, f);
    RereadPre(st, s.shared, h, ev, wrote);
    ViewOfAccepted(ev);
    AfterGetGrows(s.shared, h, f);
    EvidenceStable(st, s.shared, sh2, ev);
    MarkStable(s.shared, sh2, h, ev, wrote);
    FailedRead(s.shared, h, ev, wrote, f);
    if f.NoFault? && LiveKey(s.shared.kv, uid) {
      LiveInHist(s.shared.kv, uid);
      RereadOwn(s, h, ev, wrote);
    }
    RereadPost(st, sh2, h, ev, wrote, GetAnswer(s.shared, uid, f));
  }

  /** An accepted record is unreadable only after a failed call or a delete. */
  lemma FailedRead(sh: Shared, h: nat, ev: Evidence, wrote: InviteRecord, f: Fault)
    requires MarkWritten(sh, h, ev, wrote)
    ensures var sh2 := AfterGet(sh, h, f);
            (f.NoFault? && LiveKey(sh.kv, ev.evt.inviteUID))
            || h in sh2.faulty || HasTombstone(P(sh2, ev.evt.inviteUID))
  {
    hide Written;
    var w := P(sh, ev.evt.inviteUID);
    assert w[|w| - 1].Tombstone? || LiveKey(sh.kv, ev.evt.inviteUID);
  }

  lemma RereadPre(st: Settings, sh: Shared, h: nat, ev: Evidence, wrote: InviteRecord)
    requires LocalInv(st, sh, h, AReread(ev, wrote))
    ensures EvidenceInv(st, sh, ev) && MarkWritten(sh, h, ev, wrote) && ev.evt.inviteUID in sh.minted
    ensures wrote == Written(ev, ev.rec)
  {
    hide Admits, Written, HoldsRecord;
  }

  lemma StepReread(st: Settings, s: Sys, h: nat, ch: Choice)
    requires Inv(st, s) && CanStep(st, s, h, ch) && s.procs[h].AReread?
    ensures Inv(st, StepOf(st, s, h, ch))
  {
    var AReread(ev, wrote) := s.procs[h];
    hide *;
    InvParts(st, s);
    InvLocal(st, s, h);
    RereadNext(st, s, h, ch, ev, wrote);
    RereadLocal(st, s, h, ev, wrote, ch.fault);
    var l2 := ResumeReread(ev, wrote, GetAnswer(s.shared, ev.evt.inviteUID, ch.fault));
    QuietGet(st, s, h, ch.fault, l2);
    QuietStep(st, s, h, AfterGet(s.shared, h, ch.fault), l2);
  }

  predicate PublishedNow(sh: Shared, sh2: Shared, p: Publication) {
    sh2 == sh.(published := sh.published + [p])
  }

  lemma PublishedAppend(s: Sys, h: nat, sh2: Shared, l2: Local, p: Publication)
    requires PublishedInv(s) && h in s.procs && Running(s.procs[h]) && PublishedNow(s.shared, sh2, p) && p.handler == h
    requires l2.ADone? && l2.acceptEnd.Published? && l2.acceptEnd.invite == p.invite
    ensures PublishedInv(Moved(s, h, sh2, l2))
  {
    var s2 := Moved(s, h, sh2, l2);
    var old_ := s.shared.published;
    assert forall i | 0 <= i < |old_| :: PublicationInv(s.procs, old_[i]) && old_[i].handler != h;
  }

  lemma PublishStep(st: Settings, s: Sys, h: nat, sh2: Shared, l2: Local, p: Publication)
    requires Inv(st, s) && h in s.procs && Running(s.procs[h]) && PublishedNow(s.shared, sh2, p) && p.handler == h
    requires l2.ADone? && l2.acceptEnd.Published? && l2.acceptEnd.invite == p.invite
    requires Keeps(s.procs[h], l2) && ExpectedSends(st, l2) == ExpectedSends(st, s.procs[h])
    requires LocalInv(st, sh2, h, l2)
    ensures Inv(st, Moved(s, h, sh2, l2))
  {
    hide LocalInv, OwnersInv, KeysInv, TokensInv, SendsInv, PublishedInv, LocalsInv, BucketOk, Grows, OthersRely, Keeps,
      UidOf, ExpectedSends;
    SameBucketRely(s, h, sh2);
    SameBucketKeys(s, h, sh2, l2);
    OwnersKept(s, h, sh2, l2);
    TokensKept(st, s, h, sh2, l2);
    SendsKept(st, s, h, sh2, l2);
    PublishedAppend(s, h, sh2, l2, p);
    Assemble(st, s, h, sh2, l2);
  }

  lemma PublishNext(st: Settings, s: Sys, h: nat, ch: Choice, ev: Evidence, wrote: InviteRecord, inv: Invite)
    requires CanStep(st, s, h, ch) && s.procs[h] == APublish(ev, wrote, inv)
    ensures var p, l2 := Publication(h, inv), ADone(Published(ev, wrote, inv));
            var sh2 := s.shared.(published := s.shared.published + [p]);
            && StepOf(st, s, h, ch) == Moved(s, h, sh2, l2) && PublishedNow(s.shared, sh2, p) && Running(s.procs[h])
            && Keeps(s.procs[h], l2) && ExpectedSends(st, l2) == ExpectedSends(st, s.procs[h])
  {
  }

  lemma PublishLocal(st: Settings, sh: Shared, sh2: Shared, h: nat, ev: Evidence, wrote: InviteRecord, inv: Invite)
    requires LocalInv(st, sh, h, APublish(ev, wrote, inv)) && PublishedNow(sh, sh2, Publication(h, inv))
    ensures LocalInv(st, sh2, h, ADone(Published(ev, wrote, inv)))
  {
    hide Admits, Written, HoldsRecord, DomainToAPIInvite;
  }

  lemma StepPublish(st: Settings, s: Sys, h: nat, ch: Choice)
    requires Inv(st, s) && CanStep(st, s, h, ch) && s.procs[h].APublish?
    ensures Inv(st, StepOf(st, s, h, ch))
  {
    var APublish(ev, wrote, inv) := s.procs[h];
    var p := Publication(h, inv);
    var sh2 := s.shared.(published := s.shared.published + [p]);
    hide *;
    InvLocal(st, s, h);
    PublishNext(st, s, h, ch, ev, wrote, inv);
    PublishLocal(st, s.shared, sh2, h, ev, wrote, inv);
    PublishStep(st, s, h, sh2, ADone(Published(ev, wrote, inv)), p);
  }
}
