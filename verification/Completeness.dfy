/** From a successful send to an accepted invite: an undisturbed acceptance of the e-mailed token goes
    through. */
module Completeness {
  import opened Base
  import opened Model
  import opened Auth
  import opened KeyValue
  import opened Protocol
  import opened Lifecycle
  import opened Preservation
  import opened SendSteps
  import opened SagaSteps
  import opened Runs
  import opened Theorems

  /** Every call succeeds. */
  const FINE := Choice(NoFault, "", true, false)

  /** Some time passes, then handler a performs its next action successfully. */
  function Nudge(d: Deployment, s: Sys, a: nat, n: nat): Sys {
    Apply(d, Apply(d, s, Tick(n)), Step(a, FINE))
  }

  function Steps(a: nat, ticks: seq<nat>): seq<Event> {
    if ticks == [] then [] else Steps(a, ticks[..|ticks| - 1]) + [Tick(ticks[|ticks| - 1]), Step(a, FINE)]
  }

  /** The events of one acceptance attempt, with the given pauses before its actions. */
  function Attempt(a: nat, evt: AcceptedEvent, ticks: seq<nat>): seq<Event> {
    [SpawnAccept(a, evt)] + Steps(a, ticks)
  }

  function Sum(ticks: seq<nat>): nat {
    if ticks == [] then 0 else Sum(ticks[..|ticks| - 1]) + ticks[|ticks| - 1]
  }

  function Drive(d: Deployment, s: Sys, a: nat, ticks: seq<nat>): Sys {
    if ticks == [] then s else Nudge(d, Drive(d, s, a, ticks[..|ticks| - 1]), a, ticks[|ticks| - 1])
  }

  lemma {:induction false} StepsDrive(d: Deployment, s: Sys, a: nat, ticks: seq<nat>)
    ensures Run(d, s, Steps(a, ticks)) == Drive(d, s, a, ticks)
  {
    if ticks == [] {
    } else {
      var before, n := ticks[..|ticks| - 1], ticks[|ticks| - 1];
      StepsDrive(d, s, a, before);
      TwoMore(d, s, Steps(a, before), Tick(n), Step(a, FINE));
      hide Apply;
    }
  }

  lemma TwoMore(d: Deployment, s: Sys, es: seq<Event>, e: Event, f: Event)
    ensures Run(d, s, es + [e, f]) == Apply(d, Apply(d, Run(d, s, es), e), f)
  {
    hide Apply;
    assert (es + [e, f])[..|es| + 1] == es + [e];
    assert (es + [e])[..|es|] == es;
  }

  /** s, with handler a at l, a clock and a bucket of its own. */
  function At(s: Sys, a: nat, l: Local, clock: int, kv: Bucket): Sys {
    Sys(s.shared.(clock := clock, kv := kv), s.procs[a := l])
  }

  lemma NudgeNow(d: Deployment, s: Sys, a: nat, l: Local, c: int, kv: Bucket, n: nat, l2: Local)
    requires Running(l) && Call(d.st, l) == Now && Resume(d.st, l, Time(c + n)) == l2
    ensures Nudge(d, At(s, a, l, c, kv), a, n) == At(s, a, l2, c + n, kv)
  {
    hide Call, Resume, Running;
  }

  lemma NudgeGet(d: Deployment, s: Sys, a: nat, l: Local, c: int, kv: Bucket, n: nat, k: string, l2: Local)
    requires Running(l) && Call(d.st, l) == Get(k) && LiveKey(kv, k)
    requires Resume(d.st, l, Got(Found(Current(kv, k).value))) == l2
    ensures Nudge(d, At(s, a, l, c, kv), a, n) == At(s, a, l2, c + n, kv)
  {
    hide Call, Resume, Running, LiveKey, Current;
  }

  lemma NudgeUpdate(d: Deployment, s: Sys, a: nat, l: Local, c: int, kv: Bucket, n: nat, k: string, v: Value, rev: nat,
                    l2: Local)
    requires Running(l) && Call(d.st, l) == Update(k, v, rev) && LastRev(kv, k) == rev
    requires Resume(d.st, l, UpdateDone(Updated)) == l2
    ensures Nudge(d, At(s, a, l, c, kv), a, n) == At(s, a, l2, c + n, KvPut(kv, k, v, a))
  {
    hide Call, Resume, Running, LastRev, KvPut;
  }

  function Nudge4(d: Deployment, s: Sys, a: nat, n0: nat, n1: nat, n2: nat, n3: nat): Sys {
    Nudge(d, Nudge(d, Nudge(d, Nudge(d, s, a, n0), a, n1), a, n2), a, n3)
  }

  /** A pending, current record that carries rec. */
  predicate PendingAt(kv: Bucket, uid: string, rec: InviteRecord, rev: nat) {
    Current(kv, uid) == Some(Entry(Rec(rec), rev)) && LastRev(kv, uid) == rev && rec.status == Pending
  }

  lemma NudgeRead(d: Deployment, s: Sys, a: nat, evt: AcceptedEvent, rec: InviteRecord, rev: nat, c: int, n: nat)
    requires PendingAt(s.shared.kv, evt.inviteUID, rec, rev)
    ensures Nudge(d, At(s, a, ARead(evt), c, s.shared.kv), a, n) == At(s, a, AClock(evt, rec), c + n, s.shared.kv)
  {
    hide Current, LastRev, Nudge, At;
    NudgeGet(d, s, a, ARead(evt), c, s.shared.kv, n, evt.inviteUID, AClock(evt, rec));
  }

  lemma NudgeAClock(d: Deployment, s: Sys, a: nat, evt: AcceptedEvent, rec: InviteRecord, c: int, n: nat)
    requires evt.token.Presented? && c + n < rec.expiresAt
    ensures Nudge(d, At(s, a, AClock(evt, rec), c, s.shared.kv), a, n) ==
            At(s, a, AVerify(evt, rec, c + n), c + n, s.shared.kv)
  {
    hide Nudge, At;
    NudgeNow(d, s, a, AClock(evt, rec), c, s.shared.kv, n, AVerify(evt, rec, c + n));
  }

  lemma NudgeVerify(d: Deployment, s: Sys, a: nat, evt: AcceptedEvent, rec: InviteRecord, now: int, c: int, n: nat)
    requires Admits(d.st, evt, rec, c + n)
    ensures Nudge(d, At(s, a, AVerify(evt, rec, now), c, s.shared.kv), a, n)
            == At(s, a, AMarkGet(Evidence(evt, rec, now, c + n), 0), c + n, s.shared.kv)
  {
    hide Nudge, At, Admits;
    NudgeNow(d, s, a, AVerify(evt, rec, now), c, s.shared.kv, n, AMarkGet(Evidence(evt, rec, now, c + n), 0));
  }

  lemma NudgeMarkGet(d: Deployment, s: Sys, a: nat, ev: Evidence, rec: InviteRecord, rev: nat, c: int, n: nat)
    requires PendingAt(s.shared.kv, ev.evt.inviteUID, rec, rev) && ev.at < rec.expiresAt
    ensures Nudge(d, At(s, a, AMarkGet(ev, 0), c, s.shared.kv), a, n) ==
            At(s, a, AMarkClock(ev, 0, rec, rev), c + n, s.shared.kv)
  {
    hide Current, LastRev, Nudge, At;
    NudgeGet(d, s, a, AMarkGet(ev, 0), c, s.shared.kv, n, ev.evt.inviteUID, AMarkClock(ev, 0, rec, rev));
  }

  lemma NudgeMarkClock(d: Deployment, s: Sys, a: nat, ev: Evidence, rec: InviteRecord, rev: nat, c: int, n: nat)
    requires c + n < rec.expiresAt
    ensures Nudge(d, At(s, a, AMarkClock(ev, 0, rec, rev), c, s.shared.kv), a, n)
            == At(s, a, AMarkUpdate(ev, 0, rec, rev), c + n, s.shared.kv)
  {
    hide Nudge, At;
    NudgeNow(d, s, a, AMarkClock(ev, 0, rec, rev), c, s.shared.kv, n, AMarkUpdate(ev, 0, rec, rev));
  }

  lemma NudgeMarkUpdate(d: Deployment, s: Sys, a: nat, ev: Evidence, rec: InviteRecord, rev: nat, c: int, n: nat)
    requires PendingAt(s.shared.kv, ev.evt.inviteUID, rec, rev)
    ensures Nudge(d, At(s, a, AMarkUpdate(ev, 0, rec, rev), c, s.shared.kv), a, n)
            == At(s, a, AReread(ev, Written(ev, rec)), c + n,
                  KvPut(s.shared.kv, ev.evt.inviteUID, Rec(Written(ev, rec)), a))
  {
    hide Current, LastRev, Nudge, At, KvPut, Written;
    var wrote := Written(ev, rec);
    NudgeUpdate(d, s, a, AMarkUpdate(ev, 0, rec, rev), c, s.shared.kv, n, ev.evt.inviteUID, Rec(wrote),
                rev, AReread(ev, wrote));
  }

  lemma NudgeReread(d: Deployment, s: Sys, a: nat, ev: Evidence, rec: InviteRecord, c: int, n: nat)
    ensures var wrote := Written(ev, rec);
            var kv2 := KvPut(s.shared.kv, ev.evt.inviteUID, Rec(wrote), a);
            Nudge(d, At(s, a, AReread(ev, wrote), c, kv2), a, n)
            == At(s, a, APublish(ev, wrote, DomainToAPIInvite(wrote)), c + n, kv2)
  {
    PutIsCurrent(s.shared.kv, ev.evt.inviteUID, Rec(Written(ev, rec)), a);
    AcceptedView(ev, rec);
    hide Current, Nudge, At, KvPut, Written, LiveKey, DomainToAPIInvite;
    var wrote := Written(ev, rec);
    NudgeGet(d, s, a, AReread(ev, wrote), c, KvPut(s.shared.kv, ev.evt.inviteUID, Rec(wrote), a), n, ev.evt.inviteUID,
             APublish(ev, wrote, DomainToAPIInvite(wrote)));
  }

  /** The first four actions: read, clock, verification, the read of MarkAccepted. */
  lemma ChecksPass(d: Deployment, s: Sys, a: nat, evt: AcceptedEvent, rec: InviteRecord, rev: nat, c: int, n0: nat,
                   n1: nat, n2: nat, n3: nat)
    requires PendingAt(s.shared.kv, evt.inviteUID, rec, rev) && evt.token.Presented?
    requires c + n0 + n1 < rec.expiresAt && Admits(d.st, evt, rec, c + n0 + n1 + n2)
    ensures var ev := Evidence(evt, rec, c + n0 + n1, c + n0 + n1 + n2);
            Nudge4(d, At(s, a, ARead(evt), c, s.shared.kv), a, n0, n1, n2, n3)
            == At(s, a, AMarkClock(ev, 0, rec, rev), c + n0 + n1 + n2 + n3, s.shared.kv)
  {
    hide Admits, PendingAt, Nudge, At;
    var ev := Evidence(evt, rec, c + n0 + n1, c + n0 + n1 + n2);
    NudgeRead(d, s, a, evt, rec, rev, c, n0);
    NudgeAClock(d, s, a, evt, rec, c + n0, n1);
    NudgeVerify(d, s, a, evt, rec, c + n0 + n1, c + n0 + n1, n2);
    NudgeMarkGet(d, s, a, ev, rec, rev, c + n0 + n1 + n2, n3);
  }

  /** The remaining four: clock, conditional update, re-read, publish. */
  lemma MarkSucceeds(d: Deployment, s: Sys, a: nat, ev: Evidence, rec: InviteRecord, rev: nat, c: int, n0: nat, n1: nat,
                     n2: nat, n3: nat)
    requires PendingAt(s.shared.kv, ev.evt.inviteUID, rec, rev) && c + n0 < rec.expiresAt
    ensures Nudge4(d, At(s, a, AMarkClock(ev, 0, rec, rev), c, s.shared.kv), a, n0, n1, n2, n3)
            == Outcome(s, a, ev, rec, c + n0 + n1 + n2 + n3)
  {
    hide PendingAt, Nudge, At, KvPut, Written, DomainToAPIInvite;
    var wrote := Written(ev, rec);
    var kv2 := KvPut(s.shared.kv, ev.evt.inviteUID, Rec(wrote), a);
    NudgeMarkClock(d, s, a, ev, rec, rev, c, n0);
    NudgeMarkUpdate(d, s, a, ev, rec, rev, c + n0, n1);
    NudgeReread(d, s, a, ev, rec, c + n0 + n1, n2);
    NudgePublish(d, s, a, ev, wrote, DomainToAPIInvite(wrote), c + n0 + n1 + n2, kv2, n3);
  }

  /** The state after an acceptance that went through. */
  function Outcome(s: Sys, a: nat, ev: Evidence, rec: InviteRecord, c: int): Sys {
    var wrote := Written(ev, rec);
    var inv := DomainToAPIInvite(wrote);
    At(Sys(s.shared.(published := s.shared.published + [Publication(a, inv)]), s.procs), a,
       ADone(Published(ev, wrote, inv)), c, KvPut(s.shared.kv, ev.evt.inviteUID, Rec(wrote), a))
  }

  lemma NudgePublish(d: Deployment, s: Sys, a: nat, ev: Evidence, wrote: InviteRecord, inv: Invite, c: int, kv: Bucket,
                     n: nat)
    ensures Nudge(d, At(s, a, APublish(ev, wrote, inv), c, kv), a, n)
            == At(Sys(s.shared.(published := s.shared.published + [Publication(a, inv)]), s.procs), a,
                  ADone(Published(ev, wrote, inv)), c + n, kv)
  {
  }

  lemma PutIsCurrent(b: Bucket, k: string, v: Value, a: nat)
    ensures Current(KvPut(b, k, v, a), k) == Some(Entry(v, b.last + 1)) && LiveKey(KvPut(b, k, v, a), k)
  {
  }

  lemma AcceptedView(ev: Evidence, rec: InviteRecord)
    ensures DomainToAPIInvite(Written(ev, rec)).(status := ApiAccepted) == DomainToAPIInvite(Written(ev, rec))
    ensures Written(ev, rec).status == Accepted
  {
  }

  /** An admissible acceptance event for a sent invite: the e-mailed token, the UID, and the recipient's
      own username where the record names one. */
  predicate Admissible(st: Settings, i: Issued, evt: AcceptedEvent) {
    && evt.inviteUID == i.uid && evt.username != ""
    && evt.token == Presented(EmailOf(st, i).inviteLink.token)
    && (RecordOf(i).recipient.username != "" ==> evt.username == RecordOf(i).recipient.username)
  }

  lemma AdmissibleAdmitted(st: Settings, sh: Shared, h: nat, i: Issued, evt: AcceptedEvent, vt: int)
    requires IssuedInv(st, sh, h, i) && i.uid != "" && Admissible(st, i, evt)
    requires i.mintedAt <= vt <= RecordOf(i).expiresAt
    ensures Admits(st, evt, RecordOf(i), vt) && Unforged(st, sh, evt.token) && evt.token.Presented?
  {
    hide Verify, MintedClaims, AcceptedClaims, ClaimsAdmissible;
    RecordMatchesMint(st, sh, h, i);
    TokenOutlivesRecord(st.secret, LinkPayloadOf(i.p), i.uid, i.mintedAt, vt);
  }

  /** The record of a sent invite that nobody has accepted yet. */
  predicate NotYetAccepted(sh: Shared, i: Issued) {
    |P(sh, i.uid)| == 1
  }

  /** The e-mail has been handed over and the record has not been deleted: the send succeeded, or it was
      reported failed and the rollback has not deleted the record yet. */
  predicate Outstanding(l: Local, i: Issued) {
    l == SDone(Sent(i)) || l == SDelGet(i) || (l.SDelRecord? && l.i == i)
  }

  lemma OutstandingInvite(st: Settings, s: Sys, h: nat, i: Issued)
    requires Inv(st, s) && h in s.procs && Outstanding(s.procs[h], i)
    ensures IssuedInv(st, s.shared, h, i) && Alive(s.shared, i)
  {
    hide Inv, LocalInv, IssuedInv, Alive, Outstanding;
    InvLocal(st, s, h);
    OutstandingLocal(st, s.shared, h, s.procs[h], i);
  }

  lemma OutstandingLocal(st: Settings, sh: Shared, h: nat, l: Local, i: Issued)
    requires LocalInv(st, sh, h, l) && Outstanding(l, i)
    ensures IssuedInv(st, sh, h, i) && Alive(sh, i)
  {
    hide IssuedInv, Alive, Indexed, RecordOf, EmailOf, P;
  }

  lemma OutstandingIsPending(st: Settings, s: Sys, h: nat, i: Issued)
    requires Inv(st, s) && h in s.procs && Outstanding(s.procs[h], i) && NotYetAccepted(s.shared, i)
    ensures IssuedInv(st, s.shared, h, i) && i.uid != ""
    ensures PendingAt(s.shared.kv, i.uid, RecordOf(i), LastRev(s.shared.kv, i.uid))
  {
    OutstandingInvite(st, s, h, i);
    SentRecord(st, s.shared, h, i);
    hide Inv, IssuedInv, RecordOf, Alive, Outstanding;
    InvOwnerOf(st, s, h, i);
  }

  lemma InvOwnerOf(st: Settings, s: Sys, h: nat, i: Issued)
    requires Inv(st, s) && IssuedInv(st, s.shared, h, i)
    ensures i.uid != ""
  {
    IssuedMinted(st, s.shared, h, i);
    hide Inv, IssuedInv, IKey, IndexKeyOf;
    InvOwner(st, s, i.uid);
  }

  lemma SentRecord(st: Settings, sh: Shared, h: nat, i: Issued)
    requires IssuedInv(st, sh, h, i) && Alive(sh, i) && |P(sh, i.uid)| == 1
    ensures PendingAt(sh.kv, i.uid, RecordOf(i), LastRev(sh.kv, i.uid))
  {
    RecordMatchesMint(st, sh, h, i);
    hide IssuedInv, RecordOf, MatchesMint;
  }

  lemma EightDrives(d: Deployment, s: Sys, a: nat, ticks: seq<nat>)
    requires |ticks| == 8
    ensures Drive(d, s, a, ticks) ==
            Nudge4(d, Nudge4(d, s, a, ticks[0], ticks[1], ticks[2], ticks[3]), a,
                   ticks[4], ticks[5], ticks[6], ticks[7])
  {
    hide Nudge;
    assert ticks[..7] == ticks[..8][..7];
    assert ticks[..7][..6] == ticks[..6] && ticks[..6][..5] == ticks[..5] && ticks[..5][..4] == ticks[..4];
    assert ticks[..4][..3] == ticks[..3] && ticks[..3][..2] == ticks[..2] && ticks[..2][..1] == ticks[..1];
    assert ticks[..1][..0] == [];
    assert Drive(d, s, a, ticks[..1]) == Nudge(d, s, a, ticks[0]);
    assert Drive(d, s, a, ticks[..2]) == Nudge(d, Drive(d, s, a, ticks[..1]), a, ticks[1]);
    assert Drive(d, s, a, ticks[..3]) == Nudge(d, Drive(d, s, a, ticks[..2]), a, ticks[2]);
    assert Drive(d, s, a, ticks[..5]) == Nudge(d, Drive(d, s, a, ticks[..4]), a, ticks[4]);
    assert Drive(d, s, a, ticks[..6]) == Nudge(d, Drive(d, s, a, ticks[..5]), a, ticks[5]);
    assert Drive(d, s, a, ticks[..7]) == Nudge(d, Drive(d, s, a, ticks[..6]), a, ticks[6]);
  }

  lemma EightSum(ticks: seq<nat>)
    requires |ticks| == 8
    ensures Sum(ticks) == ticks[0] + ticks[1] + ticks[2] + ticks[3] + ticks[4] + ticks[5] + ticks[6] + ticks[7]
  {
    assert ticks[..7][..6] == ticks[..6] && ticks[..6][..5] == ticks[..5] && ticks[..5][..4] == ticks[..4];
    assert ticks[..4][..3] == ticks[..3] && ticks[..3][..2] == ticks[..2] && ticks[..2][..1] == ticks[..1];
    assert ticks[..1][..0] == [];
    assert Sum(ticks[..1]) == ticks[0];
    assert Sum(ticks[..2]) == Sum(ticks[..1]) + ticks[1];
    assert Sum(ticks[..3]) == Sum(ticks[..2]) + ticks[2];
    assert Sum(ticks[..4]) == Sum(ticks[..3]) + ticks[3];
    assert Sum(ticks[..5]) == Sum(ticks[..4]) + ticks[4];
    assert Sum(ticks[..6]) == Sum(ticks[..5]) + ticks[5];
    assert Sum(ticks[..7]) == Sum(ticks[..6]) + ticks[6];
  }

  /** What an acceptance that went through leaves: the record accepted by that user, and one publication
      of exactly that record. */
  predicate AcceptedBy(s: Sys, s2: Sys, a: nat, i: Issued, username: string) {
    && a in s2.procs && s2.procs[a].ADone? && s2.procs[a].acceptEnd.Published?
    && var wrote := s2.procs[a].acceptEnd.wrote;
    && wrote == AcceptRecord(RecordOf(i), username, s2.procs[a].acceptEnd.ev.at)
    && Current(s2.shared.kv, i.uid).Some? && Current(s2.shared.kv, i.uid).value.value == Rec(wrote)
    && s2.shared.published == s.shared.published + [Publication(a, DomainToAPIInvite(wrote))]
  }

  lemma AttemptSucceeds(d: Deployment, s: Sys, h: nat, i: Issued, a: nat, evt: AcceptedEvent, ticks: seq<nat>)
    requires Inv(d.st, s) && h in s.procs && Outstanding(s.procs[h], i) && NotYetAccepted(s.shared, i)
    requires a !in s.procs && Admissible(d.st, i, evt)
    requires |ticks| == 8 && s.shared.clock + Sum(ticks) < RecordOf(i).expiresAt
    ensures var s1 := At(s, a, ARead(evt), s.shared.clock, s.shared.kv);
            AcceptedBy(s, Drive(d, s1, a, ticks), a, i, evt.username)
  {
    hide *;
    var s1, c, rec := At(s, a, ARead(evt), s.shared.clock, s.shared.kv), s.shared.clock, RecordOf(i);
    var rev := LastRev(s.shared.kv, i.uid);
    var vt := c + ticks[0] + ticks[1] + ticks[2];
    var c4 := vt + ticks[3];
    var ev := Evidence(evt, rec, c + ticks[0] + ticks[1], vt);
    EightSum(ticks);
    MintedBefore(d.st, s, h, i);
    AdmissibleUid(d.st, i, evt);
    OutstandingIsPending(d.st, s, h, i);
    AdmissibleAdmitted(d.st, s.shared, h, i, evt, vt);
    EightDrives(d, s1, a, ticks);
    ChecksPass(d, s, a, evt, rec, rev, c, ticks[0], ticks[1], ticks[2], ticks[3]);
    MarkSucceeds(d, s, a, ev, rec, rev, c4, ticks[4], ticks[5], ticks[6], ticks[7]);
    OutcomeHolds(s, a, i, evt, ev, rec, c4 + ticks[4] + ticks[5] + ticks[6] + ticks[7]);
  }

  lemma AdmissibleUid(st: Settings, i: Issued, evt: AcceptedEvent)
    requires Admissible(st, i, evt)
    ensures evt.inviteUID == i.uid && evt.username != ""
  {
  }

  lemma OutcomeHolds(s: Sys, a: nat, i: Issued, evt: AcceptedEvent, ev: Evidence, rec: InviteRecord, c: int)
    requires rec == RecordOf(i) && ev.evt == evt && evt.inviteUID == i.uid
    ensures AcceptedBy(s, Outcome(s, a, ev, rec, c), a, i, evt.username)
  {
    PutIsCurrent(s.shared.kv, i.uid, Rec(Written(ev, rec)), a);
    hide RecordOf, KvPut, Current, DomainToAPIInvite;
  }

  lemma MintedBefore(st: Settings, s: Sys, h: nat, i: Issued)
    requires Inv(st, s) && h in s.procs && Outstanding(s.procs[h], i)
    ensures i.mintedAt <= s.shared.clock
  {
    OutstandingInvite(st, s, h, i);
    hide Inv, RecordOf, Alive, TokenOf, ClaimsAdmissible, LinkPayloadOf, Outstanding;
  }

  lemma SpawnedAt(d: Deployment, s: Sys, a: nat, evt: AcceptedEvent)
    requires a !in s.procs && Unforged(d.st, s.shared, evt.token) && evt.inviteUID != "" && evt.username != ""
    ensures Apply(d, s, SpawnAccept(a, evt)) == At(s, a, ARead(evt), s.shared.clock, s.shared.kv)
  {
  }

  lemma RunAttempt(d: Deployment, s: Sys, a: nat, evt: AcceptedEvent, ticks: seq<nat>)
    ensures Run(d, s, Attempt(a, evt, ticks)) == Drive(d, Apply(d, s, SpawnAccept(a, evt)), a, ticks)
  {
    hide Apply, Drive;
    RunSplitsFirst(d, s, SpawnAccept(a, evt), Steps(a, ticks));
    StepsDrive(d, Apply(d, s, SpawnAccept(a, evt)), a, ticks);
  }

  lemma {:induction false} RunSplitsFirst(d: Deployment, s: Sys, e: Event, es: seq<Event>)
    ensures Run(d, s, [e] + es) == Run(d, Apply(d, s, e), es)
  {
    hide Apply;
    if es == [] {
      assert [e] + es == [e] && [e][..0] == [];
    } else {
      assert ([e] + es)[..|[e] + es| - 1] == [e] + es[..|es| - 1];
      RunSplitsFirst(d, s, e, es[..|es| - 1]);
    }
  }

  /** End to end: once the e-mail has been handed over, while its record is there and nobody has accepted it,
      an acceptance event with the e-mailed token, run undisturbed and finished before the record expires,
      ends with the record accepted and exactly one publication. This covers every invite whose send was
      answered with success, and also one whose send was reported failed and is about to be rolled back. */
  lemma SentInvitesCanBeAccepted(d: Deployment, t: int, es: seq<Event>, h: nat, i: Issued, a: nat, evt: AcceptedEvent,
                                 ticks: seq<nat>)
    requires h in Run(d, Init(t), es).procs && Outstanding(Run(d, Init(t), es).procs[h], i)
    requires a !in Run(d, Init(t), es).procs && NotYetAccepted(Run(d, Init(t), es).shared, i)
    requires Admissible(d.st, i, evt)
    requires |ticks| == 8 && Run(d, Init(t), es).shared.clock + Sum(ticks) < RecordOf(i).expiresAt
    ensures var s := Run(d, Init(t), es);
            AcceptedBy(s, Run(d, s, Attempt(a, evt, ticks)), a, i, evt.username)
  {
    hide *;
    var s := Run(d, Init(t), es);
    AdmissibleUid(d.st, i, evt);
    ReachableInv(d, t, es);
    MintedBefore(d.st, s, h, i);
    OutstandingIsPending(d.st, s, h, i);
    ExpiresAfterMint(d.st, s.shared, h, i);
    AdmissibleAdmitted(d.st, s.shared, h, i, evt, i.mintedAt);
    SpawnedAt(d, s, a, evt);
    RunAttempt(d, s, a, evt, ticks);
    AttemptSucceeds(d, s, h, i, a, evt, ticks);
  }

  lemma ExpiresAfterMint(st: Settings, sh: Shared, h: nat, i: Issued)
    requires IssuedInv(st, sh, h, i)
    ensures i.mintedAt <= RecordOf(i).expiresAt
  {
    TTLExact(i.p.req.expirationDays);
    hide TTL, AcceptedClaims, TokenOf, ClaimsAdmissible;
  }
}
