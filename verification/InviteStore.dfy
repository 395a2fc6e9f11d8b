/** The invite store's contract: what each operation of the store does to the bucket and what its answer
    means, with every KV call able to fail and arbitrary other writers in between. */
module InviteStore {
  import opened Base
  import opened Model
  import opened KeyValue
  import opened Protocol
  import opened Lookup
  import opened World
  import Stability
  import KeySpace

  const MAX_RETRIES := MAX_MARK_ACCEPTED_RETRIES

  datatype Cause =
    | GetFailed | PutRecordFailed | PutIndexFailed | ListFailed | ScanInterrupted | DeleteFailed
    | RetriesExhausted | UpdateFailed(attempt: nat, mismatch: bool)

  datatype StoreError =
    | InviteNotFound | InviteAlreadyAccepted | InviteExpired
    | ServiceUnavailable(cause: Cause)
    | Unexpected

  type Outcome = Result<(), StoreError>

  function DecodeGet(g: GetResult): Result<InviteRecord, StoreError> {
    match g
    case KeyNotFound => Err(InviteNotFound)
    case GetFault => Err(ServiceUnavailable(GetFailed))
    case Found(e) => if e.value.Rec? then Ok(e.value.record) else Err(Unexpected)
  }

  // ---------------------------------------------------------------- the abstract store operations

  /** Acceptance as one atomic operation: if present, pending and unexpired at both times, then accept. */
  function AcceptOp(b: Bucket, uid: string, username: string, at: int, now: int, me: nat): (Outcome, Bucket) {
    match Current(b, uid)
    case None => (Err(InviteNotFound), b)
    case Some(e) =>
      if e.value.Idx? then (Err(Unexpected), b)
      else if e.value.record.status == Accepted then (Err(InviteAlreadyAccepted), b)
      else if at >= e.value.record.expiresAt || now >= e.value.record.expiresAt then (Err(InviteExpired), b)
      else (Ok(()), KvPut(b, uid, Rec(AcceptRecord(e.value.record, username, at)), me))
  }

  /** The answers that say something definite about the invite. */
  predicate Definite(r: Outcome) {
    r.Ok? || r.error.InviteNotFound? || r.error.InviteAlreadyAccepted? || r.error.InviteExpired? || r.error.Unexpected?
  }

  /** At action o the bucket went, or stayed, exactly as the atomic operation answering r would have it. */
  predicate LinearizedAt(o: Obs, uid: string, username: string, at: int, now: int, me: nat, r: Outcome) {
    AcceptOp(o.before.kv, uid, username, at, now, me) == (r, o.after.kv)
  }

  /** The same, for some clock reading between lo and hi. */
  ghost predicate Linearized(o: Obs, uid: string, username: string, at: int, lo: int, hi: int, me: nat, r: Outcome) {
    exists now :: lo <= now <= hi && LinearizedAt(o, uid, username, at, now, me, r)
  }

  /** An action that left the bucket alone. */
  predicate Harmless(o: Obs) {
    o.after.kv == o.before.kv
  }

  function Shifts(b: Bucket, k: string): nat {
    |Hist(b, k)|
  }

  lemma ShiftsGrow(sh: Protocol.Shared, sh2: Protocol.Shared, k: string)
    requires Env(sh, sh2)
    ensures Hist(sh.kv, k) <= Hist(sh2.kv, k) && Shifts(sh.kv, k) <= Shifts(sh2.kv, k)
  {
    hide BucketOk;
    Stability.GrowsHist(sh, sh2, k);
  }

  /** A key whose revision is no longer the one read has been written in between. */
  lemma MismatchMeansWrite(b: Bucket, b2: Bucket, k: string)
    requires BucketOk(b2) && Extends(b, b2) && LiveKey(b, k) && LastRev(b2, k) != LastRev(b, k)
    ensures Shifts(b2, k) >= Shifts(b, k) + 1
  {
    hide BucketOk;
    ExtendsHist(b, b2, k);
    assert |Hist(b2, k)| == |Hist(b, k)| ==> Hist(b2, k) == Hist(b, k);
  }

  lemma EntryRev(b: Bucket, k: string)
    requires LiveKey(b, k)
    ensures Current(b, k).value.rev == LastRev(b, k)
  {
  }

  /** If the revision read is still current at the update, so is the whole record that was read. */
  lemma ReadStillCurrent(sh: Protocol.Shared, sh2: Protocol.Shared, k: string)
    requires Env(sh, sh2) && LiveKey(sh.kv, k) && LastRev(sh2.kv, k) == Current(sh.kv, k).value.rev
    ensures Current(sh2.kv, k) == Current(sh.kv, k)
  {
    hide BucketOk, LastRev, Extends;
    EntryRev(sh.kv, k);
    SameRevisionSameHistory(sh.kv, sh2.kv, k);
  }

  /** What one Get tells the atomic operation. */
  lemma GetDecides(o: Obs, uid: string, username: string, at: int, now: int, me: nat, g: GetResult)
    requires Harmless(o)
    requires g.Found? ==> Current(o.before.kv, uid) == Some(g.entry)
    requires g.KeyNotFound? ==> !LiveKey(o.before.kv, uid)
    ensures g.KeyNotFound? ==> LinearizedAt(o, uid, username, at, now, me, Err(InviteNotFound))
    ensures g.Found? && g.entry.value.Idx? ==> LinearizedAt(o, uid, username, at, now, me, Err(Unexpected))
    ensures g.Found? && g.entry.value.Rec? ==>
              var rec := g.entry.value.record;
              && (rec.status == Accepted ==> LinearizedAt(o, uid, username, at, now, me, Err(InviteAlreadyAccepted)))
              && (rec.status != Accepted && (at >= rec.expiresAt || now >= rec.expiresAt) ==>
                    LinearizedAt(o, uid, username, at, now, me, Err(InviteExpired)))
  {
    hide KvPut;
  }

  /** A conditional update against the revision read performs the atomic acceptance at that very moment. */
  lemma UpdateDecides(got: Protocol.Shared, o: Obs, uid: string, username: string, at: int, now: int, me: nat,
                      rec: InviteRecord, rev: nat)
    requires Env(got, o.before) && Current(got.kv, uid) == Some(Entry(Rec(rec), rev)) && rec.status != Accepted
    requires at < rec.expiresAt && now < rec.expiresAt
    requires LastRev(o.before.kv, uid) == rev
    requires o.after.kv == KvPut(o.before.kv, uid, Rec(AcceptRecord(rec, username, at)), me)
    ensures LinearizedAt(o, uid, username, at, now, me, Ok(()))
  {
    hide KvPut, LastRev, Current, Env;
    CurrentIsLive(got.kv, uid);
    ReadStillCurrent(got, o.before, uid);
  }

  lemma CurrentIsLive(b: Bucket, k: string)
    ensures LiveKey(b, k) <==> Current(b, k).Some?
  {
  }

  /** A mismatch means somebody wrote the key since it was read. */
  lemma MismatchCounts(got: Protocol.Shared, before: Protocol.Shared, uid: string, e: Entry)
    requires Env(got, before) && Current(got.kv, uid) == Some(e) && LastRev(before.kv, uid) != e.rev
    ensures Shifts(before.kv, uid) >= Shifts(got.kv, uid) + 1
  {
    hide LastRev, Shifts;
    CurrentIsLive(got.kv, uid);
    EntryRev(got.kv, uid);
    MismatchMeansWrite(got.kv, before.kv, uid);
  }

  // ---------------------------------------------------------------- what the other operations promise

  predicate Wrote(o: Obs, k: string, v: Value, me: nat) {
    o.after.kv == KvPut(o.before.kv, k, v, me)
  }

  predicate Removed(o: Obs, k: string, me: nat) {
    o.after.kv == KvDelete(o.before.kv, k, me)
  }

  /** A read of key k, truthful at the moment it was made. */
  predicate ReadOk(o: Obs, k: string) {
    && o.op == Op.Get(k) && o.res.Got? && Harmless(o)
    && (o.res.get.Found? ==> Current(o.before.kv, k) == Some(o.res.get.entry))
    && (o.res.get.KeyNotFound? ==> !LiveKey(o.before.kv, k))
  }

  /** A write of v under k that was made, or that failed and may or may not have been made. */
  predicate PutOk(o: Obs, k: string, v: Value, me: nat) {
    && o.op == PutOp(k, v) && o.res.PutDone?
    && (Wrote(o, k, v, me) || (!o.res.ok && Harmless(o)))
  }

  predicate DeleteOk(o: Obs, k: string, me: nat) {
    && o.op == Op.Delete(k) && o.res.DeleteDone?
    && match o.res.delete
       case Deleted => Removed(o, k, me)
       case NothingToDelete => Harmless(o) && !LiveKey(o.before.kv, k)
       case DeleteFault => Removed(o, k, me) || Harmless(o)
  }

  function RecordIndexKey(record: InviteRecord): string {
    KeySpace.EmailIndexKey(record.recipient.email, record.uid)
  }

  /** o2 is the next action after o: between the two, and by o2 itself, the shared state was only added to. */
  predicate Next(o: Obs, o2: Obs) {
    Env(o.after, o2.before) && Env(o2.before, o2.after)
  }

  /** Create writes the record, then the index entry; when the second write fails it deletes the record
      again. It succeeds exactly when both writes were acknowledged. */
  predicate CreateContract(log0: seq<Obs>, log: seq<Obs>, me: nat, record: InviteRecord, r: Outcome) {
    var n := |log0|;
    && log0 <= log && n < |log| && PutOk(log[n], record.uid, Rec(record), me)
    && if !log[n].res.ok then |log| == n + 1 && r == Err(ServiceUnavailable(PutRecordFailed))
       else
         && n + 1 < |log| && Next(log[n], log[n + 1]) && PutOk(log[n + 1], RecordIndexKey(record), Idx(record.uid), me)
         && if log[n + 1].res.ok then |log| == n + 2 && r == Ok(())
            else |log| == n + 3 && Next(log[n + 1], log[n + 2]) && DeleteOk(log[n + 2], record.uid, me)
                 && r == Err(ServiceUnavailable(PutIndexFailed))
  }

  /** Delete reads the record, removes it and then the index entry of its e-mail. It answers as the read
      did when there was no record to read, fails when the record could not be removed, and otherwise
      succeeds, even when the index entry could not be removed. */
  predicate DeleteContract(log0: seq<Obs>, log: seq<Obs>, me: nat, uid: string, r: Outcome) {
    var n := |log0|;
    && log0 <= log && n < |log| && ReadOk(log[n], uid)
    && match DecodeGet(log[n].res.get)
       case Err(e) => |log| == n + 1 && r == Err(e)
       case Ok(record) =>
         && n + 1 < |log| && Next(log[n], log[n + 1]) && DeleteOk(log[n + 1], uid, me)
         && if log[n + 1].res.delete.DeleteFault? then |log| == n + 2 && r == Err(ServiceUnavailable(DeleteFailed))
            else |log| == n + 3 && Next(log[n + 1], log[n + 2]) && r == Ok(())
                 && DeleteOk(log[n + 2], KeySpace.EmailIndexKey(record.recipient.email, uid), me)
  }

  // ---------------------------------------------------------------- what GetByEmail promises

  type Records = Result<seq<InviteRecord>, StoreError>

  /** The reads of a lookup: one per UID, in order, each truthful at its own moment. */
  ghost predicate Reads(start: Protocol.Shared, obs: seq<Obs>, end: Protocol.Shared, uids: seq<string>) {
    && |obs| <= |uids|
    && forall i | 0 <= i < |obs| :: ReadOk(obs[i], uids[i]) && Env(start, obs[i].before) && Env(obs[i].before, end)
  }

  /** The records those reads found, skipping the missing ones; the first failure otherwise. */
  function Collect(obs: seq<Obs>): Records {
    if obs == [] then Ok([])
    else
      var found, last := Collect(obs[..|obs| - 1]), obs[|obs| - 1].res;
      if found.Err? then found
      else if !last.Got? then Err(Unexpected)
      else
        match DecodeGet(last.get)
        case Ok(record) => Ok(found.value + [record])
        case Err(e) => if e.InviteNotFound? then found else Err(e)
  }

  /** GetByEmail fails when the keys cannot be listed or the listing was interrupted; otherwise it reads
      exactly the UIDs the prefix scan of the listing yields, up to the first read that fails. */
  ghost predicate LookupContract(sh0: Protocol.Shared, log0: seq<Obs>, listed: Protocol.Shared, l: Option<Listing>,
                                 moment: map<string, Protocol.Shared>, sh: Protocol.Shared, log: seq<Obs>, email: Bytes,
                                 r: Records)
  {
    && Env(sh0, listed) && Env(listed, sh) && log0 <= log
    && var obs := log[|log0|..];
    match l
    case None => obs == [] && r == Err(ServiceUnavailable(ListFailed))
    case Some(l) =>
      && ListingOk(sh0, listed, l, moment)
      && if !l.complete then obs == [] && r == Err(ServiceUnavailable(ScanInterrupted))
         else
           && Reads(listed, obs, sh, ScanUids(l.keys, email)) && r == Collect(obs)
           && if r.Ok? then |obs| == |ScanUids(l.keys, email)|
              else obs != [] && Collect(obs[..|obs| - 1]).Ok?
  }

  // ---------------------------------------------------------------- what MarkAccepted promises

  /** An e-mail or an event going out. */
  predicate Dispatches(o: Obs) {
    o.op.Send? || o.op.Publish?
  }

  /** No e-mail and no event went out since log0. */
  ghost predicate NoDispatch(log0: seq<Obs>, log: seq<Obs>) {
    log0 <= log && forall j | |log0| <= j < |log| :: !Dispatches(log[j])
  }

  /** Since log0 nothing was written and nothing went out. */
  ghost predicate Quiet(log0: seq<Obs>, log: seq<Obs>) {
    log0 <= log && forall j | |log0| <= j < |log| :: Harmless(log[j]) && !Dispatches(log[j])
  }

  /** The attempts of MarkAccepted so far: none wrote, and each met at least one write of somebody else. */
  ghost predicate Marking(sh0: Protocol.Shared, log0: seq<Obs>, sh: Protocol.Shared, log: seq<Obs>, uid: string,
                          attempt: nat)
  {
    && Env(sh0, sh)
    && Quiet(log0, log) && |log| <= |log0| + 3 * attempt
    && Shifts(sh.kv, uid) >= Shifts(sh0.kv, uid) + attempt
  }

  /** A service-unavailable answer names the failure of the last action: a Get that failed, or an update that
      was refused for its revision or failed otherwise. The initial "retries exhausted" error is none of these. */
  predicate Blamed(r: Outcome, last: Obs) {
    r.Err? && r.error.ServiceUnavailable? ==>
      match r.error.cause
      case GetFailed => last.res == Got(GetFault)
      case UpdateFailed(_, mismatch) => last.res == UpdateDone(if mismatch then Mismatch else UpdateFault)
      case _ => false
  }

  predicate Failed(res: Res) {
    res == Got(GetFault) || res == UpdateDone(Mismatch) || res == UpdateDone(UpdateFault)
  }

  /** MarkAccepted, as seen from outside: from sh0 and log0 to sh and log, answering r. */
  ghost predicate MarkContract(sh0: Protocol.Shared, log0: seq<Obs>, sh: Protocol.Shared, log: seq<Obs>, me: nat,
                               uid: string, username: string, at: int, r: Outcome)
  {
    && Env(sh0, sh)
    // at most three actions in each of at most three passes
    && log0 <= log && |log0| < |log| <= |log0| + 3 * 3
    // unless its last call failed the answer is definite, and a definite answer is that of the atomic
    // operation at one of these actions
    && (Definite(r) <==> !Failed(log[|log| - 1].res))
    && (Definite(r) ==>
          exists j :: |log0| <= j < |log| && Linearized(log[j], uid, username, at, sh0.clock, sh.clock, me, r))
    // only the last action may write, it writes nothing but the atomic acceptance, and then the answer is
    // success or an update that failed for another reason than its revision
    && Quiet(log0, log[..|log| - 1]) && NoDispatch(log0, log)
    && var last := log[|log| - 1];
    && (r.Ok? || !Harmless(last) ==>
          Linearized(last, uid, username, at, sh0.clock, sh.clock, me, Ok(()))
          && (last.res == UpdateDone(Updated) || last.res == UpdateDone(UpdateFault)))
    && (last.res == UpdateDone(Updated) <==> r.Ok?)
    && Blamed(r, last)
    // after a final mismatch others have written the record at least three times
    && (last.res == UpdateDone(Mismatch) ==> Shifts(sh.kv, uid) >= Shifts(sh0.kv, uid) + 3)
  }

  /** An answer given without trying to write. */
  lemma AnswerWithoutWrite(sh0: Protocol.Shared, log0: seq<Obs>, sh1: Protocol.Shared, log1: seq<Obs>,
                           sh: Protocol.Shared, log: seq<Obs>, me: nat, uid: string, username: string, at: int,
                           attempt: nat, now: int, r: Outcome)
    requires Marking(sh0, log0, sh1, log1, uid, attempt) && attempt < MAX_RETRIES && Env(sh0, sh)
    requires Quiet(log1, log) && |log1| < |log| <= |log1| + 2
    requires r.Err? && (Definite(r) || r.error == ServiceUnavailable(GetFailed))
    requires log[|log| - 1].res.Time?
             || (log[|log| - 1].res.Got? && (Definite(r) <==> !log[|log| - 1].res.get.GetFault?))
    requires log[|log| - 1].res.Time? ==> Definite(r)
    requires Definite(r) ==> LinearizedAt(log[|log1|], uid, username, at, now, me, r)
    requires sh0.clock <= now <= sh.clock
    ensures MarkContract(sh0, log0, sh, log, me, uid, username, at, r)
  {
    hide Env, Linearized, LinearizedAt, Shifts, Harmless;
    if Definite(r) {
      Witness(log[|log1|], uid, username, at, sh0.clock, now, sh.clock, me, r);
    }
  }

  /** The answer after the conditional update, which is the last action. */
  lemma AnswerAtUpdate(sh0: Protocol.Shared, log0: seq<Obs>, sh1: Protocol.Shared, log1: seq<Obs>, sh: Protocol.Shared,
                       log: seq<Obs>, me: nat, uid: string, username: string, at: int, attempt: nat, now: int,
                       u: UpdateResult)
    requires Marking(sh0, log0, sh1, log1, uid, attempt) && attempt < MAX_RETRIES && Env(sh0, sh)
    requires |log| == |log1| + 3 && Quiet(log1, log[..|log1| + 2]) && log[|log1| + 2].res == UpdateDone(u)
    requires !Dispatches(log[|log1| + 2])
    requires sh0.clock <= now <= sh.clock
    requires u.Updated? ==> LinearizedAt(log[|log1| + 2], uid, username, at, now, me, Ok(()))
    requires !Harmless(log[|log1| + 2]) ==> LinearizedAt(log[|log1| + 2], uid, username, at, now, me, Ok(()))
    requires u.Mismatch? ==> Harmless(log[|log1| + 2]) && Shifts(sh.kv, uid) >= Shifts(sh0.kv, uid) + attempt + 1
    ensures u.Updated? ==> MarkContract(sh0, log0, sh, log, me, uid, username, at, Ok(()))
    ensures u.UpdateFault? || (u.Mismatch? && attempt == MAX_RETRIES - 1) ==>
              MarkContract(sh0, log0, sh, log, me, uid, username, at,
                           Err(ServiceUnavailable(UpdateFailed(attempt + 1, u.Mismatch?))))
    ensures u.Mismatch? ==> Marking(sh0, log0, sh, log, uid, attempt + 1)
  {
    hide Env, Linearized, LinearizedAt, Shifts, Harmless;
    var last := log[|log1| + 2];
    assert log == log[..|log1| + 2] + [last];
    if LinearizedAt(last, uid, username, at, now, me, Ok(())) {
      Witness(last, uid, username, at, sh0.clock, now, sh.clock, me, Ok(()));
    }
  }

  lemma AfterGet(sh0: Protocol.Shared, log0: seq<Obs>, sh1: Protocol.Shared, log1: seq<Obs>, seen: Protocol.Shared,
                 log: seq<Obs>, uid: string, attempt: nat)
    requires Marking(sh0, log0, sh1, log1, uid, attempt) && Env(sh1, seen)
    requires log1 <= log && |log| == |log1| + 1 && log[|log1|].after == seen && seen.kv == log[|log1|].before.kv
    requires !Dispatches(log[|log1|])
    ensures Env(sh0, seen) && sh0.clock <= seen.clock && Quiet(log1, log) && Harmless(log[|log1|])
    ensures Shifts(seen.kv, uid) >= Shifts(sh0.kv, uid) + attempt
  {
    hide Env, Shifts;
    EnvSteps(sh0, sh1, seen);
    ShiftsGrow(sh1, seen, uid);
  }

  lemma AfterNow(sh0: Protocol.Shared, log1: seq<Obs>, log2: seq<Obs>, seen: Protocol.Shared, clocked: Protocol.Shared,
                 log: seq<Obs>)
    requires Env(sh0, seen) && Env(seen, clocked)
    requires |log| == |log2| + 1 && log2 <= log && Quiet(log1, log2) && log[|log2|].before == log[|log2|].after
    requires !Dispatches(log[|log2|])
    ensures Env(sh0, clocked) && sh0.clock <= clocked.clock && Quiet(log1, log)
  {
    hide Env;
    EnvSteps(sh0, seen, clocked);
  }

  /** What the conditional update did, and what its answer says about the writes of others. */
  lemma AfterUpdate(sh0: Protocol.Shared, sh1: Protocol.Shared, log1: seq<Obs>, seen: Protocol.Shared,
                    clocked: Protocol.Shared, log3: seq<Obs>, sh: Protocol.Shared, log: seq<Obs>, me: nat, uid: string,
                    username: string, at: int, now: int, rec: InviteRecord, rev: nat, u: UpdateResult, attempt: nat)
    requires Env(sh0, clocked) && Env(seen, clocked) && Env(clocked, sh) && Quiet(log1, log3) && |log3| == |log1| + 2
    requires log3 <= log && |log| == |log3| + 1 && Env(clocked, log[|log3|].before) && log[|log3|].after == sh
    requires Current(seen.kv, uid) == Some(Entry(Rec(rec), rev)) && rec.status != Accepted && at < rec.expiresAt
    requires now < rec.expiresAt
    requires Shifts(seen.kv, uid) >= Shifts(sh0.kv, uid) + attempt
    requires var b := log[|log3|].before.kv;
             && (u.Updated? ==>
                    LastRev(b, uid) == rev && sh.kv == KvPut(b, uid, Rec(AcceptRecord(rec, username, at)), me))
             && (u.Mismatch? ==> LastRev(b, uid) != rev && sh.kv == b)
             && (u.UpdateFault? ==>
                   sh.kv == b
                    || (LastRev(b, uid) == rev && sh.kv == KvPut(b, uid, Rec(AcceptRecord(rec, username, at)), me)))
    ensures Env(sh0, sh) && clocked.clock <= sh.clock && Quiet(log1, log[..|log1| + 2])
    ensures var o := log[|log1| + 2];
            && (u.Updated? || !Harmless(o) ==> LinearizedAt(o, uid, username, at, now, me, Ok(())))
            && (u.Mismatch? ==> Harmless(o) && Shifts(sh.kv, uid) >= Shifts(sh0.kv, uid) + attempt + 1)
  {
    hide Env, Shifts, Current, LastRev, KvPut, LinearizedAt;
    var o := log[|log3|];
    EnvSteps(sh0, clocked, sh);
    EnvSteps(seen, clocked, o.before);
    assert log[..|log1| + 2] == log3;
    if u.Updated? || !Harmless(o) {
      UpdateDecides(seen, o, uid, username, at, now, me, rec, rev);
    }
    if u.Mismatch? {
      MismatchCounts(seen, o.before, uid, Entry(Rec(rec), rev));
    }
  }

  lemma NothingDoneYet(kv: Client, uid: string)
    requires kv.Valid()
    ensures Marking(kv.shared, kv.log, kv.shared, kv.log, uid, 0)
  {
    EnvReflexive(kv.shared);
    hide Env, Shifts;
  }

  lemma Witness(o: Obs, uid: string, username: string, at: int, lo: int, now: int, hi: int, me: nat, r: Outcome)
    requires lo <= now <= hi && LinearizedAt(o, uid, username, at, now, me, r)
    ensures Linearized(o, uid, username, at, lo, hi, me, r)
  {
    hide LinearizedAt;
  }

  lemma EnvSteps(a: Protocol.Shared, b: Protocol.Shared, c: Protocol.Shared)
    requires Env(a, b) && Env(b, c)
    ensures Env(a, c) && a.clock <= b.clock <= c.clock
  {
    EnvTransitive(a, b, c);
    hide BucketOk;
  }

  lemma EnvReflexiveAt(kv: Client)
    requires kv.Valid()
    ensures Env(kv.shared, kv.shared)
  {
    EnvReflexive(kv.shared);
    hide Env;
  }

  lemma NothingRead(start: Protocol.Shared, end: Protocol.Shared, uids: seq<string>)
    ensures Reads(start, [], end, uids) && Collect([]) == Ok([])
  {
  }

  lemma ReadOneMore(start: Protocol.Shared, before: Protocol.Shared, obs: seq<Obs>, o: Obs, end: Protocol.Shared,
                    uids: seq<string>)
    requires Reads(start, obs, before, uids) && |obs| < |uids| && ReadOk(o, uids[|obs|])
    requires Env(start, before) && Env(before, o.before) && o.after == end && Env(before, end) && Env(o.before, end)
    ensures Reads(start, obs + [o], end, uids) && Env(start, end)
  {
    hide Env, ReadOk;
    EnvTransitive(start, before, end);
    EnvTransitive(start, before, o.before);
    var obs2 := obs + [o];
    forall i | 0 <= i < |obs2|
      ensures ReadOk(obs2[i], uids[i]) && Env(start, obs2[i].before) && Env(obs2[i].before, end)
    {
      if i < |obs| {
        EnvTransitive(obs[i].before, before, end);
      }
    }
  }

  lemma CollectOneMore(obs: seq<Obs>, o: Obs, uid: string)
    requires Collect(obs).Ok? && ReadOk(o, uid)
    ensures Collect(obs + [o]) ==
            match DecodeGet(o.res.get)
            case Ok(record) => Ok(Collect(obs).value + [record])
            case Err(e) => if e.InviteNotFound? then Collect(obs) else Err(e)
  {
    assert (obs + [o])[..|obs|] == obs;
  }
}
