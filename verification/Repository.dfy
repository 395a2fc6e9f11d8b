/** NATSInviteRepository: the invite store over the key-value bucket. Every method body is the code's own
    sequence of KV calls; what it amounts to is stated by the contracts of InviteStore. */
module Repository {
  import opened Base
  import opened Model
  import opened Auth
  import opened KeyValue
  import opened Protocol
  import opened Lookup
  import opened World
  import opened InviteStore
  import Stability
  import KeySpace

  // ---------------------------------------------------------------- MarkAccepted's place in the protocol

  /** The evidence a call of MarkAccepted is made on, for these arguments. */
  predicate ForCall(ev: Evidence, uid: string, username: string, at: int) {
    ev.evt.inviteUID == uid && ev.evt.username == username && ev.at == at
  }

  /** If the program is being followed, it is MarkAccepted's n-th attempt on this evidence. */
  predicate AtMarkGet(pc: Tracker, ev: Evidence, n: nat) {
    pc.At? ==> pc.l == AMarkGet(ev, n)
  }

  predicate AtMarkClock(pc: Tracker, ev: Evidence, n: nat, rec: InviteRecord, rev: nat) {
    pc.At? ==> pc.l == AMarkClock(ev, n, rec, rev)
  }

  predicate AtMarkUpdate(pc: Tracker, ev: Evidence, n: nat, rec: InviteRecord, rev: nat) {
    pc.At? ==> pc.l == AMarkUpdate(ev, n, rec, rev)
  }

  /** Where the accept handler goes on after MarkAccepted has answered r, got being the record it last read. */
  function AfterMark(ev: Evidence, got: InviteRecord, r: Outcome): Local {
    match r
    case Ok(_) => AReread(ev, Written(ev, got))
    case Err(InviteNotFound) => ADone(Discarded(NotTracked))
    case Err(InviteAlreadyAccepted) => ADone(Discarded(AlreadyAccepted))
    case Err(InviteExpired) => ADone(Discarded(Expired))
    case Err(ServiceUnavailable(UpdateFailed(_, mismatch))) =>
      if mismatch then ADone(Discarded(Contended)) else ADone(UpdateLost(ev, Written(ev, got)))
    case Err(_) => ADone(Discarded(Unavailable))
  }

  function MarkEnd(pc: Tracker, ev: Evidence, got: InviteRecord, r: Outcome): Tracker {
    if pc.At? then At(AfterMark(ev, got, r)) else Untracked
  }

  lemma MarkGetFollows(st: Settings, pc: Tracker, ev: Evidence, n: nat)
    requires AtMarkGet(pc, ev, n)
    ensures Follows(st, pc, Op.Get(ev.evt.inviteUID))
  {
  }

  lemma MarkGetAdvances(st: Settings, pc: Tracker, ev: Evidence, n: nat, g: GetResult, got: InviteRecord)
    requires AtMarkGet(pc, ev, n)
    ensures var pc2 := Advance(st, pc, Got(g));
            match DecodeGet(g)
            case Err(e) => pc2 == MarkEnd(pc, ev, got, Err(e))
            case Ok(rec) =>
              if rec.status == Accepted then pc2 == MarkEnd(pc, ev, got, Err(InviteAlreadyAccepted))
              else if ev.at >= rec.expiresAt then pc2 == MarkEnd(pc, ev, got, Err(InviteExpired))
              else (pc2.At? <==> pc.At?) && AtMarkClock(pc2, ev, n, rec, g.entry.rev) && Follows(st, pc2, Op.Now)
  {
    hide Written;
  }

  lemma MarkClockAdvances(st: Settings, pc: Tracker, ev: Evidence, n: nat, rec: InviteRecord, rev: nat, t: int)
    requires AtMarkClock(pc, ev, n, rec, rev)
    ensures var pc2 := Advance(st, pc, Time(t));
            if t >= rec.expiresAt then pc2 == MarkEnd(pc, ev, rec, Err(InviteExpired))
            else
              && (pc2.At? <==> pc.At?) && AtMarkUpdate(pc2, ev, n, rec, rev)
              && Follows(st, pc2, Op.Update(ev.evt.inviteUID, Rec(AcceptRecord(rec, ev.evt.username, ev.at)), rev))
  {
  }

  lemma MarkUpdateAdvances(st: Settings, pc: Tracker, ev: Evidence, n: nat, rec: InviteRecord, rev: nat,
                           u: UpdateResult)
    requires AtMarkUpdate(pc, ev, n, rec, rev)
    ensures var pc2 := Advance(st, pc, UpdateDone(u));
            && (u.Updated? ==> pc2 == MarkEnd(pc, ev, rec, Ok(())))
            && (u.Mismatch? && n < MAX_RETRIES - 1 ==> (pc2.At? <==> pc.At?) && AtMarkGet(pc2, ev, n + 1))
            && (u.UpdateFault? || (u.Mismatch? && n >= MAX_RETRIES - 1) ==>
                  pc2 == MarkEnd(pc, ev, rec, Err(ServiceUnavailable(UpdateFailed(n + 1, u.Mismatch?)))))
  {
    hide Written;
  }

  // ---------------------------------------------------------------- Create's and Delete's places in the protocol

  /** If the program is being followed, it is about to create this record. */
  predicate AtCreate(pc: Tracker, record: InviteRecord) {
    pc.At? ==> pc.l.SPutRecord? && RecordOf(pc.l.i) == record
  }

  /** How the last action, a delete, was answered. */
  function LastDelete(log: seq<Obs>): DeleteResult {
    if log != [] && log[|log| - 1].res.DeleteDone? then log[|log| - 1].res.delete else DeleteFault
  }

  /** Where the sender goes on after Create, undo being the answer to Create's own delete. */
  function AfterCreate(l: Local, r: Outcome, undo: DeleteResult): Local
    requires l.SPutRecord?
  {
    match r
    case Ok(_) => SSend(l.i)
    case Err(e) =>
      if e == ServiceUnavailable(PutRecordFailed) then SDone(RecordNotPut(l.i)) else SDone(IndexNotPut(l.i, undo))
  }

  lemma RecordOfFields(i: Issued)
    ensures RecordOf(i).uid == i.uid && RecordIndexKey(RecordOf(i)) == IndexKeyOf(i)
  {
    hide ExpiresAt, AcceptedClaims, KeySpace.EmailIndexKey;
  }

  function CreateEnd(pc: Tracker, r: Outcome, undo: DeleteResult): Tracker
    requires pc.At? ==> pc.l.SPutRecord?
  {
    if pc.At? then At(AfterCreate(pc.l, r, undo)) else Untracked
  }

  lemma CreateStarts(st: Settings, pc: Tracker, record: InviteRecord)
    requires AtCreate(pc, record)
    ensures Follows(st, pc, PutOp(record.uid, Rec(record)))
  {
    if pc.At? {
      RecordOfFields(pc.l.i);
    }
    hide RecordOf, IndexKeyOf, KeySpace.EmailIndexKey;
  }

  lemma CreateSteps(st: Settings, i: Issued)
    ensures Resume(st, SPutRecord(i), PutDone(true)) == SPutIndex(i)
    ensures Resume(st, SPutRecord(i), PutDone(false)) == SDone(RecordNotPut(i))
    ensures Call(st, SPutIndex(i)) == PutOp(IndexKeyOf(i), Idx(i.uid))
    ensures Resume(st, SPutIndex(i), PutDone(true)) == SSend(i) && Resume(st, SPutIndex(i), PutDone(false)) == SUndo(i)
    ensures Call(st, SUndo(i)) == Op.Delete(i.uid)
    ensures forall d: DeleteResult :: Resume(st, SUndo(i), DeleteDone(d)) == SDone(IndexNotPut(i, d))
  {
    hide IndexKeyOf;
  }

  lemma CreateGoesOn(st: Settings, pc: Tracker, record: InviteRecord, ok: bool, undo: DeleteResult)
    requires AtCreate(pc, record)
    ensures var pc1 := Advance(st, pc, PutDone(ok));
            if ok then Follows(st, pc1, PutOp(RecordIndexKey(record), Idx(record.uid)))
            else pc1 == CreateEnd(pc, Err(ServiceUnavailable(PutRecordFailed)), undo)
  {
    hide RecordOf, IndexKeyOf, KeySpace.EmailIndexKey, Call, Resume, RecordIndexKey;
    if pc.At? {
      RecordOfFields(pc.l.i);
      CreateSteps(st, pc.l.i);
    }
  }

  lemma CreateEnds(st: Settings, pc: Tracker, record: InviteRecord, ok: bool, d: DeleteResult)
    requires AtCreate(pc, record)
    ensures var pc2 := Advance(st, Advance(st, pc, PutDone(true)), PutDone(ok));
            if ok then pc2 == CreateEnd(pc, Ok(()), d)
            else Follows(st, pc2, Op.Delete(record.uid))
                 && Advance(st, pc2, DeleteDone(d)) == CreateEnd(pc, Err(ServiceUnavailable(PutIndexFailed)), d)
  {
    hide RecordOf, IndexKeyOf, KeySpace.EmailIndexKey, Call, Resume, RecordIndexKey;
    if pc.At? {
      RecordOfFields(pc.l.i);
      CreateSteps(st, pc.l.i);
    }
  }

  /** If the program is being followed, it is about to roll this invite back. */
  predicate AtDelete(pc: Tracker, uid: string) {
    pc.At? ==> pc.l.SDelGet? && pc.l.i.uid == uid
  }

  /** How far a Delete that answered r got, last being the answer to its last delete. */
  function RollbackEndOf(r: Outcome, last: DeleteResult): RollbackEnd {
    match r
    case Ok(_) => RecordDeleted(last)
    case Err(e) => if e == ServiceUnavailable(DeleteFailed) then RecordNotDeleted else RecordNotRead
  }

  function DeleteEnd(pc: Tracker, r: Outcome, last: DeleteResult): Tracker
    requires pc.At? ==> pc.l.SDelGet?
  {
    if pc.At? then At(SDone(NotSent(pc.l.i, RollbackEndOf(r, last)))) else Untracked
  }

  lemma DeleteStarts(st: Settings, pc: Tracker, uid: string)
    requires AtDelete(pc, uid)
    ensures Follows(st, pc, Op.Get(uid))
  {
  }

  lemma DeleteGoesOn(st: Settings, pc: Tracker, uid: string, g: GetResult, last: DeleteResult)
    requires AtDelete(pc, uid)
    ensures var pc1 := Advance(st, pc, Got(g));
            match DecodeGet(g)
            case Ok(_) => Follows(st, pc1, Op.Delete(uid))
            case Err(e) => pc1 == DeleteEnd(pc, Err(e), last)
  {
  }

  lemma DeleteEnds(st: Settings, pc: Tracker, uid: string, g: GetResult, d1: DeleteResult, d2: DeleteResult)
    requires AtDelete(pc, uid) && DecodeGet(g).Ok?
    ensures var pc2 := Advance(st, Advance(st, pc, Got(g)), DeleteDone(d1));
            if d1.DeleteFault? then pc2 == DeleteEnd(pc, Err(ServiceUnavailable(DeleteFailed)), d1)
            else Follows(st, pc2, Op.Delete(KeySpace.EmailIndexKey(DecodeGet(g).value.recipient.email, uid)))
                 && Advance(st, pc2, DeleteDone(d2)) == DeleteEnd(pc, Ok(()), d2)
  {
    hide KeySpace.EmailIndexKey;
  }

  lemma PrefixIsScanPrefix(email: Bytes)
    ensures KeySpace.EMAIL_INDEX_PREFIX + KeySpace.EncodeEmailForKey(email) + "/" == KeySpace.ScanPrefix(email)
  {
    hide KeySpace.EncodeEmailForKey;
  }

  class NATSInviteRepository {
    const kv: Client

    constructor (kv: Client)
      ensures this.kv == kv
    {
      this.kv := kv;
    }

    /** Writes the record and its index entry. */
    method Create(record: InviteRecord) returns (r: Outcome)
      requires kv.Valid() && AtCreate(kv.pc, record)
      modifies kv
      ensures kv.Valid() && Env(old(kv.shared), kv.shared)
      ensures CreateContract(old(kv.log), kv.log, kv.me, record, r)
      ensures kv.pc == CreateEnd(old(kv.pc), r, LastDelete(kv.log))
    {
      hide BucketOk, Stability.Grows, Env, KvPut, KvDelete, LiveKey, ObsOk, Advance, Perform, Allowed, Call, Resume,
        Running, Follows, Client.Valid, RecordOf, KeySpace.EmailIndexKey, AtCreate, CreateEnd;
      ghost var sh0, pc0 := kv.shared, kv.pc;
      CreateStarts(kv.st, pc0, record);
      var ok := kv.Put(record.uid, Rec(record));
      CreateGoesOn(kv.st, pc0, record, ok, LastDelete(kv.log));
      if !ok {
        return Err(ServiceUnavailable(PutRecordFailed));
      }
      var indexKey := KeySpace.EmailIndexKey(record.recipient.email, record.uid);
      ghost var sh1 := kv.shared;
      ok := kv.Put(indexKey, Idx(record.uid));
      EnvSteps(sh0, sh1, kv.shared);
      CreateEnds(kv.st, pc0, record, ok, LastDelete(kv.log));
      if !ok {
        ghost var sh2 := kv.shared;
        var delErr := kv.Delete(record.uid);
        EnvSteps(sh0, sh2, kv.shared);
        CreateEnds(kv.st, pc0, record, ok, delErr);
        return Err(ServiceUnavailable(PutIndexFailed));
      }
      r := Ok(());
    }

    /** One Get; the record under the UID as of that call, or why there is none. */
    method GetByUID(uid: string) returns (r: Result<InviteRecord, StoreError>)
      requires kv.Valid() && Follows(kv.st, kv.pc, Op.Get(uid))
      modifies kv
      ensures kv.Valid() && Env(old(kv.shared), kv.shared)
      ensures old(kv.log) <= kv.log && |kv.log| == |old(kv.log)| + 1
      ensures var o := kv.log[|old(kv.log)|];
              && ReadOk(o, uid) && r == DecodeGet(o.res.get) && Env(old(kv.shared), o.before) && Env(o.before, o.after)
              && o.after == kv.shared
              && kv.pc == Advance(kv.st, old(kv.pc), o.res)
    {
      hide BucketOk, Stability.Grows, Env, Current, LiveKey, ObsOk, Advance, Perform, Allowed, Call, Resume, Running,
        Follows, Client.Valid;
      var entry := kv.Get(uid);
      match entry {
        case KeyNotFound => r := Err(InviteNotFound);
        case GetFault => r := Err(ServiceUnavailable(GetFailed));
        case Found(e) =>
          match e.value {
            case Idx(_) => r := Err(Unexpected);
            case Rec(record) => r := Ok(record);
          }
      }
    }

    /** Removes the record and the index entry of its e-mail. */
    method Delete(uid: string) returns (r: Outcome)
      requires kv.Valid() && AtDelete(kv.pc, uid)
      modifies kv
      ensures kv.Valid() && Env(old(kv.shared), kv.shared)
      ensures DeleteContract(old(kv.log), kv.log, kv.me, uid, r)
      ensures kv.pc == DeleteEnd(old(kv.pc), r, LastDelete(kv.log))
    {
      hide BucketOk, Stability.Grows, Env, Current, KvPut, KvDelete, LiveKey, ObsOk, Advance, Perform, Allowed, Call,
        Resume, Running, Follows, Client.Valid, KeySpace.EmailIndexKey, AtDelete, DeleteEnd;
      ghost var sh0, pc0 := kv.shared, kv.pc;
      DeleteStarts(kv.st, pc0, uid);
      var entry := kv.Get(uid);
      DeleteGoesOn(kv.st, pc0, uid, entry, LastDelete(kv.log));
      if entry.KeyNotFound? {
        return Err(InviteNotFound);
      }
      if entry.GetFault? {
        return Err(ServiceUnavailable(GetFailed));
      }
      if !entry.entry.value.Rec? {
        return Err(Unexpected);
      }
      var record := entry.entry.value.record;
      ghost var sh1 := kv.shared;
      var deleted := kv.Delete(uid);
      DeleteEnds(kv.st, pc0, uid, entry, deleted, Deleted);
      EnvSteps(sh0, sh1, kv.shared);
      if deleted.DeleteFault? {
        return Err(ServiceUnavailable(DeleteFailed));
      }
      var indexKey := KeySpace.EmailIndexKey(record.recipient.email, uid);
      ghost var sh2 := kv.shared;
      var unindexed := kv.Delete(indexKey);
      DeleteEnds(kv.st, pc0, uid, entry, deleted, unindexed);
      EnvSteps(sh0, sh2, kv.shared);
      r := Ok(());
    }

    /** Every record the e-mail's index entries lead to. */
    method GetByEmail(email: Bytes)
      returns (r: Records, ghost l: Option<Listing>, ghost moment: map<string, Shared>, ghost listed: Shared)
      requires kv.Valid() && kv.pc.Untracked?
      modifies kv
      ensures kv.Valid() && kv.pc.Untracked?
      ensures LookupContract(old(kv.shared), old(kv.log), listed, l, moment, kv.shared, kv.log, email, r)
    {
      hide BucketOk, Stability.Grows, Env, Current, LiveKey, ObsOk, Perform, Allowed, Call, Resume, Running,
        Client.Valid, KeySpace.EncodeEmailForKey, KeySpace.JoinKey, ListingOk, ReadOk, Reads, Collect;
      var encoded := KeySpace.EncodeEmailForKey(email);
      var prefix := KeySpace.EMAIL_INDEX_PREFIX + encoded + "/";
      PrefixIsScanPrefix(email);
      ghost var log0 := kv.log;
      var listing;
      listing, moment := kv.ListKeys();
      l, listed := listing, kv.shared;
      EnvReflexiveAt(kv);
      if listing.None? {
        return Err(ServiceUnavailable(ListFailed)), l, moment, listed;
      }
      var keys := listing.value.keys;
      var inviteUIDs: seq<string> := [];
      for i := 0 to |keys|
        invariant inviteUIDs == ScanUids(keys[..i], email)
      {
        assert keys[..i + 1][..i] == keys[..i];
        if prefix <= keys[i] {
          inviteUIDs := inviteUIDs + [keys[i][|prefix|..]];
        }
      }
      assert keys[..|keys|] == keys;
      if !listing.value.complete {
        return Err(ServiceUnavailable(ScanInterrupted)), l, moment, listed;
      }
      NothingRead(listed, kv.shared, inviteUIDs);
      assert kv.log[|log0|..] == [];
      var records: seq<InviteRecord> := [];
      for i := 0 to |inviteUIDs|
        invariant kv.Valid() && kv.pc.Untracked? && Env(listed, kv.shared) && log0 <= kv.log && |kv.log| == |log0| + i
        invariant Reads(listed, kv.log[|log0|..], kv.shared, inviteUIDs) && Collect(kv.log[|log0|..]) == Ok(records)
      {
        ghost var before, log1 := kv.shared, kv.log;
        var record := GetByUID(inviteUIDs[i]);
        ReadOneMore(listed, before, log1[|log0|..], kv.log[|log1|], kv.shared, inviteUIDs);
        assert kv.log[|log0|..] == log1[|log0|..] + [kv.log[|log1|]];
        CollectOneMore(log1[|log0|..], kv.log[|log1|], inviteUIDs[i]);
        if record.Err? {
          if record.error.InviteNotFound? {
            continue;
          }
          assert kv.log[|log0|..][..i] == log1[|log0|..];
          return Err(record.error), l, moment, listed;
        }
        records := records + [record.value];
      }
      r := Ok(records);
    }

    /** MarkAccepted is one atomic acceptance: whatever definite answer it gives was the answer of the
        atomic operation at one of its own actions, between call and return, and only its last action
        writes. It makes at most three passes, and gives up on a mismatch only after three writes of
        others to the record. */
    method MarkAccepted(uid: string, username: string, at: int, ghost ev: Evidence)
      returns (r: Outcome, ghost got: InviteRecord)
      requires kv.Valid() && ForCall(ev, uid, username, at) && AtMarkGet(kv.pc, ev, 0)
      modifies kv
      ensures kv.Valid() && MarkContract(old(kv.shared), old(kv.log), kv.shared, kv.log, kv.me, uid, username, at, r)
      ensures kv.log != [] && kv.log[|kv.log| - 1].after == kv.shared
      ensures kv.pc == MarkEnd(old(kv.pc), ev, got, r)
      ensures var last := kv.log[|kv.log| - 1];
              last.res.UpdateDone? ==>
                last.op.Update? && last.op.key == uid && last.op.value == Rec(AcceptRecord(got, username, at))
    {
      hide BucketOk, Stability.Grows, Env, Current, LastRev, KvPut, ObsOk, Advance, LinearizedAt, AtMarkGet,
        AtMarkClock, AtMarkUpdate, AfterMark, Written, Client.Traced, InStep, Replayed, Follows, Shifts, LiveKey,
        Client.Valid, AcceptRecord, Perform, Allowed, Call, Resume, Running, Marking, MarkContract, Quiet, Harmless;
      var lastErr: Outcome := Err(ServiceUnavailable(RetriesExhausted));
      var attempt := 0;
      got := *;
      ghost var sh0, log0 := kv.shared, kv.log;
      NothingDoneYet(kv, uid);
      while attempt < MAX_RETRIES
        invariant attempt < MAX_RETRIES
        invariant kv.Valid() && Marking(sh0, log0, kv.shared, kv.log, uid, attempt)
        invariant AtMarkGet(kv.pc, ev, attempt) && (kv.pc.At? <==> old(kv.pc.At?))
        decreases MAX_RETRIES - attempt
      {
        ghost var pc1, sh1, log1 := kv.pc, kv.shared, kv.log;
        MarkGetFollows(kv.st, pc1, ev, attempt);
        var entry := kv.Get(uid);
        ghost var seen, pc2, log2 := kv.shared, kv.pc, kv.log;
        got := if DecodeGet(entry).Ok? then DecodeGet(entry).value else got;
        MarkGetAdvances(kv.st, pc1, ev, attempt, entry, got);
        AfterGet(sh0, log0, sh1, log1, seen, kv.log, uid, attempt);
        GetDecides(kv.log[|log1|], uid, username, at, seen.clock, kv.me, entry);
        if entry.KeyNotFound? {
          r := Err(InviteNotFound);
          AnswerWithoutWrite(sh0, log0, sh1, log1, seen, kv.log, kv.me, uid, username, at, attempt, seen.clock, r);
          return;
        }
        if entry.GetFault? {
          r := Err(ServiceUnavailable(GetFailed));
          AnswerWithoutWrite(sh0, log0, sh1, log1, seen, kv.log, kv.me, uid, username, at, attempt, seen.clock, r);
          return;
        }
        if !entry.entry.value.Rec? {
          r := Err(Unexpected);
          AnswerWithoutWrite(sh0, log0, sh1, log1, seen, kv.log, kv.me, uid, username, at, attempt, seen.clock, r);
          return;
        }
        var record := entry.entry.value.record;
        if record.status == Accepted {
          r := Err(InviteAlreadyAccepted);
          AnswerWithoutWrite(sh0, log0, sh1, log1, seen, kv.log, kv.me, uid, username, at, attempt, seen.clock, r);
          return;
        }
        if at >= record.expiresAt {
          r := Err(InviteExpired);
          AnswerWithoutWrite(sh0, log0, sh1, log1, seen, kv.log, kv.me, uid, username, at, attempt, seen.clock, r);
          return;
        }
        var now := kv.Now();
        ghost var clocked, log3, pc3 := kv.shared, kv.log, kv.pc;
        MarkClockAdvances(kv.st, pc2, ev, attempt, record, entry.entry.rev, now);
        AfterNow(sh0, log1, log2, seen, clocked, log3);
        if now >= record.expiresAt {
          r := Err(InviteExpired);
          GetDecides(kv.log[|log1|], uid, username, at, now, kv.me, entry);
          AnswerWithoutWrite(sh0, log0, sh1, log1, clocked, log3, kv.me, uid, username, at, attempt, now, r);
          return;
        }
        var updated := AcceptRecord(record, username, at);
        var updateErr := kv.Update(uid, Rec(updated), entry.entry.rev);
        MarkUpdateAdvances(kv.st, pc3, ev, attempt, record, entry.entry.rev, updateErr);
        AfterUpdate(sh0, sh1, log1, seen, clocked, log3, kv.shared, kv.log, kv.me, uid, username, at, now,
                    record, entry.entry.rev,
                    updateErr, attempt);
        AnswerAtUpdate(sh0, log0, sh1, log1, kv.shared, kv.log, kv.me, uid, username, at, attempt, now, updateErr);
        if updateErr.Updated? {
          return Ok(()), got;
        }
        if updateErr.Mismatch? && attempt < MAX_RETRIES - 1 {
          attempt := attempt + 1;
          continue;
        }
        lastErr := Err(ServiceUnavailable(UpdateFailed(attempt + 1, updateErr.Mismatch?)));
        break;
      }
      r := lastErr;
    }
  }
}
