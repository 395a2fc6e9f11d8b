/** The send handler's writes, its dispatch and its rollback keep the invariant. */
module SagaSteps {
  import opened Model
  import opened Auth
  import opened KeyValue
  import opened Protocol
  import opened Lifecycle
  import opened Stability
  import opened Preservation
  import opened SendSteps
  import KeySpace

  lemma KeysDiffer(s: Sys, i: Issued)
    requires OwnersInv(s) && i.uid in s.shared.minted
    ensures IndexKeyOf(i) != i.uid
  {
    hide KeySpace.EmailIndexKey;
    assert OwnerInv(s.shared, s.procs, i.uid);
    KeySpace.EmailIndexKeyNotPrimary(i.p.email, i.uid, i.uid);
  }

  /** A failed call that was not applied leaves every assertion about an invite as it was. */
  lemma MarkFaultKeeps(st: Settings, sh: Shared, h: nat, i: Issued)
    ensures var sh2 := MarkFault(sh, h, NotApplied);
            && h in sh2.faulty && SameBucket(sh, sh2)
            && (IssuedInv(st, sh, h, i) <==> IssuedInv(st, sh2, h, i))
            && (Alive(sh, i) <==> Alive(sh2, i)) && (Dead(sh, i) <==> Dead(sh2, i))
            && (NoIndex(sh, i) <==> NoIndex(sh2, i)) && (Indexed(sh, i) <==> Indexed(sh2, i))
            && P(sh2, i.uid) == P(sh, i.uid)
  {
    hide RecordOf, IndexKeyOf, TokenOf, LinkPayloadOf, ClaimsAdmissible;
  }

  /** A write under the primary key leaves the index key alone, and the other way round. */
  lemma AppendedElsewhere(st: Settings, s: Sys, sh2: Shared, h: nat, i: Issued, k: string, w: Write)
    requires OwnersInv(s) && IssuedInv(st, s.shared, h, i) && BucketOk(s.shared.kv) && Appended(s.shared, sh2, h, k, w)
    ensures IssuedInv(st, sh2, h, i)
    ensures k == i.uid ==> (NoIndex(s.shared, i) ==> NoIndex(sh2, i)) && (Indexed(s.shared, i) ==> Indexed(sh2, i))
    ensures k == IndexKeyOf(i) ==> (Alive(s.shared, i) ==> Alive(sh2, i)) && (Dead(s.shared, i) ==> Dead(sh2, i))
  {
    hide RecordOf, IndexKeyOf, IssuedInv, Hist, Append, BucketOk, Grows, Appended, OwnersInv, IKey;
    AppendedGrows(s.shared, sh2, h, k, w);
    IssuedStable(st, s.shared, sh2, h, i);
    IssuedMinted(st, s.shared, h, i);
    KeysDiffer(s, i);
  }

  lemma IssuedMinted(st: Settings, sh: Shared, h: nat, i: Issued)
    requires IssuedInv(st, sh, h, i)
    ensures i.uid in sh.minted && sh.minted[i.uid].handler == h && IndexKeyOf(i) == IKey(sh, i.uid)
  {
    hide KeySpace.EmailIndexKey, ClaimsAdmissible, TokenOf;
  }

  // ---------------------------------------------------------------- a write step in general

  /** The write of one KV call by h. */
  function PutBy(sh: Shared, h: nat, v: Value): Write {
    Put(sh.kv.last + 1, v, h)
  }

  function TombBy(sh: Shared, h: nat): Write {
    Tombstone(sh.kv.last + 1, h)
  }

  lemma WriteEffectAppends(sh: Shared, h: nat, f: Fault, k: string, w: Write)
    requires w.rev == sh.kv.last + 1 && w.author == h
    ensures var sh2 := WriteEffect(sh, h, f, Append(sh.kv, k, w));
            && (f.NotApplied? ==> sh2 == MarkFault(sh, h, NotApplied))
            && (!f.NotApplied? ==> Appended(sh, sh2, h, k, w))
            && (f.AppliedButFailed? ==> h in sh2.faulty && h in sh2.ambiguous)
  {
    hide Append;
  }

  lemma QuietFault(st: Settings, s: Sys, h: nat, l2: Local)
    requires h in s.procs && Running(s.procs[h])
    requires Keeps(s.procs[h], l2) && ExpectedSends(st, l2) == ExpectedSends(st, s.procs[h])
    ensures Quiet(st, s, h, MarkFault(s.shared, h, NotApplied), l2)
  {
    hide Keeps, ExpectedSends, Running;
  }

  /** A write of h under a key of its own UID: the step lemma of every saga write. */
  lemma OwnWriteStep(st: Settings, s: Sys, h: nat, i: Issued, f: Fault, k: string, w: Write, l2: Local)
    requires Inv(st, s) && h in s.procs && Running(s.procs[h])
    requires IssuedInv(st, s.shared, h, i) && (k == i.uid || k == IndexKeyOf(i))
    requires w.rev == s.shared.kv.last + 1 && w.author == h
    requires Keeps(s.procs[h], l2) && ExpectedSends(st, l2) == ExpectedSends(st, s.procs[h])
    requires var sh2 := WriteEffect(s.shared, h, f, Append(s.shared.kv, k, w));
             LocalInv(st, sh2, h, l2) && (!f.NotApplied? ==> KeyInv(sh2, Moved(s, h, sh2, l2).procs, k))
    ensures Inv(st, Moved(s, h, WriteEffect(s.shared, h, f, Append(s.shared.kv, k, w)), l2))
  {
    var sh2 := WriteEffect(s.shared, h, f, Append(s.shared.kv, k, w));
    hide *;
    WriteEffectAppends(s.shared, h, f, k, w);
    if f.NotApplied? {
      QuietFault(st, s, h, l2);
      QuietStep(st, s, h, sh2, l2);
    } else {
      InvParts(st, s);
      AppendedGrows(s.shared, sh2, h, k, w);
      IssuedMinted(st, s.shared, h, i);
      OwnKeyOthersRely(st, s, h, sh2, i.uid, k);
      AppendingHolds(st, s, h, sh2, l2, k, w);
      AppendStep(st, s, h, sh2, l2, k, w);
    }
  }

  lemma AppendingHolds(st: Settings, s: Sys, h: nat, sh2: Shared, l2: Local, k: string, w: Write)
    requires h in s.procs && Running(s.procs[h]) && Appended(s.shared, sh2, h, k, w)
    requires Keeps(s.procs[h], l2) && ExpectedSends(st, l2) == ExpectedSends(st, s.procs[h])
    ensures Appending(st, s, h, sh2, l2, k, w)
  {
    hide Appended, Keeps, ExpectedSends, Running;
  }

  // ---------------------------------------------------------------- Create

  function AfterPutRecord(i: Issued, f: Fault): Local {
    if f.NoFault? then SPutIndex(i) else SDone(RecordNotPut(i))
  }

  lemma PutRecordNext(st: Settings, s: Sys, h: nat, ch: Choice, i: Issued)
    requires CanStep(st, s, h, ch) && s.procs[h] == SPutRecord(i)
    ensures var w, l2 := PutBy(s.shared, h, Rec(RecordOf(i))), AfterPutRecord(i, ch.fault);
            && StepOf(st, s, h, ch)
               == Moved(s, h, WriteEffect(s.shared, h, ch.fault, Append(s.shared.kv, i.uid, w)), l2)
            && Running(s.procs[h]) && Keeps(s.procs[h], l2) && ExpectedSends(st, l2) == ExpectedSends(st, s.procs[h])
  {
    hide RecordOf, Append, WriteEffect;
  }

  lemma PutRecordLocal(st: Settings, s: Sys, h: nat, i: Issued, f: Fault, procs: map<nat, Local>)
    requires OwnersInv(s) && BucketOk(s.shared.kv) && LocalInv(st, s.shared, h, SPutRecord(i))
    ensures var w, l2 := PutBy(s.shared, h, Rec(RecordOf(i))), AfterPutRecord(i, f);
            var sh2 := WriteEffect(s.shared, h, f, Append(s.shared.kv, i.uid, w));
            && IssuedInv(st, s.shared, h, i)
            && LocalInv(st, sh2, h, l2) && (!f.NotApplied? ==> KeyInv(sh2, procs, i.uid))
  {
    hide RecordOf, IssuedInv, Append, Alive, NoIndex, WriteEffect, MarkFault, BucketOk, OwnersInv, Appended, P, KeyInv,
      SameBucket, LocalInv, AfterPutRecord;
    PutRecordPre(st, s.shared, h, i);
    var w := PutBy(s.shared, h, Rec(RecordOf(i)));
    var sh2 := WriteEffect(s.shared, h, f, Append(s.shared.kv, i.uid, w));
    WriteEffectAppends(s.shared, h, f, i.uid, w);
    MarkFaultKeeps(st, s.shared, h, i);
    if !f.NotApplied? {
      FirstRecordKey(st, s.shared, sh2, procs, h, i, w);
      AppendedElsewhere(st, s, sh2, h, i, i.uid, w);
    }
    PutRecordPost(st, sh2, h, i, f);
  }

  lemma PutRecordPre(st: Settings, sh: Shared, h: nat, i: Issued)
    requires LocalInv(st, sh, h, SPutRecord(i))
    ensures IssuedInv(st, sh, h, i) && P(sh, i.uid) == [] && NoIndex(sh, i)
  {
    hide IssuedInv, P, NoIndex;
  }

  lemma PutRecordPost(st: Settings, sh: Shared, h: nat, i: Issued, f: Fault)
    requires IssuedInv(st, sh, h, i) && NoIndex(sh, i)
    requires if f.NotApplied? then P(sh, i.uid) == [] else Alive(sh, i)
    requires f.NoFault? || h in sh.faulty
    requires f.AppliedButFailed? ==> h in sh.ambiguous
    ensures LocalInv(st, sh, h, AfterPutRecord(i, f))
  {
    hide IssuedInv, P, NoIndex, Alive;
  }

  lemma StepPutRecord(st: Settings, s: Sys, h: nat, ch: Choice)
    requires Inv(st, s) && CanStep(st, s, h, ch) && s.procs[h].SPutRecord?
    ensures Inv(st, StepOf(st, s, h, ch))
  {
    var i := s.procs[h].i;
    var w, l2 := PutBy(s.shared, h, Rec(RecordOf(i))), AfterPutRecord(i, ch.fault);
    assert w.rev == s.shared.kv.last + 1 && w.author == h;
    hide *;
    InvParts(st, s);
    InvLocal(st, s, h);
    PutRecordNext(st, s, h, ch, i);
    PutRecordLocal(st, s, h, i, ch.fault, s.procs[h := l2]);
    MovedProcs(s, h, l2);
    OwnWriteStep(st, s, h, i, ch.fault, i.uid, w, l2);
  }

  lemma MovedProcs(s: Sys, h: nat, l2: Local)
    ensures forall sh2 :: Moved(s, h, sh2, l2).procs == s.procs[h := l2]
  {
  }

  function AfterPutIndex(i: Issued, f: Fault): Local {
    if f.NoFault? then SSend(i) else SUndo(i)
  }

  lemma PutIndexNext(st: Settings, s: Sys, h: nat, ch: Choice, i: Issued)
    requires CanStep(st, s, h, ch) && s.procs[h] == SPutIndex(i)
    ensures var w, l2 := PutBy(s.shared, h, Idx(i.uid)), AfterPutIndex(i, ch.fault);
            && StepOf(st, s, h, ch)
               == Moved(s, h, WriteEffect(s.shared, h, ch.fault, Append(s.shared.kv, IndexKeyOf(i), w)), l2)
            && Running(s.procs[h]) && Keeps(s.procs[h], l2) && ExpectedSends(st, l2) == ExpectedSends(st, s.procs[h])
  {
    hide RecordOf, Append, WriteEffect, IndexKeyOf;
  }

  lemma PutIndexLocal(st: Settings, s: Sys, h: nat, i: Issued, f: Fault, procs: map<nat, Local>)
    requires OwnersInv(s) && BucketOk(s.shared.kv) && LocalInv(st, s.shared, h, SPutIndex(i))
    ensures var w, l2 := PutBy(s.shared, h, Idx(i.uid)), AfterPutIndex(i, f);
            var sh2 := WriteEffect(s.shared, h, f, Append(s.shared.kv, IndexKeyOf(i), w));
            && IssuedInv(st, s.shared, h, i)
            && LocalInv(st, sh2, h, l2) && (!f.NotApplied? ==> KeyInv(sh2, procs, IndexKeyOf(i)))
  {
    hide RecordOf, IssuedInv, Append, NoIndex, Indexed, WriteEffect, MarkFault, BucketOk, OwnersInv, Appended, KeyInv,
      SameBucket, IndexKeyOf, Hist;
    var w := PutBy(s.shared, h, Idx(i.uid));
    var sh2 := WriteEffect(s.shared, h, f, Append(s.shared.kv, IndexKeyOf(i), w));
    WriteEffectAppends(s.shared, h, f, IndexKeyOf(i), w);
    MarkFaultKeeps(st, s.shared, h, i);
    if !f.NotApplied? {
      FirstIndexKey(st, s, sh2, procs, h, i, w);
      AppendedElsewhere(st, s, sh2, h, i, IndexKeyOf(i), w);
    }
  }

  lemma StepPutIndex(st: Settings, s: Sys, h: nat, ch: Choice)
    requires Inv(st, s) && CanStep(st, s, h, ch) && s.procs[h].SPutIndex?
    ensures Inv(st, StepOf(st, s, h, ch))
  {
    var i := s.procs[h].i;
    var w, l2 := PutBy(s.shared, h, Idx(i.uid)), AfterPutIndex(i, ch.fault);
    assert w.rev == s.shared.kv.last + 1 && w.author == h;
    hide *;
    InvParts(st, s);
    InvLocal(st, s, h);
    PutIndexNext(st, s, h, ch, i);
    PutIndexLocal(st, s, h, i, ch.fault, s.procs[h := l2]);
    MovedProcs(s, h, l2);
    OwnWriteStep(st, s, h, i, ch.fault, IndexKeyOf(i), w, l2);
  }

  // ---------------------------------------------------------------- deletes of the primary record

  lemma AliveIsLive(sh: Shared, i: Issued)
    requires Alive(sh, i)
    ensures LiveKey(sh.kv, i.uid) && i.uid in sh.kv.hist
  {
    hide RecordOf;
  }

  /** Deleting the live primary record of i, from the saga's rollback or from Create's own. */
  lemma DeleteRecordLocal(st: Settings, s: Sys, h: nat, i: Issued, f: Fault, l2: Local)
    requires Inv(st, s) && h in s.procs && IssuedInv(st, s.shared, h, i) && Alive(s.shared, i) && Keeps(s.procs[h], l2)
    ensures var w := TombBy(s.shared, h);
            var sh2 := WriteEffect(s.shared, h, f, Append(s.shared.kv, i.uid, w));
            && IssuedInv(st, sh2, h, i)
            && (if f.NotApplied? then Alive(sh2, i) else Dead(sh2, i))
            && (f.NoFault? || h in sh2.faulty) && (f.AppliedButFailed? ==> h in sh2.ambiguous)
            && (NoIndex(s.shared, i) ==> NoIndex(sh2, i)) && (Indexed(s.shared, i) ==> Indexed(sh2, i))
            && (h in s.shared.faulty ==> h in sh2.faulty) && (h in s.shared.ambiguous ==> h in sh2.ambiguous)
            && (!f.NotApplied? ==> KeyInv(sh2, Moved(s, h, sh2, l2).procs, i.uid))
  {
    var w := TombBy(s.shared, h);
    var sh2 := WriteEffect(s.shared, h, f, Append(s.shared.kv, i.uid, w));
    DeleteRecordFaults(s.shared, h, i, f);
    hide *;
    InvParts(st, s);
    WriteEffectAppends(s.shared, h, f, i.uid, w);
    MarkFaultKeeps(st, s.shared, h, i);
    AliveIsLive(s.shared, i);
    InvKey(st, s, i.uid);
    if !f.NotApplied? {
      TombstoneKey(st, s, sh2, h, l2, i, w);
      AppendedElsewhere(st, s, sh2, h, i, i.uid, w);
    }
  }

  lemma DeleteRecordFaults(sh: Shared, h: nat, i: Issued, f: Fault)
    ensures var w := TombBy(sh, h);
            var sh2 := WriteEffect(sh, h, f, Append(sh.kv, i.uid, w));
            && w.rev == sh.kv.last + 1 && w.author == h && w.Tombstone?
            && (f.NoFault? || h in sh2.faulty) && (f.AppliedButFailed? ==> h in sh2.ambiguous)
            && sh.faulty <= sh2.faulty && sh.ambiguous <= sh2.ambiguous
  {
    hide Append;
  }

  /** How the delete of a live key answers. */
  function DeleteAnswer(f: Fault): DeleteResult {
    if f.NoFault? then Deleted else DeleteFault
  }

  lemma UndoNext(st: Settings, s: Sys, h: nat, ch: Choice, i: Issued)
    requires CanStep(st, s, h, ch) && s.procs[h] == SUndo(i) && LiveKey(s.shared.kv, i.uid)
    ensures var w, l2 := TombBy(s.shared, h), SDone(IndexNotPut(i, DeleteAnswer(ch.fault)));
            && StepOf(st, s, h, ch)
               == Moved(s, h, WriteEffect(s.shared, h, ch.fault, Append(s.shared.kv, i.uid, w)), l2)
            && Running(s.procs[h]) && Keeps(s.procs[h], l2) && ExpectedSends(st, l2) == ExpectedSends(st, s.procs[h])
  {
    hide Append, WriteEffect, LiveKey;
  }

  lemma UndoPre(st: Settings, sh: Shared, h: nat, i: Issued)
    requires LocalInv(st, sh, h, SUndo(i))
    ensures IssuedInv(st, sh, h, i) && h in sh.faulty && Alive(sh, i)
    ensures (NoIndex(sh, i) || (h in sh.ambiguous && Indexed(sh, i)))
  {
    hide IssuedInv, Alive, NoIndex, Indexed;
  }

  lemma UndoPost(st: Settings, sh: Shared, h: nat, i: Issued, f: Fault)
    requires IssuedInv(st, sh, h, i) && h in sh.faulty && (if f.NotApplied? then Alive(sh, i) else Dead(sh, i))
    requires f.AppliedButFailed? ==> h in sh.ambiguous
    requires NoIndex(sh, i) || (h in sh.ambiguous && Indexed(sh, i))
    ensures LocalInv(st, sh, h, SDone(IndexNotPut(i, DeleteAnswer(f))))
  {
    hide IssuedInv, Alive, Dead, NoIndex, Indexed;
  }

  lemma StepUndo(st: Settings, s: Sys, h: nat, ch: Choice)
    requires Inv(st, s) && CanStep(st, s, h, ch) && s.procs[h].SUndo?
    ensures Inv(st, StepOf(st, s, h, ch))
  {
    var i := s.procs[h].i;
    var w, l2 := TombBy(s.shared, h), SDone(IndexNotPut(i, DeleteAnswer(ch.fault)));
    var sh2 := WriteEffect(s.shared, h, ch.fault, Append(s.shared.kv, i.uid, w));
    hide *;
    InvLocal(st, s, h);
    UndoPre(st, s.shared, h, i);
    AliveIsLive(s.shared, i);
    UndoNext(st, s, h, ch, i);
    DeleteRecordLocal(st, s, h, i, ch.fault, l2);
    DeleteRecordFaults(s.shared, h, i, ch.fault);
    UndoPost(st, sh2, h, i, ch.fault);
    OwnWriteStep(st, s, h, i, ch.fault, i.uid, w, l2);
  }

  function AfterDelRecord(i: Issued, got: InviteRecord, f: Fault): Local {
    if f.NoFault? then SDelIndex(i, got) else SDone(NotSent(i, RecordNotDeleted))
  }

  lemma DelRecordNext(st: Settings, s: Sys, h: nat, ch: Choice, i: Issued, got: InviteRecord)
    requires CanStep(st, s, h, ch) && s.procs[h] == SDelRecord(i, got) && LiveKey(s.shared.kv, i.uid)
    ensures var w, l2 := TombBy(s.shared, h), AfterDelRecord(i, got, ch.fault);
            && StepOf(st, s, h, ch)
               == Moved(s, h, WriteEffect(s.shared, h, ch.fault, Append(s.shared.kv, i.uid, w)), l2)
            && Running(s.procs[h]) && Keeps(s.procs[h], l2) && ExpectedSends(st, l2) == ExpectedSends(st, s.procs[h])
  {
    hide Append, WriteEffect, LiveKey, EmailOf;
  }

  lemma DelRecordPre(st: Settings, sh: Shared, h: nat, i: Issued, got: InviteRecord)
    requires LocalInv(st, sh, h, SDelRecord(i, got))
    ensures IssuedInv(st, sh, h, i) && Alive(sh, i) && Indexed(sh, i) && got.recipient.email == i.p.email
  {
    hide IssuedInv, Alive, Indexed;
  }

  lemma DelRecordPost(st: Settings, sh: Shared, h: nat, i: Issued, got: InviteRecord, f: Fault)
    requires IssuedInv(st, sh, h, i) && Indexed(sh, i) && got.recipient.email == i.p.email
    requires if f.NotApplied? then Alive(sh, i) else Dead(sh, i)
    requires f.NoFault? || h in sh.faulty
    requires f.AppliedButFailed? ==> h in sh.ambiguous
    ensures LocalInv(st, sh, h, AfterDelRecord(i, got, f))
  {
    hide IssuedInv, Alive, Dead, Indexed;
  }

  lemma StepDelRecord(st: Settings, s: Sys, h: nat, ch: Choice)
    requires Inv(st, s) && CanStep(st, s, h, ch) && s.procs[h].SDelRecord?
    ensures Inv(st, StepOf(st, s, h, ch))
  {
    var SDelRecord(i, got) := s.procs[h];
    var w, l2 := TombBy(s.shared, h), AfterDelRecord(i, got, ch.fault);
    var sh2 := WriteEffect(s.shared, h, ch.fault, Append(s.shared.kv, i.uid, w));
    hide *;
    InvLocal(st, s, h);
    DelRecordPre(st, s.shared, h, i, got);
    AliveIsLive(s.shared, i);
    DelRecordNext(st, s, h, ch, i, got);
    DeleteRecordLocal(st, s, h, i, ch.fault, l2);
    DeleteRecordFaults(s.shared, h, i, ch.fault);
    DelRecordPost(st, sh2, h, i, got, ch.fault);
    OwnWriteStep(st, s, h, i, ch.fault, i.uid, w, l2);
  }

  // ---------------------------------------------------------------- delete of the index entry

  lemma DelIndexNext(st: Settings, s: Sys, h: nat, ch: Choice, i: Issued, got: InviteRecord)
    requires CanStep(st, s, h, ch) && s.procs[h] == SDelIndex(i, got) && LiveKey(s.shared.kv, IndexKeyOf(i))
    requires got.recipient.email == i.p.email
    ensures var w, l2 := TombBy(s.shared, h), SDone(NotSent(i, RecordDeleted(DeleteAnswer(ch.fault))));
            && StepOf(st, s, h, ch)
               == Moved(s, h, WriteEffect(s.shared, h, ch.fault, Append(s.shared.kv, IndexKeyOf(i), w)), l2)
            && Running(s.procs[h]) && Keeps(s.procs[h], l2) && ExpectedSends(st, l2) == ExpectedSends(st, s.procs[h])
  {
    hide Append, WriteEffect, LiveKey, EmailOf, KeySpace.EmailIndexKey;
  }

  lemma DelIndexPre(st: Settings, sh: Shared, h: nat, i: Issued, got: InviteRecord)
    requires LocalInv(st, sh, h, SDelIndex(i, got))
    ensures IssuedInv(st, sh, h, i) && Dead(sh, i) && Indexed(sh, i) && got.recipient.email == i.p.email
    ensures LiveKey(sh.kv, IndexKeyOf(i)) && IndexKeyOf(i) in sh.kv.hist
  {
    hide IssuedInv, Dead, IndexKeyOf;
  }

  lemma DelIndexPost(st: Settings, sh: Shared, h: nat, i: Issued, f: Fault)
    requires IssuedInv(st, sh, h, i) && Dead(sh, i)
    requires if f.NotApplied? then Indexed(sh, i) else Unindexed(sh, i)
    requires (f.NoFault? || h in sh.faulty) && (f.AppliedButFailed? ==> h in sh.ambiguous)
    ensures LocalInv(st, sh, h, SDone(NotSent(i, RecordDeleted(DeleteAnswer(f)))))
  {
    hide IssuedInv, Alive, Dead, Indexed, Unindexed;
  }

  lemma StepDelIndex(st: Settings, s: Sys, h: nat, ch: Choice)
    requires Inv(st, s) && CanStep(st, s, h, ch) && s.procs[h].SDelIndex?
    ensures Inv(st, StepOf(st, s, h, ch))
  {
    var SDelIndex(i, got) := s.procs[h];
    var w, l2, k := TombBy(s.shared, h), SDone(NotSent(i, RecordDeleted(DeleteAnswer(ch.fault)))), IndexKeyOf(i);
    var sh2 := WriteEffect(s.shared, h, ch.fault, Append(s.shared.kv, k, w));
    hide *;
    InvParts(st, s);
    InvLocal(st, s, h);
    DelIndexPre(st, s.shared, h, i, got);
    InvKey(st, s, k);
    DelIndexNext(st, s, h, ch, i, got);
    DeleteRecordFaults(s.shared, h, i, ch.fault);
    WriteEffectAppends(s.shared, h, ch.fault, k, w);
    MarkFaultKeeps(st, s.shared, h, i);
    if !ch.fault.NotApplied? {
      TombstoneIndex(st, s, sh2, s.procs[h := l2], h, i, w);
      AppendedElsewhere(st, s, sh2, h, i, k, w);
    }
    DelIndexPost(st, sh2, h, i, ch.fault);
    MovedProcs(s, h, l2);
    OwnWriteStep(st, s, h, i, ch.fault, k, w, l2);
  }

  // ---------------------------------------------------------------- dispatch

  lemma SendsAppend(st: Settings, s: Sys, h: nat, sh2: Shared, l2: Local, d: Dispatch)
    requires SendsInv(st, s) && h in s.procs && sh2.sends == s.shared.sends + [d] && d.handler == h
    requires ExpectedSends(st, s.procs[h]) == [] && ExpectedSends(st, l2) == [d.payload]
    ensures SendsInv(st, Moved(s, h, sh2, l2))
  {
    hide ExpectedSends;
    var s2 := Moved(s, h, sh2, l2);
    assert sh2.sends[..|sh2.sends| - 1] == s.shared.sends;
    forall h2 | h2 in s2.procs ensures SendsOf(sh2.sends, h2) == ExpectedSends(st, s2.procs[h2]) {
      assert SendsOf(s.shared.sends, h2) == ExpectedSends(st, s.procs[h2]);
    }
  }

  predicate SentNow(sh: Shared, sh2: Shared, d: Dispatch) {
    sh2 == sh.(sends := sh.sends + [d])
  }

  lemma SendStep(st: Settings, s: Sys, h: nat, sh2: Shared, l2: Local, d: Dispatch)
    requires Inv(st, s) && h in s.procs && Running(s.procs[h]) && SentNow(s.shared, sh2, d) && d.handler == h
    requires Keeps(s.procs[h], l2) && ExpectedSends(st, s.procs[h]) == [] && ExpectedSends(st, l2) == [d.payload]
    requires LocalInv(st, sh2, h, l2)
    ensures Inv(st, Moved(s, h, sh2, l2))
  {
    hide LocalInv, OwnersInv, KeysInv, TokensInv, SendsInv, PublishedInv, LocalsInv, BucketOk, Grows, OthersRely, Keeps,
      UidOf, ExpectedSends;
    SameBucketRely(s, h, sh2);
    SameBucketKeys(s, h, sh2, l2);
    OwnersKept(s, h, sh2, l2);
    TokensKept(st, s, h, sh2, l2);
    SendsAppend(st, s, h, sh2, l2, d);
    PublishedKept(s, h, sh2, l2);
    Assemble(st, s, h, sh2, l2);
  }

  function AfterSend(i: Issued, f: Fault): Local {
    if f.NoFault? then SDone(Sent(i)) else SDelGet(i)
  }

  lemma SendNext(st: Settings, s: Sys, h: nat, ch: Choice, i: Issued)
    requires CanStep(st, s, h, ch) && s.procs[h] == SSend(i)
    ensures var d, l2 := Dispatch(h, EmailOf(st, i), ch.delivered), AfterSend(i, ch.fault);
            var sh2 := s.shared.(sends := s.shared.sends + [d]);
            && StepOf(st, s, h, ch) == Moved(s, h, sh2, l2) && Running(s.procs[h]) && SentNow(s.shared, sh2, d)
            && d.handler == h
            && Keeps(s.procs[h], l2) && ExpectedSends(st, s.procs[h]) == [] && ExpectedSends(st, l2) == [d.payload]
  {
    hide EmailOf;
  }

  lemma SendLocal(st: Settings, sh: Shared, sh2: Shared, h: nat, i: Issued, d: Dispatch, f: Fault)
    requires LocalInv(st, sh, h, SSend(i)) && SentNow(sh, sh2, d)
    ensures LocalInv(st, sh2, h, AfterSend(i, f))
  {
    hide RecordOf, IndexKeyOf, TokenOf, LinkPayloadOf, ClaimsAdmissible;
  }

  lemma StepSend(st: Settings, s: Sys, h: nat, ch: Choice)
    requires Inv(st, s) && CanStep(st, s, h, ch) && s.procs[h].SSend?
    ensures Inv(st, StepOf(st, s, h, ch))
  {
    var i := s.procs[h].i;
    var d := Dispatch(h, EmailOf(st, i), ch.delivered);
    var sh2 := s.shared.(sends := s.shared.sends + [d]);
    hide *;
    InvLocal(st, s, h);
    SendNext(st, s, h, ch, i);
    SendLocal(st, s.shared, sh2, h, i, d, ch.fault);
    SendStep(st, s, h, sh2, AfterSend(i, ch.fault), d);
  }

  // ---------------------------------------------------------------- the read that starts the rollback

  /** Whatever is read under a live primary key is a record of the issued invite's e-mail. */
  lemma ReadBack(st: Settings, s: Sys, h: nat, i: Issued)
    requires IssuedInv(st, s.shared, h, i) && Alive(s.shared, i) && KeyInv(s.shared, s.procs, i.uid)
    ensures LiveKey(s.shared.kv, i.uid) && Current(s.shared.kv, i.uid).value.value.Rec?
    ensures Current(s.shared.kv, i.uid).value.value.record.recipient.email == i.p.email
  {
    RecordMatchesMint(st, s.shared, h, i);
    hide RecordOf, ClaimsAdmissible, TokenOf, LinkPayloadOf, ExpiresAt, AcceptedClaims, MarkedBy, IsPending;
  }

  lemma DelGetNext(st: Settings, s: Sys, h: nat, ch: Choice, i: Issued)
    requires CanStep(st, s, h, ch) && s.procs[h] == SDelGet(i)
    requires LiveKey(s.shared.kv, i.uid) && Current(s.shared.kv, i.uid).value.value.Rec?
    ensures var got := Current(s.shared.kv, i.uid).value.value.record;
            && StepOf(st, s, h, ch) == (if ch.fault.NoFault? then Moved(s, h, s.shared, SDelRecord(i, got))
                                     else Moved(s, h, MarkFault(s.shared, h, NotApplied),
                                                SDone(NotSent(i, RecordNotRead))))
            && Quiet(st, s, h, s.shared, SDelRecord(i, got))
            && Quiet(st, s, h, MarkFault(s.shared, h, NotApplied), SDone(NotSent(i, RecordNotRead)))
  {
    hide Current, LiveKey, EmailOf;
  }

  lemma DelGetLocal(st: Settings, sh: Shared, h: nat, i: Issued, got: InviteRecord)
    requires LocalInv(st, sh, h, SDelGet(i)) && got.recipient.email == i.p.email
    ensures LocalInv(st, sh, h, SDelRecord(i, got))
    ensures LocalInv(st, MarkFault(sh, h, NotApplied), h, SDone(NotSent(i, RecordNotRead)))
  {
    hide IssuedInv, Alive, Dead, Indexed, NoIndex, Unindexed, MarkFault, P, SameBucket;
    MarkFaultKeeps(st, sh, h, i);
  }

  lemma StepDelGet(st: Settings, s: Sys, h: nat, ch: Choice)
    requires Inv(st, s) && CanStep(st, s, h, ch) && s.procs[h].SDelGet?
    ensures Inv(st, StepOf(st, s, h, ch))
  {
    var i := s.procs[h].i;
    hide *;
    InvLocal(st, s, h);
    DelGetPre(st, s.shared, h, i);
    AliveIsLive(s.shared, i);
    InvKey(st, s, i.uid);
    ReadBack(st, s, h, i);
    var got := Current(s.shared.kv, i.uid).value.value.record;
    DelGetNext(st, s, h, ch, i);
    DelGetLocal(st, s.shared, h, i, got);
    if ch.fault.NoFault? {
      QuietStep(st, s, h, s.shared, SDelRecord(i, got));
    } else {
      QuietStep(st, s, h, MarkFault(s.shared, h, NotApplied), SDone(NotSent(i, RecordNotRead)));
    }
  }

  lemma DelGetPre(st: Settings, sh: Shared, h: nat, i: Issued)
    requires LocalInv(st, sh, h, SDelGet(i))
    ensures IssuedInv(st, sh, h, i) && Alive(sh, i)
  {
    hide IssuedInv, Alive, Indexed;
  }
}
