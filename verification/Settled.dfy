/** What is left when handlers have finished: residues of failed sends, the rollback as an atomic undo,
    and the agreement of index and records. */
module Settled {
  import opened Base
  import opened Model
  import opened Auth
  import opened KeyValue
  import opened Protocol
  import opened Lifecycle
  import opened Stability
  import opened Preservation
  import opened SendSteps
  import opened SagaSteps
  import opened Runs
  import opened Growth
  import opened Theorems
  import opened Lookup
  import KeySpace

  // ---------------------------------------------------------------- residues

  predicate NeverWritten(sh: Shared, i: Issued) {
    P(sh, i.uid) == [] && NoIndex(sh, i)
  }

  /** An acknowledged delete of a key leaves it gone; a failed one leaves it, unless a failed call of h took
      effect after all. */
  predicate LeftAfter(sh: Shared, h: nat, k: string, d: DeleteResult) {
    && (!d.DeleteFault? ==> !LiveKey(sh.kv, k))
    && (d.DeleteFault? ==> h in sh.faulty && (h !in sh.ambiguous ==> LiveKey(sh.kv, k)))
  }

  /** What a finished rollback leaves: the invite whole if its record could not be read or deleted; once the
      record has been deleted nothing, or a stale index entry if that could not be removed. */
  predicate RollbackResidue(sh: Shared, h: nat, i: Issued, r: RollbackEnd) {
    match r
    case RecordNotRead => h in sh.faulty && LiveKey(sh.kv, i.uid) && LiveKey(sh.kv, IndexKeyOf(i))
    case RecordNotDeleted => LeftAfter(sh, h, i.uid, DeleteFault) && LiveKey(sh.kv, IndexKeyOf(i))
    case RecordDeleted(index) => !LiveKey(sh.kv, i.uid) && LeftAfter(sh, h, IndexKeyOf(i), index)
  }

  /** What a finished send can leave visible. */
  predicate Residue(sh: Shared, h: nat, e: SendEnd) {
    match e
    case Invalid(u) => u.Some? ==> P(sh, u.value) == []
    case NotSigned(u) => P(sh, u) == []
    case RecordNotPut(i) =>
      // nothing, or, when a failed call took effect, a primary record without index
      !LiveKey(sh.kv, IndexKeyOf(i)) && (h !in sh.ambiguous ==> NeverWritten(sh, i))
    case IndexNotPut(i, undo) =>
      // a record without index entry only if the undo failed too; an index entry only if its failed write took effect
      h in sh.faulty && LeftAfter(sh, h, i.uid, undo) && (h !in sh.ambiguous ==> !LiveKey(sh.kv, IndexKeyOf(i)))
    case NotSent(i, rollback) =>
      // never a record without index; without faults nothing at all
      && RollbackResidue(sh, h, i, rollback)
      && (LiveKey(sh.kv, i.uid) ==> LiveKey(sh.kv, IndexKeyOf(i)))
      && (h !in sh.faulty ==> !LiveKey(sh.kv, i.uid) && !LiveKey(sh.kv, IndexKeyOf(i)))
    case Sent(i) => LiveKey(sh.kv, i.uid) && LiveKey(sh.kv, IndexKeyOf(i))
  }

  lemma ResidueFromEnd(st: Settings, sh: Shared, h: nat, e: SendEnd)
    requires EndInv(st, sh, h, e)
    ensures Residue(sh, h, e)
  {
    hide IssuedInv, RecordOf, IndexKeyOf, X;
  }

  /** The residues of every finished send, under every pattern of failed KV calls. */
  lemma ResiduesAreEnumerable(d: Deployment, t: int, es: seq<Event>, h: nat)
    requires h in Run(d, Init(t), es).procs && Run(d, Init(t), es).procs[h].SDone?
    ensures Residue(Run(d, Init(t), es).shared, h, Run(d, Init(t), es).procs[h].sendEnd)
  {
    hide Run, Init, Inv, EndInv, Residue;
    var s := Run(d, Init(t), es);
    ReachableInv(d, t, es);
    DoneLocal(d.st, s, h);
    ResidueFromEnd(d.st, s.shared, h, s.procs[h].sendEnd);
  }

  // ---------------------------------------------------------------- the rollback undoes the send

  /** Events of one send handler and of time. */
  predicate OnlySender(h: nat, es: seq<Event>) {
    forall i | 0 <= i < |es| :: es[i].Tick? || (es[i].SpawnSend? && es[i].h == h) || (es[i].Step? && es[i].h == h)
  }

  ghost predicate SameExcept(b0: Bucket, b: Bucket, u: Option<string>, x: Option<string>) {
    forall k | Some(k) != u && Some(k) != x :: Hist(b, k) == Hist(b0, k)
  }

  /** Since s0, handler h has written nothing but the two keys of a UID it minted itself, and those were
      unused. */
  ghost predicate Footprint(s0: Sys, s: Sys, h: nat) {
    if h in s.procs && UidOf(s.procs[h]).Some? then
      var u := UidOf(s.procs[h]).value;
      && IsSender(s.procs[h]) && u in s.shared.minted
      && Hist(s0.shared.kv, u) == [] && Hist(s0.shared.kv, IKey(s.shared, u)) == []
      && SameExcept(s0.shared.kv, s.shared.kv, Some(u), Some(IKey(s.shared, u)))
    else
      (h in s.procs ==> IsSender(s.procs[h])) && SameExcept(s0.shared.kv, s.shared.kv, None, None)
  }

  /** A send handler writes only the two keys of the UID it minted. */
  lemma SenderWritesOwnKeys(st: Settings, sh: Shared, h: nat, l: Local)
    requires LocalInv(st, sh, h, l) && IsSender(l) && Running(l) && KeyOf(Call(st, l)).Some?
    ensures UidOf(l).Some? && UidOf(l).value in sh.minted
    ensures KeyOf(Call(st, l)).value == UidOf(l).value || KeyOf(Call(st, l)).value == IKey(sh, UidOf(l).value)
  {
    match l
    case SPutRecord(i) => IssuedMinted(st, sh, h, i);
    case SPutIndex(i) => IssuedMinted(st, sh, h, i);
    case SUndo(i) => IssuedMinted(st, sh, h, i);
    case SDelRecord(i, _) => IssuedMinted(st, sh, h, i);
    case SDelIndex(i, got) => IssuedMinted(st, sh, h, i);
    case _ =>
    hide IssuedInv, IKey, KeySpace.EmailIndexKey, RecordOf, Alive, Dead, Indexed, NoIndex;
  }

  lemma SenderGoesOn(st: Settings, l: Local, r: Res)
    requires IsSender(l)
    ensures IsSender(Resume(st, l, r))
    ensures UidOf(l).Some? ==> UidOf(Resume(st, l, r)) == UidOf(l)
    ensures !l.SUid? && UidOf(l) == None ==> UidOf(Resume(st, l, r)) == None
  {
    hide ClaimsAdmissible;
  }

  lemma MintUidOf(st: Settings, s: Sys, h: nat, ch: Choice)
    requires CanStep(st, s, h, ch) && s.procs[h].SUid?
    ensures var s2 := StepOf(st, s, h, ch);
            && s2.procs[h] == AfterMint(s.procs[h].p, ch.uid, s.procs[h].at) && UidOf(s2.procs[h]) == Some(ch.uid)
            && s2.shared.kv == s.shared.kv && FreshUid(s.shared, ch.uid)
            && ch.uid in s2.shared.minted
            && IKey(s2.shared, ch.uid) == KeySpace.EmailIndexKey(s.procs[h].p.email, ch.uid)
  {
    hide KeySpace.EmailIndexKey, ClaimsAdmissible;
  }

  lemma FootprintMint(st: Settings, s0: Sys, s: Sys, h: nat, ch: Choice)
    requires Inv(st, s) && Footprint(s0, s, h) && CanStep(st, s, h, ch) && s.procs[h].SUid?
    ensures Footprint(s0, StepOf(st, s, h, ch), h)
  {
    MintUidOf(st, s, h, ch);
    InvParts(st, s);
    var p := s.procs[h].p;
    hide Inv, StepOf, OwnersInv, KeysInv, CanStep, KeySpace.EmailIndexKey, IKey, FreshUid;
    FreshIsUnused(s, ch.uid, p.email);
  }

  lemma StepUidKept(st: Settings, s: Sys, h: nat, ch: Choice)
    requires CanStep(st, s, h, ch) && IsSender(s.procs[h]) && !s.procs[h].SUid?
    ensures var s2 := StepOf(st, s, h, ch);
            h in s2.procs && IsSender(s2.procs[h]) && UidOf(s2.procs[h]) == UidOf(s.procs[h])
  {
    hide Resume, Call, Perform, Running, Allowed, IsSender, UidOf;
    SenderGoesOn(st, s.procs[h], Perform(st, s.shared, h, Call(st, s.procs[h]), ch).1);
    NotSUid(s.procs[h]);
  }

  lemma NotSUid(l: Local)
    ensures !l.SUid? || UidOf(l) == None
  {
  }

  lemma FootprintStep(st: Settings, s0: Sys, s: Sys, h: nat, ch: Choice)
    requires Inv(st, s) && Footprint(s0, s, h) && CanStep(st, s, h, ch)
    ensures Footprint(s0, StepOf(st, s, h, ch), h)
  {
    CanStepMeans(st, s, h, ch);
    if s.procs[h].SUid? {
      FootprintMint(st, s0, s, h, ch);
    } else {
      hide Inv, StepOf, CanStep, KeySpace.EmailIndexKey, Hist, Call, UidOf, LocalInv, IsSender;
      InvBucket(st, s);
      InvLocal(st, s, h);
      StepGrows(st, s, h, ch);
      StepUidKept(st, s, h, ch);
      var l := s.procs[h];
      if KeyOf(Call(st, l)).Some? {
        SenderWritesOwnKeys(st, s.shared, h, l);
      }
      if UidOf(l).Some? {
        GrowsKeepsMint(s.shared, StepOf(st, s, h, ch).shared, UidOf(l).value);
      }
    }
  }

  lemma GrowsKeepsMint(sh: Shared, sh2: Shared, uid: string)
    requires Grows(sh, sh2) && uid in sh.minted
    ensures uid in sh2.minted && IKey(sh2, uid) == IKey(sh, uid)
  {
    hide Extends, KeySpace.EmailIndexKey;
  }

  lemma FootprintApply(d: Deployment, s0: Sys, s: Sys, h: nat, e: Event)
    requires Inv(d.st, s) && Footprint(s0, s, h)
    requires e.Tick? || (e.SpawnSend? && e.h == h) || (e.Step? && e.h == h)
    ensures Footprint(s0, Apply(d, s, e), h)
  {
    match e
    case Step(_, ch) =>
      hide Inv, StepOf, CanStep, Footprint;
      if CanStep(d.st, s, h, ch) {
        FootprintStep(d.st, s0, s, h, ch);
      }
    case SpawnSend(_, req) =>
      hide Inv, StepOf, CanStep, Prepare, Hist, IKey;
    case Tick(n) =>
      hide Inv, StepOf, CanStep, Hist, KeySpace.EmailIndexKey, UidOf;
  }

  lemma {:induction false} SoloFootprint(d: Deployment, s0: Sys, es: seq<Event>, h: nat)
    requires Inv(d.st, s0) && h !in s0.procs && OnlySender(h, es)
    ensures Footprint(s0, Run(d, s0, es), h)
  {
    if es == [] {
    } else {
      hide Inv, Apply, Footprint;
      var before := es[..|es| - 1];
      SoloFootprint(d, s0, before, h);
      RunKeepsInv(d, s0, before);
      FootprintApply(d, s0, Run(d, s0, before), h, es[|es| - 1]);
    }
  }

  /** Run without interference and without KV faults, a send whose e-mail fails leaves the visible bucket,
      records and index alike, exactly as it was. */
  lemma FailedSendLeavesNoTrace(d: Deployment, t: int, es: seq<Event>, fs: seq<Event>, h: nat)
    requires h !in Run(d, Init(t), es).procs && OnlySender(h, fs)
    requires var s := Run(d, Init(t), es + fs);
             h in s.procs && s.procs[h].SDone? && s.procs[h].sendEnd.NotSent? && h !in s.shared.faulty
    ensures forall k :: Current(Run(d, Init(t), es + fs).shared.kv, k) == Current(Run(d, Init(t), es).shared.kv, k)
  {
    var s0, s := Run(d, Init(t), es), Run(d, Init(t), es + fs);
    hide Run, Init, Inv, Residue, Footprint, OnlySender;
    RunSplits(d, Init(t), es, fs);
    ReachableInv(d, t, es);
    ReachableInv(d, t, es + fs);
    SoloFootprint(d, s0, fs, h);
    ResiduesAreEnumerable(d, t, es + fs, h);
    DoneLocal(d.st, s, h);
    UndoneIsUnseen(d.st, s0, s, h);
  }

  lemma UndoneIsUnseen(st: Settings, s0: Sys, s: Sys, h: nat)
    requires h in s.procs && s.procs[h].SDone? && s.procs[h].sendEnd.NotSent? && h !in s.shared.faulty
    requires Footprint(s0, s, h) && EndInv(st, s.shared, h, s.procs[h].sendEnd)
    requires Residue(s.shared, h, s.procs[h].sendEnd)
    ensures forall k :: Current(s.shared.kv, k) == Current(s0.shared.kv, k)
  {
    hide IssuedInv, RecordOf, IKey, IndexKeyOf, Hist, Alive, Dead, Indexed, Unindexed, LiveKey, Current, SameExcept;
    var i := s.procs[h].sendEnd.i;
    IssuedIKey(st, s.shared, h, i);
    UnseenKeys(s0.shared.kv, s.shared.kv, i.uid, IndexKeyOf(i));
  }

  lemma UnseenKeys(b0: Bucket, b: Bucket, u: string, x: string)
    requires SameExcept(b0, b, Some(u), Some(x)) && Hist(b0, u) == [] && Hist(b0, x) == []
    requires !LiveKey(b, u) && !LiveKey(b, x)
    ensures forall k :: Current(b, k) == Current(b0, k)
  {
    hide Hist;
  }

  // ---------------------------------------------------------------- the same among other handlers

  lemma SenderMarksNothing(l: Local)
    ensures IsSender(l) ==> MarkOf(l) == None
  {
  }

  /** In every run a sender writes no key but the UID it minted and the index key of that UID. */
  lemma SenderWritesOnlyItsKeys(d: Deployment, t: int, es: seq<Event>, h: nat, k: string, j: nat)
    requires h in Run(d, Init(t), es).procs && IsSender(Run(d, Init(t), es).procs[h])
    requires k in Run(d, Init(t), es).shared.kv.hist && j < |Run(d, Init(t), es).shared.kv.hist[k]|
    requires Run(d, Init(t), es).shared.kv.hist[k][j].author == h
    ensures var s := Run(d, Init(t), es);
            && UidOf(s.procs[h]).Some? && UidOf(s.procs[h]).value in s.shared.minted
            && (k == UidOf(s.procs[h]).value || k == IKey(s.shared, UidOf(s.procs[h]).value))
  {
    hide Run, Init, Inv, UidOf, MarkOf, IsSender, PrimaryInv, IndexInv, IKey;
    var s := Run(d, Init(t), es);
    ReachableInv(d, t, es);
    InvKey(d.st, s, k);
    SenderMarksNothing(s.procs[h]);
    if k in s.shared.minted {
      AuthorsOfPrimary(s, k, j);
      InvOwner(d.st, s, k);
    } else {
      AuthorsOfIndex(s, k, j);
      InvOwner(d.st, s, s.shared.kv.hist[k][0].value.uid);
    }
  }

  /** Nothing that can be seen in the bucket was written by h. */
  ghost predicate Unseen(b: Bucket, h: nat) {
    forall k, j | LiveKey(b, k) && 0 <= j < |Hist(b, k)| :: Hist(b, k)[j].author != h
  }

  /** The rollback is atomic whatever the others do meanwhile: once a send whose e-mail failed has finished without
      a KV fault, neither of its keys is live, it has written no other key, and so nothing visible is its work. */
  lemma RolledBackSendIsUnseen(d: Deployment, t: int, es: seq<Event>, h: nat)
    requires var s := Run(d, Init(t), es);
             h in s.procs && s.procs[h].SDone? && s.procs[h].sendEnd.NotSent? && h !in s.shared.faulty
    ensures var s := Run(d, Init(t), es);
            var i := s.procs[h].sendEnd.i;
            && !LiveKey(s.shared.kv, i.uid) && !LiveKey(s.shared.kv, IndexKeyOf(i))
            && (forall k, j | 0 <= j < |Hist(s.shared.kv, k)| && Hist(s.shared.kv, k)[j].author == h ::
                  k == i.uid || k == IndexKeyOf(i))
            && Unseen(s.shared.kv, h)
  {
    hide Run, Init, Inv, EndInv, IKey, IndexKeyOf, LiveKey, IssuedInv, RollbackResidue;
    var s := Run(d, Init(t), es);
    var i := s.procs[h].sendEnd.i;
    ReachableInv(d, t, es);
    ResiduesAreEnumerable(d, t, es, h);
    DoneLocal(d.st, s, h);
    NotSentIssued(d.st, s.shared, h, s.procs[h].sendEnd);
    IssuedIKey(d.st, s.shared, h, i);
    forall k, j | 0 <= j < |Hist(s.shared.kv, k)| && Hist(s.shared.kv, k)[j].author == h
      ensures k == i.uid || k == IndexKeyOf(i)
    {
      SenderWritesOnlyItsKeys(d, t, es, h, k, j);
    }
  }

  lemma NotSentIssued(st: Settings, sh: Shared, h: nat, e: SendEnd)
    requires EndInv(st, sh, h, e) && e.NotSent?
    ensures IssuedInv(st, sh, h, e.i)
  {
    hide IssuedInv, RollbackInv;
  }

  // ---------------------------------------------------------------- index and records agree

  /** Between the two writes of a create, or between the two deletes of a rollback. */
  predicate InFlight(l: Local) {
    l.SPutIndex? || l.SUndo? || l.SDelIndex?
  }

  /** Every UID whose own sender is neither between two writes nor hit by a KV fault has a live record
      exactly when it has a live index entry. */
  lemma IndexAgreesWithRecords(d: Deployment, t: int, es: seq<Event>, uid: string)
    requires uid in Run(d, Init(t), es).shared.minted
    ensures var s := Run(d, Init(t), es);
            var h := s.shared.minted[uid].handler;
            h in s.procs && (!InFlight(s.procs[h]) && h !in s.shared.faulty ==>
              (LiveKey(s.shared.kv, uid) <==> LiveKey(s.shared.kv, IKey(s.shared, uid))))
  {
    hide Run, Init, Inv, LocalInv, LiveKey, InFlight, IKey;
    var s := Run(d, Init(t), es);
    ReachableInv(d, t, es);
    InvOwner(d.st, s, uid);
    var h := s.shared.minted[uid].handler;
    InvLocal(d.st, s, h);
    if !InFlight(s.procs[h]) && h !in s.shared.faulty {
      OwnerAgrees(d.st, s.shared, h, s.procs[h], uid);
    }
  }

  lemma IssuedIKey(st: Settings, sh: Shared, h: nat, i: Issued)
    ensures IssuedInv(st, sh, h, i) ==> i.uid in sh.minted && IKey(sh, i.uid) == IndexKeyOf(i)
  {
    if IssuedInv(st, sh, h, i) {
      IssuedMinted(st, sh, h, i);
    }
    hide IssuedInv, IKey, IndexKeyOf;
  }

  lemma BothOrNeither(sh: Shared, i: Issued)
    ensures Alive(sh, i) ==> LiveKey(sh.kv, i.uid)
    ensures Dead(sh, i) || P(sh, i.uid) == [] ==> !LiveKey(sh.kv, i.uid)
    ensures Indexed(sh, i) ==> LiveKey(sh.kv, IndexKeyOf(i))
    ensures Unindexed(sh, i) || NoIndex(sh, i) ==> !LiveKey(sh.kv, IndexKeyOf(i))
  {
    hide IndexKeyOf, RecordOf;
  }

  lemma UntouchedAgrees(sh: Shared, uid: string)
    requires Untouched(sh, uid)
    ensures !LiveKey(sh.kv, uid) && !LiveKey(sh.kv, IKey(sh, uid))
  {
    hide IKey;
  }

  lemma OwnerAgrees(st: Settings, sh: Shared, h: nat, l: Local, uid: string)
    requires LocalInv(st, sh, h, l) && UidOf(l) == Some(uid) && !InFlight(l) && h !in sh.faulty && uid in sh.minted
    ensures LiveKey(sh.kv, uid) <==> LiveKey(sh.kv, IKey(sh, uid))
  {
    hide IssuedInv, Alive, Dead, Indexed, Unindexed, NoIndex, LiveKey, IKey, MintedFor, Untouched, P, IndexKeyOf;
    match l
    case SSign(_, u, _) => UntouchedAgrees(sh, u);
    case SBuild(_, u, _) => UntouchedAgrees(sh, u);
    case SPutRecord(i) => IssuedIKey(st, sh, h, i); BothOrNeither(sh, i);
    case SSend(i) => IssuedIKey(st, sh, h, i); BothOrNeither(sh, i);
    case SDelGet(i) => IssuedIKey(st, sh, h, i); BothOrNeither(sh, i);
    case SDelRecord(i, _) => IssuedIKey(st, sh, h, i); BothOrNeither(sh, i);
    case SDone(Invalid(u)) => UntouchedAgrees(sh, u.value);
    case SDone(NotSigned(u)) => UntouchedAgrees(sh, u);
    case SDone(NotSent(i, _)) => IssuedIKey(st, sh, h, i); BothOrNeither(sh, i);
    case SDone(Sent(i)) => IssuedIKey(st, sh, h, i); BothOrNeither(sh, i);
    case _ =>
  }

  // ---------------------------------------------------------------- coherence

  lemma LifeIsRecordHistory(sh: Shared, procs: map<nat, Local>, uid: string)
    requires uid in sh.minted && PrimaryInv(sh, procs, uid)
    ensures RecordHistory(P(sh, uid), uid)
    ensures P(sh, uid)[0].value.record.recipient.email == sh.minted[uid].payload.recipientEmail
  {
    hide MarkedBy, IsPending;
  }

  lemma KeyIsCoherent(st: Settings, s: Sys, k: string)
    requires Inv(st, s) && k in s.shared.kv.hist
    ensures if SlashFree(k) then RecordHistory(s.shared.kv.hist[k], k) else IndexHistory(s.shared.kv, k)
  {
    hide Inv, PrimaryInv, RecordHistory, KeySpace.EmailIndexKey, SlashFree;
    InvParts(st, s);
    InvKey(st, s, k);
    if k in s.shared.minted {
      InvOwner(st, s, k);
      LifeIsRecordHistory(s.shared, s.procs, k);
    } else {
      IndexKeyNotMinted(s, k);
      var u := Hist(s.shared.kv, k)[0].value.uid;
      InvOwner(st, s, u);
      InvKey(st, s, u);
      LifeIsRecordHistory(s.shared, s.procs, u);
    }
  }

  lemma InvCoherent(st: Settings, s: Sys)
    requires Inv(st, s)
    ensures Coherent(s.shared.kv)
  {
    hide Inv, RecordHistory, IndexHistory;
    forall k | k in s.shared.kv.hist
      ensures if SlashFree(k) then RecordHistory(s.shared.kv.hist[k], k) else IndexHistory(s.shared.kv, k)
    {
      KeyIsCoherent(st, s, k);
    }
  }

  /** Every reachable bucket is coherent: primary keys hold records of their own UID and of one e-mail,
      index keys name a UID whose record carries the indexed e-mail. */
  lemma ReachableCoherent(d: Deployment, t: int, es: seq<Event>)
    ensures BucketOk(Run(d, Init(t), es).shared.kv) && Coherent(Run(d, Init(t), es).shared.kv)
  {
    hide Run, Init, Inv, Coherent, BucketOk;
    ReachableInv(d, t, es);
    InvBucket(d.st, Run(d, Init(t), es));
    InvCoherent(d.st, Run(d, Init(t), es));
  }

  /** No send or rollback for the e-mail is between two writes, and none of its senders saw a KV fault. */
  ghost predicate SettledFor(s: Sys, email: Bytes) {
    forall u | u in s.shared.minted
               && KeySpace.SameAddress(email, s.shared.minted[u].payload.recipientEmail) ::
      s.shared.minted[u].handler in s.procs
      && !InFlight(s.procs[s.shared.minted[u].handler]) && s.shared.minted[u].handler !in s.shared.faulty
  }

  lemma LiveRecordIsMinted(st: Settings, s: Sys, u: string, email: Bytes)
    requires Inv(st, s) && LiveRecordOf(s.shared.kv, u, email)
    ensures u in s.shared.minted
    ensures Current(s.shared.kv, u).Some? && Current(s.shared.kv, u).value.value.Rec?
    ensures Current(s.shared.kv, u).value.value.record.recipient.email == s.shared.minted[u].payload.recipientEmail
    ensures KeySpace.SameAddress(email, s.shared.minted[u].payload.recipientEmail)
  {
    hide Inv, KeySpace.SameAddress, KeySpace.EmailIndexKey, PrimaryInv;
    InvParts(st, s);
    InvKey(st, s, u);
    if u !in s.shared.minted {
      IndexKeyNotMinted(s, u);
      assert false;
    }
    LifeIsRecordHistory(s.shared, s.procs, u);
  }

  lemma SettledIsComplete(d: Deployment, t: int, es: seq<Event>, email: Bytes)
    requires SettledFor(Run(d, Init(t), es), email)
    ensures IndexComplete(Run(d, Init(t), es).shared.kv, email)
  {
    hide Run, Init, Inv, KeySpace.SameAddress, KeySpace.EmailIndexKey, LiveRecordOf, Current, LiveKey, InFlight;
    var s := Run(d, Init(t), es);
    ReachableInv(d, t, es);
    forall u | LiveRecordOf(s.shared.kv, u, email)
      ensures Current(s.shared.kv, u).Some? && Current(s.shared.kv, u).value.value.Rec?
      ensures var r := Current(s.shared.kv, u).value.value.record;
              LiveKey(s.shared.kv, KeySpace.EmailIndexKey(r.recipient.email, u))
    {
      LiveRecordIsMinted(d.st, s, u, email);
      LiveRecordIs(s.shared.kv, u, email);
      IndexAgreesWithRecords(d, t, es, u);
    }
  }

  /** At every state of every run in which the e-mail is settled, the indexed lookup returns exactly the
      live records of that e-mail, each once. */
  lemma SettledLookupIsExact(d: Deployment, t: int, es: seq<Event>, email: Bytes, keys: seq<string>)
    requires SettledFor(Run(d, Init(t), es), email) && Lists(Run(d, Init(t), es).shared.kv, keys)
    ensures var b := Run(d, Init(t), es).shared.kv;
            FetchAll(b, ScanUids(keys, email)).Some?
            && ExactlyRecordsOf(b, email, FetchAll(b, ScanUids(keys, email)).value)
  {
    hide Run, Init, SettledFor, Lists, ExactlyRecordsOf, IndexComplete, Coherent, BucketOk, FetchAll, ScanUids;
    ReachableCoherent(d, t, es);
    SettledIsComplete(d, t, es, email);
    LookupEqualsScan(Run(d, Init(t), es).shared.kv, keys, email);
  }
}
