/** What the store's contracts amount to for its callers: lookups are sound and complete under arbitrary
    interference and exact without it, a created invite is found, and Delete undoes Create. */
module StoreTheorems {
  import opened Base
  import opened Model
  import opened KeyValue
  import opened Protocol
  import opened Lookup
  import opened World
  import opened InviteStore
  import Stability
  import KeySpace

  // ---------------------------------------------------------------- what a successful collection holds

  predicate FoundAt(o: Obs, r: InviteRecord) {
    o.res.Got? && DecodeGet(o.res.get) == Ok(r)
  }

  lemma {:induction false} CollectMeans(obs: seq<Obs>)
    requires Collect(obs).Ok?
    ensures forall i | 0 <= i < |obs| ::
        obs[i].res.Got? && (obs[i].res.get.KeyNotFound? || DecodeGet(obs[i].res.get).Ok?)
    ensures forall i | 0 <= i < |obs| && DecodeGet(obs[i].res.get).Ok? ::
        DecodeGet(obs[i].res.get).value in Collect(obs).value
    ensures forall r | r in Collect(obs).value :: exists i :: 0 <= i < |obs| && FoundAt(obs[i], r)
  {
    if obs == [] {
    } else {
      var before := obs[..|obs| - 1];
      assert obs == before + [obs[|obs| - 1]];
      CollectMeans(before);
      forall r | r in Collect(obs).value ensures exists i :: 0 <= i < |obs| && FoundAt(obs[i], r) {
        if r in Collect(before).value {
          var i :| 0 <= i < |before| && FoundAt(before[i], r);
          assert FoundAt(obs[i], r);
        } else {
          assert FoundAt(obs[|obs| - 1], r);
        }
      }
    }
  }

  /** Reads of distinct UIDs, each finding a record of its own UID, find no record twice. */
  lemma {:induction false} CollectDistinct(obs: seq<Obs>, uids: seq<string>)
    requires Collect(obs).Ok? && |obs| <= |uids| && NoDuplicates(uids)
    requires forall i, r | 0 <= i < |obs| && FoundAt(obs[i], r) :: r.uid == uids[i]
    ensures forall i, j | 0 <= i < j < |Collect(obs).value| :: Collect(obs).value[i].uid != Collect(obs).value[j].uid
  {
    if obs == [] {
    } else {
      var before, last := obs[..|obs| - 1], obs[|obs| - 1];
      CollectDistinct(before, uids);
      CollectMeans(before);
      forall i | 0 <= i < |Collect(before).value| && FoundAt(last, Collect(obs).value[|Collect(obs).value| - 1])
        ensures Collect(before).value[i].uid != uids[|before|]
      {
        var r := Collect(before).value[i];
        assert r in Collect(before).value;
        var j :| 0 <= j < |before| && FoundAt(before[j], r);
        assert FoundAt(obs[j], r);
      }
    }
  }

  // ---------------------------------------------------------------- soundness

  /** Every bucket the lookup saw was coherent, as every reachable bucket is. */
  ghost predicate SawCoherent(moment: map<string, Protocol.Shared>, obs: seq<Obs>) {
    && (forall k | k in moment :: Coherent(moment[k].kv))
    && (forall i | 0 <= i < |obs| :: Coherent(obs[i].before.kv))
  }

  /** r was the current record of its own UID when it was read, and its e-mail is the one asked for. */
  ghost predicate CurrentMatch(o: Obs, r: InviteRecord, email: Bytes) {
    && Current(o.before.kv, r.uid).Some? && Current(o.before.kv, r.uid).value.value == Rec(r)
    && KeySpace.SameAddress(email, r.recipient.email)
  }

  lemma ScannedKeyListed(keys: seq<string>, email: Bytes, uid: string)
    requires NoDuplicates(keys) && uid in ScanUids(keys, email)
    ensures KeySpace.ScanPrefix(email) + uid in keys
  {
    hide KeySpace.ScanPrefix, ScanUids;
    ScanUidsExact(keys, email);
  }

  lemma ReadMatches(sh0: Protocol.Shared, m: Protocol.Shared, listed: Protocol.Shared, o: Obs, email: Bytes,
                    uid: string, r: InviteRecord)
    requires LiveAt(sh0, m, listed, KeySpace.ScanPrefix(email) + uid) && Env(listed, o.before)
    requires Coherent(m.kv) && Coherent(o.before.kv)
    requires ReadOk(o, uid) && FoundAt(o, r)
    ensures r.uid == uid && CurrentMatch(o, r, email)
  {
    hide Coherent, KeySpace.ScanPrefix, KeySpace.SameAddress, Env, Current;
    EnvTransitive(m, listed, o.before);
    EnvExtends(m, o.before);
    CurrentIsLive(o.before.kv, uid);
    IndexedRecordMatches(m.kv, o.before.kv, email, uid);
  }

  lemma EnvExtends(sh: Protocol.Shared, sh2: Protocol.Shared)
    requires Env(sh, sh2)
    ensures Extends(sh.kv, sh2.kv)
  {
    hide BucketOk, Extends;
  }

  /** The parts of a successful lookup. */
  lemma LookupParts(sh0: Protocol.Shared, log0: seq<Obs>, listed: Protocol.Shared, l: Option<Listing>,
                    moment: map<string, Protocol.Shared>, sh: Protocol.Shared, log: seq<Obs>, email: Bytes, r: Records)
    requires LookupContract(sh0, log0, listed, l, moment, sh, log, email, r) && r.Ok?
    ensures Env(sh0, listed) && Env(listed, sh) && log0 <= log && l.Some? && l.value.complete
    ensures ListingOk(sh0, listed, l.value, moment) && Reads(listed, log[|log0|..], sh, ScanUids(l.value.keys, email))
    ensures Collect(log[|log0|..]) == r && |log| - |log0| == |ScanUids(l.value.keys, email)|
  {
    hide Env, ListingOk, Reads, Collect, ScanUids;
  }

  lemma ListingParts(start: Protocol.Shared, end: Protocol.Shared, l: Listing, moment: map<string, Protocol.Shared>)
    requires ListingOk(start, end, l, moment)
    ensures NoDuplicates(l.keys)
    ensures forall k | k in l.keys :: k in moment && LiveAt(start, moment[k], end, k)
    ensures l.complete ==> forall k | LiveThroughout(start.kv, end.kv, k) :: k in l.keys
  {
    hide LiveAt, LiveThroughout;
  }

  lemma FoundRecordMatches(sh0: Protocol.Shared, listed: Protocol.Shared, l: Listing,
                           moment: map<string, Protocol.Shared>, sh: Protocol.Shared, obs: seq<Obs>, email: Bytes,
                           i: nat, r: InviteRecord)
    requires ListingOk(sh0, listed, l, moment) && Reads(listed, obs, sh, ScanUids(l.keys, email))
    requires SawCoherent(moment, obs)
    requires i < |obs| && FoundAt(obs[i], r)
    ensures r.uid == ScanUids(l.keys, email)[i] && CurrentMatch(obs[i], r, email)
  {
    hide Coherent, Env, LiveAt, ReadOk, CurrentMatch, KeySpace.ScanPrefix, ScanUids, ListingOk, FoundAt;
    ListingParts(sh0, listed, l, moment);
    var uid := ScanUids(l.keys, email)[i];
    ScannedKeyListed(l.keys, email, uid);
    ReadMatches(sh0, moment[KeySpace.ScanPrefix(email) + uid], listed, obs[i], email, uid, r);
  }

  /** Soundness under arbitrary interference and faults: every record GetByEmail returns has the e-mail
      asked for and was current when it was read, and no invite is returned twice. */
  lemma LookupIsSound(sh0: Protocol.Shared, log0: seq<Obs>, listed: Protocol.Shared, l: Option<Listing>,
                      moment: map<string, Protocol.Shared>, sh: Protocol.Shared, log: seq<Obs>, email: Bytes,
                      r: Records)
    requires LookupContract(sh0, log0, listed, l, moment, sh, log, email, r) && r.Ok? && log0 <= log
    requires SawCoherent(moment, log[|log0|..])
    ensures forall rec | rec in r.value :: exists j :: |log0| <= j < |log| && CurrentMatch(log[j], rec, email)
    ensures forall i, j | 0 <= i < j < |r.value| :: r.value[i].uid != r.value[j].uid
  {
    hide LookupContract, ListingOk, Reads, Collect, SawCoherent, CurrentMatch, FoundAt, ScanUids, NoDuplicates, Env;
    LookupParts(sh0, log0, listed, l, moment, sh, log, email, r);
    ListingParts(sh0, listed, l.value, moment);
    var obs, uids := log[|log0|..], ScanUids(l.value.keys, email);
    ScanUidsExact(l.value.keys, email);
    forall i, rec | 0 <= i < |obs| && FoundAt(obs[i], rec)
      ensures rec.uid == uids[i] && CurrentMatch(obs[i], rec, email)
    {
      FoundRecordMatches(sh0, listed, l.value, moment, sh, obs, email, i, rec);
    }
    CollectDistinct(obs, uids);
    CollectMeans(obs);
    forall rec | rec in r.value ensures exists j :: |log0| <= j < |log| && CurrentMatch(log[j], rec, email) {
      var i :| 0 <= i < |obs| && FoundAt(obs[i], rec);
      assert log[|log0| + i] == obs[i];
    }
  }

  // ---------------------------------------------------------------- completeness

  /** The record under uid when the lookup read it is among the results. */
  ghost predicate Returned(log0: seq<Obs>, log: seq<Obs>, uid: string, rs: seq<InviteRecord>) {
    exists j :: |log0| <= j < |log| && ReadAndReturned(log[j], uid, rs)
  }

  predicate ReadAndReturned(o: Obs, uid: string, rs: seq<InviteRecord>) {
    && Current(o.before.kv, uid).Some? && Current(o.before.kv, uid).value.value.Rec?
    && Current(o.before.kv, uid).value.value.record in rs
  }

  lemma ReadLive(listed: Protocol.Shared, o: Obs, sh: Protocol.Shared, uid: string, rs: seq<InviteRecord>)
    requires ReadOk(o, uid) && Env(listed, o.before) && Env(o.before, sh) && LiveThroughout(listed.kv, sh.kv, uid)
    requires o.res.get.KeyNotFound? || DecodeGet(o.res.get).Ok?
    requires DecodeGet(o.res.get).Ok? ==> DecodeGet(o.res.get).value in rs
    ensures ReadAndReturned(o, uid, rs)
  {
    hide Env, LiveThroughout, Current;
    LiveBetween(listed, o.before, sh, uid);
    CurrentIsLive(o.before.kv, uid);
  }

  lemma IndexedUidScanned(keys: seq<string>, email: Bytes, e: Bytes, uid: string)
    requires NoDuplicates(keys) && KeySpace.EmailIndexKey(e, uid) in keys
    requires KeySpace.SameAddress(email, e)
    ensures uid in ScanUids(keys, email)
  {
    hide KeySpace.EmailIndexKey, KeySpace.ScanPrefix, KeySpace.SameAddress, ScanUids;
    KeySpace.ScanPrefixExact(email, e, uid);
    ScanUidsExact(keys, email);
    var p, k := KeySpace.ScanPrefix(email), KeySpace.EmailIndexKey(e, uid);
    assert p + k[|p|..] == k;
  }

  /** Completeness under arbitrary interference: a successful lookup returns every invite whose index entry
      and record were there when it started and were not deleted before it ended. */
  lemma LookupIsComplete(sh0: Protocol.Shared, log0: seq<Obs>, listed: Protocol.Shared, l: Option<Listing>,
                         moment: map<string, Protocol.Shared>, sh: Protocol.Shared, log: seq<Obs>, email: Bytes,
                         r: Records, e: Bytes, uid: string)
    requires LookupContract(sh0, log0, listed, l, moment, sh, log, email, r) && r.Ok?
    requires KeySpace.SameAddress(email, e)
    requires LiveThroughout(sh0.kv, sh.kv, KeySpace.EmailIndexKey(e, uid)) && LiveThroughout(sh0.kv, sh.kv, uid)
    ensures Returned(log0, log, uid, r.value)
  {
    hide LookupContract, ListingOk, Collect, CurrentMatch, FoundAt, ScanUids, NoDuplicates, Env, LiveThroughout,
      KeySpace.EmailIndexKey, KeySpace.SameAddress, ReadOk, ReadAndReturned;
    LookupParts(sh0, log0, listed, l, moment, sh, log, email, r);
    ListingParts(sh0, listed, l.value, moment);
    LiveBefore(sh0, listed, sh, KeySpace.EmailIndexKey(e, uid));
    LiveBetween(sh0, listed, sh, uid);
    IndexedUidScanned(l.value.keys, email, e, uid);
    var obs, uids := log[|log0|..], ScanUids(l.value.keys, email);
    var i :| 0 <= i < |uids| && uids[i] == uid;
    CollectMeans(obs);
    ReadLive(listed, obs[i], sh, uid, r.value);
    assert log[|log0| + i] == obs[i];
  }

  lemma LiveBefore(start: Protocol.Shared, mid: Protocol.Shared, end: Protocol.Shared, k: string)
    requires Env(start, mid) && Env(mid, end) && LiveThroughout(start.kv, end.kv, k)
    ensures LiveThroughout(start.kv, mid.kv, k)
  {
    hide BucketOk, LiveKey;
    Stability.GrowsHist(start, mid, k);
    Stability.GrowsHist(mid, end, k);
  }

  /** From b to b2 nobody deletes k. */
  predicate NotDeletedSince(b: Bucket, b2: Bucket, k: string) {
    forall j | |Hist(b, k)| <= j < |Hist(b2, k)| :: Hist(b2, k)[j].Put?
  }

  /** A write that was acknowledged makes its key live, and while nobody deletes the key it stays so. */
  lemma PutThenLive(o: Obs, k: string, v: Value, me: nat, sh0: Protocol.Shared, sh: Protocol.Shared)
    requires PutOk(o, k, v, me) && o.res.ok && Env(o.after, sh0) && Env(sh0, sh)
    requires NotDeletedSince(o.after.kv, sh.kv, k)
    ensures LiveThroughout(sh0.kv, sh.kv, k)
  {
    hide BucketOk, KvPut, Current;
    PutThenGone(o.before.kv, k, v, me, k);
    CurrentIsLive(o.after.kv, k);
    Stability.GrowsHist(o.after, sh0, k);
    Stability.GrowsHist(sh0, sh, k);
    hide LiveKey, Stability.Grows;
    assert LiveThroughout(o.after.kv, sh.kv, k);
    LiveBetween(o.after, sh0, sh, k);
  }

  /** An invite whose Create has succeeded is found by every later successful lookup of its e-mail, unless before
      the end of that lookup somebody deletes its record or its index entry. */
  lemma CreatedIsFound(log0: seq<Obs>, log1: seq<Obs>, me: nat, record: InviteRecord, sh0: Protocol.Shared,
                       log2: seq<Obs>, listed: Protocol.Shared, l: Option<Listing>,
                       moment: map<string, Protocol.Shared>, sh: Protocol.Shared, log: seq<Obs>, email: Bytes,
                       r: Records)
    requires CreateContract(log0, log1, me, record, Ok(())) && log1 != [] && Env(log1[|log1| - 1].after, sh0)
    requires LookupContract(sh0, log2, listed, l, moment, sh, log, email, r) && r.Ok?
    requires KeySpace.SameAddress(email, record.recipient.email)
    requires NotDeletedSince(log1[|log0|].after.kv, sh.kv, record.uid)
    requires NotDeletedSince(log1[|log1| - 1].after.kv, sh.kv, RecordIndexKey(record))
    ensures Returned(log2, log, record.uid, r.value)
  {
    CreateWasTwoPuts(log0, log1, me, record);
    hide LookupContract, CreateContract, Env, LiveThroughout, KeySpace.EmailIndexKey, KeySpace.SameAddress, Returned,
      PutOk, NotDeletedSince, ListingOk, Reads;
    var put, index := log1[|log0|], log1[|log0| + 1];
    LookupParts(sh0, log2, listed, l, moment, sh, log, email, r);
    EnvTransitive(sh0, listed, sh);
    EnvTransitive(put.after, index.before, index.after);
    EnvTransitive(put.after, index.after, sh0);
    PutThenLive(put, record.uid, Rec(record), me, sh0, sh);
    PutThenLive(index, RecordIndexKey(record), Idx(record.uid), me, sh0, sh);
    LookupIsComplete(sh0, log2, listed, l, moment, sh, log, email, r, record.recipient.email, record.uid);
  }

  // ---------------------------------------------------------------- without interference

  lemma ExtendsAntisymmetric(b: Bucket, b2: Bucket)
    requires Extends(b, b2) && Extends(b2, b)
    ensures b == b2
  {
    assert b.hist.Keys == b2.hist.Keys;
    forall k | k in b.hist ensures b.hist[k] == b2.hist[k] {
      assert b.hist[k] <= b2.hist[k] <= b.hist[k];
    }
  }

  lemma NothingBetween(sh0: Protocol.Shared, m: Protocol.Shared, sh: Protocol.Shared)
    requires Env(sh0, m) && Env(m, sh) && sh.kv == sh0.kv
    ensures m.kv == sh0.kv
  {
    hide Env, Extends;
    EnvExtends(sh0, m);
    EnvExtends(m, sh);
    ExtendsAntisymmetric(sh0.kv, m.kv);
  }

  lemma {:induction false} CollectIsFetch(b: Bucket, obs: seq<Obs>, uids: seq<string>)
    requires |obs| == |uids| && (forall i | 0 <= i < |obs| :: ReadOk(obs[i], uids[i]) && obs[i].before.kv == b)
    requires Collect(obs).Ok?
    ensures FetchAll(b, uids) == Some(Collect(obs).value)
  {
    hide Current;
    if obs == [] {
    } else {
      CollectIsFetch(b, obs[..|obs| - 1], uids[..|uids| - 1]);
      CurrentIsLive(b, uids[|uids| - 1]);
    }
  }

  lemma ListingIsExact(sh0: Protocol.Shared, listed: Protocol.Shared, l: Listing, moment: map<string, Protocol.Shared>)
    requires ListingOk(sh0, listed, l, moment) && l.complete && listed.kv == sh0.kv
    ensures Lists(sh0.kv, l.keys)
  {
    hide ListingOk, Env, LiveKey;
    ListingParts(sh0, listed, l, moment);
    forall k ensures k in l.keys <==> LiveKey(sh0.kv, k) {
      if LiveKey(sh0.kv, k) {
        assert LiveThroughout(sh0.kv, listed.kv, k);
      } else if k in l.keys {
        NothingBetween(sh0, moment[k], listed);
      }
    }
  }

  lemma ReadsOfOneBucket(sh0: Protocol.Shared, listed: Protocol.Shared, obs: seq<Obs>, sh: Protocol.Shared,
                         uids: seq<string>)
    requires Env(sh0, listed) && Env(listed, sh) && sh.kv == sh0.kv && Reads(listed, obs, sh, uids)
    ensures listed.kv == sh0.kv && forall i | 0 <= i < |obs| :: ReadOk(obs[i], uids[i]) && obs[i].before.kv == sh0.kv
  {
    hide Env, ReadOk;
    NothingBetween(sh0, listed, sh);
    forall i | 0 <= i < |obs| ensures obs[i].before.kv == sh0.kv {
      assert ReadOk(obs[i], uids[i]);
      NothingBetween(listed, obs[i].before, sh);
    }
  }

  /** Without interference, on a coherent bucket whose index is complete, GetByEmail returns exactly the live
      records of the e-mail, each once. */
  lemma UndisturbedLookupIsExact(sh0: Protocol.Shared, log0: seq<Obs>, listed: Protocol.Shared, l: Option<Listing>,
                                 moment: map<string, Protocol.Shared>, sh: Protocol.Shared, log: seq<Obs>, email: Bytes,
                                 r: Records)
    requires LookupContract(sh0, log0, listed, l, moment, sh, log, email, r) && r.Ok? && sh.kv == sh0.kv
    requires Coherent(sh0.kv) && IndexComplete(sh0.kv, email)
    ensures ExactlyRecordsOf(sh0.kv, email, r.value)
  {
    hide LookupContract, ListingOk, Reads, Collect, ScanUids, Env, ReadOk, Coherent, IndexComplete, ExactlyRecordsOf,
      Lists, FetchAll;
    LookupParts(sh0, log0, listed, l, moment, sh, log, email, r);
    var obs, uids := log[|log0|..], ScanUids(l.value.keys, email);
    ReadsOfOneBucket(sh0, listed, obs, sh, uids);
    ListingIsExact(sh0, listed, l.value, moment);
    CollectIsFetch(sh0.kv, obs, uids);
    LookupEqualsScan(sh0.kv, l.value.keys, email);
  }

  /** No action of others between the actions from n on. */
  ghost predicate Undisturbed(log: seq<Obs>, n: nat) {
    forall i | n <= i < |log| - 1 :: log[i + 1].before.kv == log[i].after.kv
  }

  lemma PutThenGone(b: Bucket, k: string, v: Value, me: nat, x: string)
    ensures x != k ==>
              Current(KvPut(b, k, v, me), x) == Current(b, x) && Current(KvDelete(b, k, me), x) == Current(b, x)
    ensures Current(KvPut(b, k, v, me), k) == Some(Entry(v, b.last + 1)) && Current(KvDelete(b, k, me), k) == None
  {
  }

  /** Of one key, a write that was made or a removal that succeeded: what it makes of the visible bucket. */
  lemma DeleteSees(o: Obs, k: string, me: nat, x: string)
    requires DeleteOk(o, k, me) && !o.res.delete.DeleteFault?
    ensures Current(o.after.kv, x) == if x == k then None else Current(o.before.kv, x)
  {
    hide Current;
    CurrentIsLive(o.before.kv, k);
    PutThenGone(o.before.kv, k, Idx(""), me, x);
    hide KvDelete, KvPut, LiveKey;
  }

  lemma PutSees(o: Obs, k: string, v: Value, me: nat, x: string)
    requires PutOk(o, k, v, me) && o.res.ok
    ensures Current(o.after.kv, x) == if x == k then Some(Entry(v, o.before.kv.last + 1)) else Current(o.before.kv, x)
  {
    hide Current, KvPut, KvDelete;
    PutThenGone(o.before.kv, k, v, me, x);
  }

  /** Create reports what it did: without interference, success leaves exactly the record and its index entry
      visible on top of what was there. */
  lemma CreateIsSeen(log0: seq<Obs>, log: seq<Obs>, me: nat, record: InviteRecord, x: string)
    requires CreateContract(log0, log, me, record, Ok(())) && Undisturbed(log, |log0|) && SlashFree(record.uid)
    ensures log != [] && |log0| < |log|
    ensures var b, b2 := log[|log0|].before.kv, log[|log| - 1].after.kv;
            if x == record.uid then Current(b2, x).Some? && Current(b2, x).value.value == Rec(record)
            else if x == RecordIndexKey(record) then
              Current(b2, x).Some? && Current(b2, x).value.value == Idx(record.uid)
            else Current(b2, x) == Current(b, x)
  {
    hide Current, PutOk, RecordIndexKey;
    CreateWasTwoPuts(log0, log, me, record);
    var n := |log0|;
    IndexKeyDiffers(record);
    PutSees(log[n], record.uid, Rec(record), me, x);
    PutSees(log[n + 1], RecordIndexKey(record), Idx(record.uid), me, x);
  }

  lemma IndexKeyDiffers(record: InviteRecord)
    requires SlashFree(record.uid)
    ensures RecordIndexKey(record) != record.uid
  {
    KeySpace.EmailIndexKeyNotPrimary(record.recipient.email, record.uid, record.uid);
    hide KeySpace.EmailIndexKey, SlashFree;
  }

  lemma CreateWasTwoPuts(log0: seq<Obs>, log: seq<Obs>, me: nat, record: InviteRecord)
    requires CreateContract(log0, log, me, record, Ok(()))
    ensures |log| == |log0| + 2 && log0 <= log
    ensures PutOk(log[|log0|], record.uid, Rec(record), me) && log[|log0|].res == PutDone(true)
    ensures PutOk(log[|log0| + 1], RecordIndexKey(record), Idx(record.uid), me) && log[|log0| + 1].res == PutDone(true)
    ensures Next(log[|log0|], log[|log0| + 1])
  {
    hide Wrote, RecordIndexKey, DeleteOk, Next;
  }

  lemma DeleteWasTwoDeletes(log0: seq<Obs>, log: seq<Obs>, me: nat, record: InviteRecord)
    requires DeleteContract(log0, log, me, record.uid, Ok(()))
    requires Current(log[|log0|].before.kv, record.uid).Some?
    requires Current(log[|log0|].before.kv, record.uid).value.value == Rec(record)
    ensures |log| == |log0| + 3 && log0 <= log && Harmless(log[|log0|])
    ensures DeleteOk(log[|log0| + 1], record.uid, me) && !log[|log0| + 1].res.delete.DeleteFault?
    ensures DeleteOk(log[|log0| + 2], RecordIndexKey(record), me)
  {
    CurrentIsLive(log[|log0|].before.kv, record.uid);
    hide Current, KeySpace.EmailIndexKey, Removed, DeleteOk;
    assert log[|log0| + 1].op == Op.Delete(record.uid) by {
      DeleteOpOf(log[|log0| + 1], record.uid, me);
    }
  }

  lemma DeleteExtends(log0: seq<Obs>, log: seq<Obs>, me: nat, uid: string, r: Outcome)
    requires DeleteContract(log0, log, me, uid, r)
    ensures log0 <= log && |log0| < |log| && Harmless(log[|log0|])
  {
    hide Current, KeySpace.EmailIndexKey, Removed, DeleteOk;
  }

  lemma DeleteOpOf(o: Obs, k: string, me: nat)
    requires DeleteOk(o, k, me)
    ensures o.op == Op.Delete(k) && o.res.DeleteDone?
  {
    hide Removed;
  }

  /** Delete undoes Create: when nobody interferes and both keys were unused, a successful Delete whose
      index removal did not fail leaves the visible bucket exactly as it was before the Create. */
  lemma DeleteUndoesCreate(log0: seq<Obs>, log1: seq<Obs>, log: seq<Obs>, me: nat, record: InviteRecord)
    requires CreateContract(log0, log1, me, record, Ok(())) && DeleteContract(log1, log, me, record.uid, Ok(()))
    requires Undisturbed(log, |log0|) && SlashFree(record.uid) && log[|log| - 1].res != DeleteDone(DeleteFault)
    requires !LiveKey(log[|log0|].before.kv, record.uid) && !LiveKey(log[|log0|].before.kv, RecordIndexKey(record))
    ensures forall x :: Current(log[|log| - 1].after.kv, x) == Current(log[|log0|].before.kv, x)
  {
    hide CreateContract, DeleteContract, Current, DeleteOk, RecordIndexKey, LiveKey;
    CreateWasTwoPuts(log0, log1, me, record);
    DeleteExtends(log1, log, me, record.uid, Ok(()));
    var n, b := |log0|, log[|log0|].before.kv;
    CreatedThen(log0, log1, log);
    assert Undisturbed(log1, n);
    CreateIsSeen(log0, log1, me, record, record.uid);
    assert log[n + 2].before.kv == log[n + 1].after.kv;
    DeleteWasTwoDeletes(log1, log, me, record);
    assert log[n + 3].before.kv == log[n + 2].after.kv && log[n + 4].before.kv == log[n + 3].after.kv;
    DeleteOpOf(log[n + 4], RecordIndexKey(record), me);
    CurrentIsLive(b, record.uid);
    CurrentIsLive(b, RecordIndexKey(record));
    forall x ensures Current(log[n + 4].after.kv, x) == Current(b, x) {
      CreateIsSeen(log0, log1, me, record, x);
      DeleteSees(log[n + 3], record.uid, me, x);
      DeleteSees(log[n + 4], RecordIndexKey(record), me, x);
    }
  }

  lemma CreatedThen(log0: seq<Obs>, log1: seq<Obs>, log: seq<Obs>)
    requires log0 <= log1 <= log
    ensures forall i | 0 <= i < |log1| :: log1[i] == log[i]
  {
  }
}
