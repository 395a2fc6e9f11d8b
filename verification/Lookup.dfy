/** Looking invites up by e-mail: the index scan against a plain scan of the records. */
module Lookup {
  import opened Base
  import opened Model
  import opened KeyValue
  import KeySpace

  /** The UIDs a prefix scan of a key listing yields, in listing order. */
  function ScanUids(keys: seq<string>, email: Bytes): seq<string> {
    if keys == [] then []
    else
      var k := keys[|keys| - 1];
      ScanUids(keys[..|keys| - 1], email)
      + if KeySpace.ScanPrefix(email) <= k then [k[|KeySpace.ScanPrefix(email)|..]] else []
  }

  /** The live records under the given keys, skipping the missing ones; None if one does not decode. */
  function FetchAll(b: Bucket, uids: seq<string>): Option<seq<InviteRecord>> {
    if uids == [] then Some([])
    else
      var before, e := FetchAll(b, uids[..|uids| - 1]), Current(b, uids[|uids| - 1]);
      if before.None? || (e.Some? && e.value.value.Idx?) then None
      else if e.None? then before
      else Some(before.value + [e.value.value.record])
  }

  predicate NoDuplicates<T(==)>(s: seq<T>) {
    forall i, j | 0 <= i < j < |s| :: s[i] != s[j]
  }

  ghost predicate Lists(b: Bucket, keys: seq<string>) {
    NoDuplicates(keys) && forall k :: k in keys <==> LiveKey(b, k)
  }

  lemma {:induction false} ScanUidsExact(keys: seq<string>, email: Bytes)
    requires NoDuplicates(keys)
    ensures NoDuplicates(ScanUids(keys, email))
    ensures forall u :: u in ScanUids(keys, email) <==> KeySpace.ScanPrefix(email) + u in keys
  {
    hide KeySpace.ScanPrefix;
    if keys != [] {
      var before, k, p := keys[..|keys| - 1], keys[|keys| - 1], KeySpace.ScanPrefix(email);
      assert keys == before + [k];
      ScanUidsExact(before, email);
      forall u ensures u in ScanUids(keys, email) <==> p + u in keys {
        if p <= k {
          assert p + k[|p|..] == k;
          assert p + u == k <==> u == k[|p|..];
        } else {
          assert p <= p + u;
        }
      }
      if p <= k {
        assert p + k[|p|..] == k && k !in before;
      }
    }
  }

  /** In a coherent bucket the index entry that led to a record, even one read later, names the record's
      own UID and e-mail. */
  lemma IndexedRecordMatches(b: Bucket, b2: Bucket, email: Bytes, uid: string)
    requires Coherent(b) && Coherent(b2) && Extends(b, b2)
    requires LiveKey(b, KeySpace.ScanPrefix(email) + uid) && LiveKey(b2, uid)
    ensures SlashFree(uid) && Current(b2, uid).value.value.Rec?
    ensures var r := Current(b2, uid).value.value.record;
            r.uid == uid && KeySpace.SameAddress(email, r.recipient.email)
  {
    hide KeySpace.ScanPrefix, KeySpace.EmailIndexKey, KeySpace.SameAddress;
    var k := KeySpace.ScanPrefix(email) + uid;
    PrefixHasSlash(email, uid);
    assert k in b.hist && IndexHistory(b, k);
    var u := Hist(b, k)[0].value.uid;
    var e := Hist(b, u)[0].value.record.recipient.email;
    KeySpace.ScanPrefixParses(email, uid, e, u);
    LiveRecordRead(b, b2, uid);
  }

  lemma PrefixHasSlash(email: Bytes, uid: string)
    ensures !SlashFree(KeySpace.ScanPrefix(email) + uid)
  {
    KeySpace.JoinKeyExtends(KeySpace.EncodeEmailForKey(email), uid);
    KeySpace.JoinKeyHasSlash(KeySpace.EncodeEmailForKey(email), uid);
    hide KeySpace.EncodeEmailForKey, KeySpace.JoinKey;
  }

  lemma LiveRecordRead(b: Bucket, b2: Bucket, uid: string)
    requires Coherent(b2) && Extends(b, b2) && SlashFree(uid) && RecordHistory(Hist(b, uid), uid) && LiveKey(b2, uid)
    ensures Current(b2, uid).value.value.Rec?
    ensures Current(b2, uid).value.value.record.uid == uid
    ensures Current(b2, uid).value.value.record.recipient.email == Hist(b, uid)[0].value.record.recipient.email
  {
    hide KeySpace.EmailIndexKey;
    ExtendsHist(b, b2, uid);
    assert uid in b2.hist && RecordHistory(b2.hist[uid], uid);
  }

  /** Every live record of the e-mail has its index entry. */
  ghost predicate IndexComplete(b: Bucket, email: Bytes) {
    forall u | LiveRecordOf(b, u, email) ::
      LiveKey(b, KeySpace.EmailIndexKey(Current(b, u).value.value.record.recipient.email, u))
  }

  predicate FromUids(b: Bucket, uids: seq<string>, rs: seq<InviteRecord>) {
    && (forall i | 0 <= i < |rs| ::
         rs[i].uid in uids && LiveKey(b, rs[i].uid) && Current(b, rs[i].uid).value.value == Rec(rs[i]))
    && (forall u | u in uids && LiveKey(b, u) ::
         Current(b, u).value.value.Rec? && Current(b, u).value.value.record in rs)
    && (forall i, j | 0 <= i < j < |rs| :: rs[i].uid != rs[j].uid)
  }

  lemma {:induction false} FetchAllExact(b: Bucket, uids: seq<string>)
    requires NoDuplicates(uids)
    requires forall u | u in uids && LiveKey(b, u) ::
        Current(b, u).value.value.Rec? && Current(b, u).value.value.record.uid == u
    ensures FetchAll(b, uids).Some? && FromUids(b, uids, FetchAll(b, uids).value)
  {
    hide Current;
    if uids != [] {
      var before, u := uids[..|uids| - 1], uids[|uids| - 1];
      assert uids == before + [u] && u !in before;
      FetchAllExact(b, before);
    }
  }

  /** What the lookup returns is exactly the live records of the e-mail, each once. */
  ghost predicate ExactlyRecordsOf(b: Bucket, email: Bytes, rs: seq<InviteRecord>) {
    && (forall i, j | 0 <= i < j < |rs| :: rs[i].uid != rs[j].uid)
    && (forall r :: r in rs <==> IsLiveRecord(b, r, email))
  }

  /** r is the current record under its own UID, and its e-mail is the one asked for. */
  ghost predicate IsLiveRecord(b: Bucket, r: InviteRecord, email: Bytes) {
    LiveRecordOf(b, r.uid, email) && Current(b, r.uid).value.value.record == r
  }

  lemma ScannedAreRecords(b: Bucket, email: Bytes, u: string)
    requires Coherent(b) && LiveKey(b, KeySpace.ScanPrefix(email) + u) && LiveKey(b, u)
    ensures LiveRecordOf(b, u, email) && Current(b, u).value.value.record.uid == u
  {
    hide Coherent, KeySpace.ScanPrefix, KeySpace.SameAddress, Current;
    IndexedRecordMatches(b, b, email, u);
  }

  lemma RecordsAreScanned(b: Bucket, email: Bytes, u: string)
    requires IndexComplete(b, email) && LiveRecordOf(b, u, email)
    ensures LiveKey(b, KeySpace.ScanPrefix(email) + u)
  {
    hide KeySpace.SameAddress, KeySpace.EmailIndexKey, KeySpace.ScanPrefix, Current;
    var e := Current(b, u).value.value.record.recipient.email;
    assert LiveKey(b, KeySpace.EmailIndexKey(e, u));
    KeySpace.ScanPrefixExact(email, e, u);
    var k, p := KeySpace.EmailIndexKey(e, u), KeySpace.ScanPrefix(email);
    assert p + k[|p|..] == k;
  }

  /** On a coherent bucket whose index is complete, the indexed lookup over any duplicate-free key listing
      equals a plain scan of the records. */
  lemma LookupEqualsScan(b: Bucket, keys: seq<string>, email: Bytes)
    requires Coherent(b) && IndexComplete(b, email) && Lists(b, keys)
    ensures FetchAll(b, ScanUids(keys, email)).Some?
    ensures ExactlyRecordsOf(b, email, FetchAll(b, ScanUids(keys, email)).value)
  {
    hide Coherent, IndexComplete, KeySpace.ScanPrefix, Current, LiveRecordOf, LiveKey, IsLiveRecord;
    var uids := ScanUids(keys, email);
    ScanUidsExact(keys, email);
    forall u | u in uids && LiveKey(b, u)
      ensures Current(b, u).Some? && Current(b, u).value.value.Rec? && Current(b, u).value.value.record.uid == u
      ensures LiveRecordOf(b, u, email)
    {
      ScannedAreRecords(b, email, u);
      LiveRecordIs(b, u, email);
    }
    FetchAllExact(b, uids);
    var rs := FetchAll(b, uids).value;
    forall r ensures r in rs <==> IsLiveRecord(b, r, email) {
      LiveRecordMeans(b, r, email);
      if IsLiveRecord(b, r, email) {
        RecordsAreScanned(b, email, r.uid);
      }
    }
  }

  lemma LiveRecordIs(b: Bucket, u: string, email: Bytes)
    requires LiveRecordOf(b, u, email)
    ensures LiveKey(b, u) && Current(b, u).Some? && Current(b, u).value.value.Rec?
  {
  }

  lemma LiveRecordMeans(b: Bucket, r: InviteRecord, email: Bytes)
    ensures IsLiveRecord(b, r, email) ==>
              LiveRecordOf(b, r.uid, email) && LiveKey(b, r.uid) && Current(b, r.uid).Some?
              && Current(b, r.uid).value.value == Rec(r)
    ensures LiveRecordOf(b, r.uid, email) && Current(b, r.uid).Some? && Current(b, r.uid).value.value == Rec(r) ==>
              IsLiveRecord(b, r, email)
  {
    hide KeySpace.SameAddress;
  }
}
