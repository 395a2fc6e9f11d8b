/** The revisioned key-value bucket: every key keeps the sequence of its writes, and one revision
    counter runs through the whole bucket. A delete is a write of its own (a tombstone), so it
    consumes a revision. */
module KeyValue {
  import opened Base
  import opened Model
  import KeySpace

  /** A stored value: an encoded record, or the UID an index entry holds. The second does not decode
      as a record. */
  datatype Value = Rec(record: InviteRecord) | Idx(uid: string)

  /** author is the handler that made the write; nothing in the service reads it. */
  datatype Write =
    | Put(rev: nat, value: Value, author: nat)
    | Tombstone(rev: nat, author: nat)

  datatype Bucket = Bucket(hist: map<string, seq<Write>>, last: nat)

  datatype Entry = Entry(value: Value, rev: nat)

  function Hist(b: Bucket, k: string): seq<Write> {
    if k in b.hist then b.hist[k] else []
  }

  function CurrentOf(h: seq<Write>): Option<Entry> {
    if h != [] && h[|h| - 1].Put? then Some(Entry(h[|h| - 1].value, h[|h| - 1].rev)) else None
  }

  /** What a Get returns: the last write, unless that is a tombstone. */
  function Current(b: Bucket, k: string): Option<Entry> {
    CurrentOf(Hist(b, k))
  }

  predicate LiveKey(b: Bucket, k: string) {
    Current(b, k).Some?
  }

  function LastRev(b: Bucket, k: string): nat {
    var h := Hist(b, k);
    if h == [] then 0 else h[|h| - 1].rev
  }

  function Append(b: Bucket, k: string, w: Write): Bucket {
    Bucket(b.hist[k := Hist(b, k) + [w]], b.last + 1)
  }

  function KvPut(b: Bucket, k: string, v: Value, author: nat): Bucket {
    Append(b, k, Put(b.last + 1, v, author))
  }

  function KvDelete(b: Bucket, k: string, author: nat): Bucket {
    Append(b, k, Tombstone(b.last + 1, author))
  }

  // ---------------------------------------------------------------- well-formedness and growth

  predicate RevsOk(h: seq<Write>, last: nat) {
    && h != []
    && (forall i | 0 <= i < |h| :: 0 < h[i].rev <= last)
    && (forall i, j | 0 <= i < j < |h| :: h[i].rev < h[j].rev)
  }

  predicate BucketOk(b: Bucket) {
    forall k | k in b.hist :: RevsOk(b.hist[k], b.last)
  }

  /** Histories only grow. */
  predicate Extends(b: Bucket, b': Bucket) {
    && b.last <= b'.last
    && forall k | k in b.hist :: k in b'.hist && b.hist[k] <= b'.hist[k]
  }

  lemma ExtendsTransitive(a: Bucket, b: Bucket, c: Bucket)
    requires Extends(a, b) && Extends(b, c)
    ensures Extends(a, c)
  {
    forall k | k in a.hist ensures k in c.hist && a.hist[k] <= c.hist[k] {
      assert a.hist[k] <= b.hist[k] <= c.hist[k];
    }
  }

  lemma ExtendsHist(b: Bucket, b': Bucket, k: string)
    requires Extends(b, b')
    ensures Hist(b, k) <= Hist(b', k)
  {
  }

  lemma AppendGrows(b: Bucket, k: string, w: Write)
    requires BucketOk(b) && w.rev == b.last + 1
    ensures BucketOk(Append(b, k, w)) && Extends(b, Append(b, k, w))
    ensures Hist(Append(b, k, w), k) == Hist(b, k) + [w]
    ensures forall k' | k' != k :: Hist(Append(b, k, w), k') == Hist(b, k')
  {
    var b' := Append(b, k, w);
    forall k' | k' in b'.hist ensures RevsOk(b'.hist[k'], b'.last) {
      assert k' != k ==> RevsOk(b.hist[k'], b.last);
      assert k in b.hist ==> RevsOk(b.hist[k], b.last);
    }
  }

  /** The heart of the optimistic update: if a key still carries the revision that was read, its whole
      history is still the one that was read. */
  lemma SameRevisionSameHistory(b: Bucket, b': Bucket, k: string)
    requires BucketOk(b') && Extends(b, b')
    requires LiveKey(b, k) && LastRev(b', k) == LastRev(b, k)
    ensures Hist(b', k) == Hist(b, k)
  {
    var h, h' := Hist(b, k), Hist(b', k);
    ExtendsHist(b, b', k);
    assert RevsOk(h', b'.last);
    assert h'[|h| - 1] == h[|h| - 1];
    assert h'[|h| - 1].rev == h'[|h'| - 1].rev;
  }

  // ---------------------------------------------------------------- coherence of records and index

  /** Every value written under a primary key is a record of that UID and of one recipient e-mail. */
  predicate RecordHistory(h: seq<Write>, uid: string) {
    && h != [] && h[0].Put? && h[0].value.Rec?
    && forall i | 0 <= i < |h| && h[i].Put? ::
         h[i].value.Rec? && h[i].value.record.uid == uid
         && h[i].value.record.recipient.email == h[0].value.record.recipient.email
  }

  /** Every index key names a UID whose record carries the indexed e-mail. */
  predicate IndexHistory(b: Bucket, k: string) {
    var h := Hist(b, k);
    && h != [] && h[0].Put? && h[0].value.Idx?
    && var uid := h[0].value.uid;
    && SlashFree(uid) && RecordHistory(Hist(b, uid), uid)
    && k == KeySpace.EmailIndexKey(Hist(b, uid)[0].value.record.recipient.email, uid)
  }

  predicate Coherent(b: Bucket) {
    forall k | k in b.hist :: if SlashFree(k) then RecordHistory(b.hist[k], k) else IndexHistory(b, k)
  }

  /** The records of one e-mail by a plain scan of all primary keys. */
  ghost predicate LiveRecordOf(b: Bucket, uid: string, email: Bytes) {
    && Current(b, uid).Some? && Current(b, uid).value.value.Rec?
    && SlashFree(uid)
    && KeySpace.SameAddress(email, Current(b, uid).value.value.record.recipient.email)
  }
}
