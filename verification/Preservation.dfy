/** The components of the invariant, one by one, under a step of one handler: h moves to local state
    l2 and the shared state becomes sh2. */
module Preservation {
  import opened Base
  import opened Model
  import opened Auth
  import opened KeyValue
  import opened Protocol
  import opened Lifecycle
  import opened Stability
  import KeySpace

  function Moved(s: Sys, h: nat, sh2: Shared, l2: Local): Sys {
    Sys(sh2, s.procs[h := l2])
  }

  /** A handler keeps the UID it minted and the acceptance it wrote. */
  predicate Keeps(l: Local, l2: Local) {
    && (UidOf(l).Some? ==> UidOf(l2) == UidOf(l))
    && (MarkOf(l).Some? ==> MarkOf(l2) == MarkOf(l))
  }

  /** The rely every other handler needs of a step of h. */
  predicate OthersRely(s: Sys, h: nat, sh2: Shared) {
    forall h2 | h2 in s.procs && h2 != h ::
      RelyOf(s.shared, sh2, h2)
      && (UidOf(s.procs[h2]).Some? ==> NothingAfterTombstone(s.shared, sh2, UidOf(s.procs[h2]).value))
  }

  lemma GrowsReflexive(sh: Shared, sh2: Shared)
    requires sh2.kv == sh.kv && sh.clock <= sh2.clock && sh2.minted == sh.minted && sh.tokens <= sh2.tokens
    requires sh.faulty <= sh2.faulty && sh.ambiguous <= sh2.ambiguous
    requires sh.published <= sh2.published
    ensures Grows(sh, sh2)
  {
  }

  // ---------------------------------------------------------------- owners

  lemma OwnersKept(s: Sys, h: nat, sh2: Shared, l2: Local)
    requires OwnersInv(s) && sh2.minted == s.shared.minted
    requires h in s.procs ==> Keeps(s.procs[h], l2)
    ensures OwnersInv(Moved(s, h, sh2, l2))
  {
    var s2 := Moved(s, h, sh2, l2);
    forall u | u in sh2.minted ensures OwnerInv(sh2, s2.procs, u) {
      assert OwnerInv(s.shared, s.procs, u);
      hide UidOf, MarkOf;
    }
  }

  /** What a send handler's assertion says about the UID it minted. */
  lemma UidOwned(st: Settings, sh: Shared, h: nat, l: Local)
    requires LocalInv(st, sh, h, l) && UidOf(l).Some?
    ensures UidOf(l).value in sh.minted && sh.minted[UidOf(l).value].handler == h
  {
    hide Alive, Dead, NoIndex, Indexed, Unindexed, Untouched, TokenOf, LinkPayloadOf, ClaimsAdmissible, P, Mint;
    if l.SDone? {
      EndOwned(st, sh, h, l.sendEnd);
    }
  }

  lemma EndOwned(st: Settings, sh: Shared, h: nat, e: SendEnd)
    requires EndInv(st, sh, h, e) && EndUid(e).Some?
    ensures EndUid(e).value in sh.minted && sh.minted[EndUid(e).value].handler == h
  {
    hide Alive, Dead, NoIndex, Indexed, Unindexed, TokenOf, LinkPayloadOf, ClaimsAdmissible, P, X;
  }

  // ---------------------------------------------------------------- keys

  lemma MarkKept(procs: map<nat, Local>, h: nat, l2: Local, w: Write, uid: string)
    requires w.Put? && w.value.Rec? && MarkedBy(procs, w, uid)
    requires h in procs ==> Keeps(procs[h], l2)
    ensures MarkedBy(procs[h := l2], w, uid)
  {
    hide MarkOf, UidOf;
  }

  lemma PrimaryKept(s: Sys, h: nat, sh2: Shared, l2: Local, k: string)
    requires k in s.shared.minted && PrimaryInv(s.shared, s.procs, k)
    requires k in sh2.minted && sh2.minted[k] == s.shared.minted[k]
    requires P(sh2, k) == P(s.shared, k) && s.shared.clock <= sh2.clock
    requires h in s.procs ==> Keeps(s.procs[h], l2)
    ensures PrimaryInv(sh2, Moved(s, h, sh2, l2).procs, k)
  {
    var hist := P(s.shared, k);
    if |hist| >= 2 && hist[1].Put? {
      MarkKept(s.procs, h, l2, hist[1], k);
    }
    hide MarkOf, UidOf, MarkedBy, Keeps, Accepts, ExpiresAt, AcceptedClaims;
  }

  lemma IndexKept(sh: Shared, sh2: Shared, k: string)
    requires IndexInv(sh, k) && Grows(sh, sh2) && Hist(sh2.kv, k) == Hist(sh.kv, k)
    ensures IndexInv(sh2, k)
  {
    hide KeySpace.EmailIndexKey;
    GrowsHist(sh, sh2, Hist(sh.kv, k)[0].value.uid);
  }

  /** An index key is never slash-free, so it is never a minted UID. */
  lemma IndexKeyNotMinted(s: Sys, k: string)
    requires OwnersInv(s) && IndexInv(s.shared, k)
    ensures !SlashFree(k)
  {
    var u := Hist(s.shared.kv, k)[0].value.uid;
    assert SlashFree(k) ==> false by {
      if SlashFree(k) {
        KeySpace.EmailIndexKeyNotPrimary(s.shared.minted[u].payload.recipientEmail, u, k);
      }
    }
  }

  predicate OnlyFreshMinted(sh: Shared, sh2: Shared) {
    forall u | u in sh2.minted && u !in sh.minted :: SlashFree(u)
  }

  lemma KeyKept(s: Sys, h: nat, sh2: Shared, l2: Local, k: string)
    requires OwnersInv(s) && k in s.shared.kv.hist && KeyInv(s.shared, s.procs, k)
    requires Grows(s.shared, sh2) && OnlyFreshMinted(s.shared, sh2) && Hist(sh2.kv, k) == Hist(s.shared.kv, k)
    requires h in s.procs ==> Keeps(s.procs[h], l2)
    ensures KeyInv(sh2, Moved(s, h, sh2, l2).procs, k)
  {
    if k in s.shared.minted {
      PrimaryKept(s, h, sh2, l2, k);
    } else {
      IndexKept(s.shared, sh2, k);
      IndexKeyNotMinted(s, k);
    }
    hide PrimaryInv, IndexInv, Keeps;
  }

  /** Every key but the named ones is as it was; the named ones are established separately. */
  lemma KeysKept(s: Sys, h: nat, sh2: Shared, l2: Local, changed: set<string>)
    requires OwnersInv(s) && KeysInv(s)
    requires Grows(s.shared, sh2) && OnlyFreshMinted(s.shared, sh2)
    requires h in s.procs ==> Keeps(s.procs[h], l2)
    requires forall k | k in sh2.kv.hist && k !in changed ::
        k in s.shared.kv.hist && Hist(sh2.kv, k) == Hist(s.shared.kv, k)
    requires forall k | k in changed :: KeyInv(sh2, Moved(s, h, sh2, l2).procs, k)
    ensures KeysInv(Moved(s, h, sh2, l2))
  {
    var s2 := Moved(s, h, sh2, l2);
    forall k | k in sh2.kv.hist ensures KeyInv(sh2, s2.procs, k) {
      if k !in changed {
        KeyKept(s, h, sh2, l2, k);
      }
      hide KeyInv, Grows, Keeps, OwnersInv, OnlyFreshMinted;
    }
    hide KeyInv;
  }

  // ---------------------------------------------------------------- tokens

  lemma TokensKept(st: Settings, s: Sys, h: nat, sh2: Shared, l2: Local)
    requires TokensInv(st, s) && Grows(s.shared, sh2)
    requires forall t | t in sh2.tokens && t !in s.shared.tokens :: TokenInv(st, sh2, t)
    ensures TokensInv(st, Moved(s, h, sh2, l2))
  {
    hide Mint;
    forall t | t in sh2.tokens ensures TokenInv(st, sh2, t) {
      if t in s.shared.tokens {
        assert TokenInv(st, s.shared, t);
      }
    }
  }

  // ---------------------------------------------------------------- locals

  lemma LocalsKept(st: Settings, s: Sys, h: nat, sh2: Shared, l2: Local)
    requires LocalsInv(st, s) && Grows(s.shared, sh2) && OthersRely(s, h, sh2)
    requires LocalInv(st, sh2, h, l2)
    ensures LocalsInv(st, Moved(s, h, sh2, l2))
  {
    var s2 := Moved(s, h, sh2, l2);
    forall h2 | h2 in s2.procs ensures LocalInv(st, sh2, h2, s2.procs[h2]) {
      if h2 != h {
        OneLocalKept(st, s.shared, sh2, h2, s.procs[h2]);
      }
      hide LocalInv, Grows, RelyOf, NothingAfterTombstone, UidOf;
    }
    hide LocalInv;
  }

  lemma OneLocalKept(st: Settings, sh: Shared, sh2: Shared, h: nat, l: Local)
    requires LocalInv(st, sh, h, l) && Grows(sh, sh2) && RelyOf(sh, sh2, h)
    requires UidOf(l).Some? ==> NothingAfterTombstone(sh, sh2, UidOf(l).value)
    ensures LocalInv(st, sh2, h, l)
  {
    if IsSender(l) {
      SenderStable(st, sh, sh2, h, l);
    } else {
      AcceptStable(st, sh, sh2, h, l);
    }
    hide SenderInv, AcceptInv, IsSender, Grows, RelyOf, UidOf, NothingAfterTombstone;
  }

  // ---------------------------------------------------------------- sends and publications

  lemma SendsKept(st: Settings, s: Sys, h: nat, sh2: Shared, l2: Local)
    requires SendsInv(st, s) && sh2.sends == s.shared.sends && h in s.procs
    requires ExpectedSends(st, l2) == ExpectedSends(st, s.procs[h])
    ensures SendsInv(st, Moved(s, h, sh2, l2))
  {
    hide ExpectedSends;
  }

  lemma PublishedKept(s: Sys, h: nat, sh2: Shared, l2: Local)
    requires PublishedInv(s) && sh2.published == s.shared.published
    requires h in s.procs ==> Running(s.procs[h])
    ensures PublishedInv(Moved(s, h, sh2, l2))
  {
  }

  // ---------------------------------------------------------------- assembling a step

  lemma Assemble(st: Settings, s: Sys, h: nat, sh2: Shared, l2: Local)
    requires Inv(st, s) && Grows(s.shared, sh2) && BucketOk(sh2.kv)
    requires OthersRely(s, h, sh2) && LocalInv(st, sh2, h, l2)
    requires OwnersInv(Moved(s, h, sh2, l2)) && KeysInv(Moved(s, h, sh2, l2))
    requires TokensInv(st, Moved(s, h, sh2, l2))
    requires SendsInv(st, Moved(s, h, sh2, l2)) && PublishedInv(Moved(s, h, sh2, l2))
    ensures Inv(st, Moved(s, h, sh2, l2))
  {
    LocalsKept(st, s, h, sh2, l2);
    hide OwnersInv, KeysInv, TokensInv, SendsInv, PublishedInv, LocalsInv, LocalInv, Grows, OthersRely, BucketOk;
  }

  /** Nothing in the bucket changes and no UID is minted. */
  predicate SameBucket(sh: Shared, sh2: Shared) {
    && sh2.kv == sh.kv && sh.clock <= sh2.clock && sh2.minted == sh.minted && sh.tokens <= sh2.tokens
    && sh.faulty <= sh2.faulty && sh.ambiguous <= sh2.ambiguous && sh.published <= sh2.published
  }

  lemma SameBucketRely(s: Sys, h: nat, sh2: Shared)
    requires SameBucket(s.shared, sh2)
    ensures OthersRely(s, h, sh2) && Grows(s.shared, sh2)
  {
    GrowsReflexive(s.shared, sh2);
    hide UidOf, KeySpace.EmailIndexKey;
  }

  lemma SameBucketKeys(s: Sys, h: nat, sh2: Shared, l2: Local)
    requires OwnersInv(s) && KeysInv(s) && SameBucket(s.shared, sh2)
    requires h in s.procs ==> Keeps(s.procs[h], l2)
    ensures KeysInv(Moved(s, h, sh2, l2))
  {
    GrowsReflexive(s.shared, sh2);
    hide OwnersInv, KeysInv, Grows, Keeps, KeyInv;
    KeysKept(s, h, sh2, l2, {});
  }

  /** A step that leaves bucket, minted UIDs, tokens, e-mails and publications alone. */
  predicate Quiet(st: Settings, s: Sys, h: nat, sh2: Shared, l2: Local) {
    && h in s.procs && Running(s.procs[h])
    && SameBucket(s.shared, sh2) && sh2.tokens == s.shared.tokens
    && sh2.sends == s.shared.sends && sh2.published == s.shared.published
    && Keeps(s.procs[h], l2) && ExpectedSends(st, l2) == ExpectedSends(st, s.procs[h])
  }

  lemma QuietStep(st: Settings, s: Sys, h: nat, sh2: Shared, l2: Local)
    requires Inv(st, s) && Quiet(st, s, h, sh2, l2) && LocalInv(st, sh2, h, l2)
    ensures Inv(st, Moved(s, h, sh2, l2))
  {
    hide LocalInv, OwnersInv, KeysInv, TokensInv, SendsInv, PublishedInv, LocalsInv, Grows, BucketOk, ExpectedSends,
      Keeps, Moved, OthersRely;
    SameBucketRely(s, h, sh2);
    SameBucketKeys(s, h, sh2, l2);
    OwnersKept(s, h, sh2, l2);
    TokensKept(st, s, h, sh2, l2);
    SendsKept(st, s, h, sh2, l2);
    PublishedKept(s, h, sh2, l2);
    Assemble(st, s, h, sh2, l2);
  }

  /** What the invariant says about one handler. */
  lemma InvLocal(st: Settings, s: Sys, h: nat)
    requires Inv(st, s) && h in s.procs
    ensures LocalInv(st, s.shared, h, s.procs[h])
  {
    hide LocalInv, OwnersInv, KeysInv, TokensInv, SendsInv, PublishedInv, BucketOk;
  }

  lemma InvParts(st: Settings, s: Sys)
    requires Inv(st, s)
    ensures BucketOk(s.shared.kv) && OwnersInv(s) && KeysInv(s) && TokensInv(st, s) && LocalsInv(st, s)
    ensures SendsInv(st, s)
    ensures PublishedInv(s)
  {
    hide OwnersInv, KeysInv, TokensInv, LocalsInv, SendsInv, PublishedInv, BucketOk;
  }

  lemma InvKey(st: Settings, s: Sys, k: string)
    requires Inv(st, s) && k in s.shared.kv.hist
    ensures KeyInv(s.shared, s.procs, k)
  {
    hide OwnersInv, TokensInv, LocalsInv, SendsInv, PublishedInv, BucketOk, KeyInv;
  }

  // ---------------------------------------------------------------- appending one write

  /** The shared state after one more write of h under k. */
  predicate Appended(sh: Shared, sh2: Shared, h: nat, k: string, w: Write) {
    && sh2.kv == Append(sh.kv, k, w) && w.rev == sh.kv.last + 1 && w.author == h
    && sh2.clock == sh.clock && sh2.minted == sh.minted && sh2.tokens == sh.tokens
    && sh2.sends == sh.sends && sh2.published == sh.published
    && sh.faulty <= sh2.faulty && sh.ambiguous <= sh2.ambiguous
  }

  lemma AppendedGrows(sh: Shared, sh2: Shared, h: nat, k: string, w: Write)
    requires BucketOk(sh.kv) && Appended(sh, sh2, h, k, w)
    ensures Grows(sh, sh2) && BucketOk(sh2.kv)
    ensures Hist(sh2.kv, k) == Hist(sh.kv, k) + [w]
    ensures forall k2 | k2 != k :: Hist(sh2.kv, k2) == Hist(sh.kv, k2)
    ensures forall k2 | k2 in sh2.kv.hist && k2 != k :: k2 in sh.kv.hist
    ensures w.author == h && sh2.minted == sh.minted && sh2.clock == sh.clock
  {
    AppendGrows(sh.kv, k, w);
    hide BucketOk, Hist, Extends;
  }

  /** A write under a key of the writer's own UID disturbs no other handler. */
  lemma OwnKeyRely(s: Sys, h: nat, sh2: Shared, uid: string, k: string)
    requires OwnersInv(s) && uid in s.shared.minted && s.shared.minted[uid].handler == h
    requires k == uid || k == IKey(s.shared, uid)
    requires sh2.minted == s.shared.minted
    requires forall k2 | k2 != k :: Hist(sh2.kv, k2) == Hist(s.shared.kv, k2)
    ensures forall u | u in s.shared.minted && u != uid :: X(sh2, u) == X(s.shared, u) && P(sh2, u) == P(s.shared, u)
  {
    var sh := s.shared;
    forall u | u in sh.minted && u != uid ensures X(sh2, u) == X(sh, u) && P(sh2, u) == P(sh, u) {
      assert OwnerInv(sh, s.procs, u) && OwnerInv(sh, s.procs, uid);
      var e, e2 := sh.minted[uid].payload.recipientEmail, sh.minted[u].payload.recipientEmail;
      KeySpace.EmailIndexKeyInjective(e, uid, e2, u);
      KeySpace.EmailIndexKeyNotPrimary(e, uid, u);
      KeySpace.EmailIndexKeyNotPrimary(e2, u, uid);
      hide KeySpace.EmailIndexKey, Hist;
    }
  }

  lemma OwnKeyOthersRely(st: Settings, s: Sys, h: nat, sh2: Shared, uid: string, k: string)
    requires OwnersInv(s) && LocalsInv(st, s) && uid in s.shared.minted && s.shared.minted[uid].handler == h
    requires k == uid || k == IKey(s.shared, uid)
    requires sh2.minted == s.shared.minted
    requires forall k2 | k2 != k :: Hist(sh2.kv, k2) == Hist(s.shared.kv, k2)
    ensures OthersRely(s, h, sh2)
  {
    OwnKeyRely(s, h, sh2, uid, k);
    forall h2 | h2 in s.procs && h2 != h
      ensures RelyOf(s.shared, sh2, h2)
      ensures UidOf(s.procs[h2]).Some? ==> NothingAfterTombstone(s.shared, sh2, UidOf(s.procs[h2]).value)
    {
      if UidOf(s.procs[h2]).Some? {
        UidOwned(st, s.shared, h2, s.procs[h2]);
      }
      hide P, X, UidOf, LocalInv, OwnersInv;
    }
    hide RelyOf, NothingAfterTombstone, UidOf;
  }

  lemma AcceptanceKeys(s: Sys, sh2: Shared, uid: string)
    requires OwnersInv(s) && uid in s.shared.minted && sh2.minted == s.shared.minted
    requires |P(s.shared, uid)| == 1 && P(s.shared, uid)[0].Put? && AtMostAccepted(P(s.shared, uid), P(sh2, uid))
    requires forall k2 | k2 != uid :: Hist(sh2.kv, k2) == Hist(s.shared.kv, k2)
    ensures forall u | u in s.shared.minted :: X(sh2, u) == X(s.shared, u) && AtMostAccepted(P(s.shared, u), P(sh2, u))
    ensures forall u :: NothingAfterTombstone(s.shared, sh2, u)
  {
    var sh := s.shared;
    forall u | u in sh.minted ensures X(sh2, u) == X(sh, u) && AtMostAccepted(P(sh, u), P(sh2, u)) {
      assert OwnerInv(sh, s.procs, uid);
      KeySpace.EmailIndexKeyNotPrimary(sh.minted[u].payload.recipientEmail, u, uid);
      hide KeySpace.EmailIndexKey, Hist;
    }
    forall u ensures NothingAfterTombstone(sh, sh2, u) {
      hide Hist;
    }
    hide P, X, AtMostAccepted, NothingAfterTombstone;
  }

  /** An acceptance written on top of a lone pending record disturbs no send handler. */
  lemma AcceptanceRely(s: Sys, h: nat, sh2: Shared, uid: string)
    requires OwnersInv(s) && uid in s.shared.minted && sh2.minted == s.shared.minted
    requires |P(s.shared, uid)| == 1 && P(s.shared, uid)[0].Put? && AtMostAccepted(P(s.shared, uid), P(sh2, uid))
    requires forall k2 | k2 != uid :: Hist(sh2.kv, k2) == Hist(s.shared.kv, k2)
    ensures OthersRely(s, h, sh2)
  {
    hide P, X, UidOf, AtMostAccepted, NothingAfterTombstone, OwnersInv;
    AcceptanceKeys(s, sh2, uid);
  }

  /** A step that appends one write under k and otherwise moves only its own handler. */
  predicate Appending(st: Settings, s: Sys, h: nat, sh2: Shared, l2: Local, k: string, w: Write) {
    && h in s.procs && Running(s.procs[h])
    && Appended(s.shared, sh2, h, k, w)
    && Keeps(s.procs[h], l2) && ExpectedSends(st, l2) == ExpectedSends(st, s.procs[h])
  }

  lemma AppendStep(st: Settings, s: Sys, h: nat, sh2: Shared, l2: Local, k: string, w: Write)
    requires Inv(st, s) && Appending(st, s, h, sh2, l2, k, w) && OthersRely(s, h, sh2)
    requires KeyInv(sh2, Moved(s, h, sh2, l2).procs, k)
    requires LocalInv(st, sh2, h, l2)
    ensures Inv(st, Moved(s, h, sh2, l2))
  {
    AppendedGrows(s.shared, sh2, h, k, w);
    hide LocalInv, OwnersInv, KeysInv, TokensInv, SendsInv, PublishedInv, LocalsInv, Grows, BucketOk, ExpectedSends,
      Keeps, OthersRely, KeyInv, Append, Hist;
    OwnersKept(s, h, sh2, l2);
    AppendedKeys(s, h, sh2, l2, k, w);
    TokensKept(st, s, h, sh2, l2);
    SendsKept(st, s, h, sh2, l2);
    PublishedKept(s, h, sh2, l2);
    Assemble(st, s, h, sh2, l2);
  }

  lemma AppendedKeys(s: Sys, h: nat, sh2: Shared, l2: Local, k: string, w: Write)
    requires OwnersInv(s) && KeysInv(s) && BucketOk(s.shared.kv) && Appended(s.shared, sh2, h, k, w)
    requires h in s.procs ==> Keeps(s.procs[h], l2)
    requires KeyInv(sh2, Moved(s, h, sh2, l2).procs, k)
    ensures KeysInv(Moved(s, h, sh2, l2))
  {
    AppendedGrows(s.shared, sh2, h, k, w);
    hide OwnersInv, KeysInv, Grows, Keeps, KeyInv, BucketOk;
    KeysKept(s, h, sh2, l2, {k});
  }
}
