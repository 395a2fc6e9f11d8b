/** Every action of a send handler keeps the invariant. */
module SendSteps {
  import opened Base
  import opened Model
  import opened Auth
  import opened KeyValue
  import opened Protocol
  import opened Lifecycle
  import opened Stability
  import opened Preservation
  import KeySpace

  // ---------------------------------------------------------------- minting the UID

  lemma StepClock(st: Settings, s: Sys, h: nat, ch: Choice)
    requires Inv(st, s) && CanStep(st, s, h, ch) && s.procs[h].SClock?
    ensures Inv(st, StepOf(st, s, h, ch))
  {
    hide Inv;
    QuietStep(st, s, h, s.shared, SUid(s.procs[h].p, s.shared.clock));
  }

  /** Nothing has been written for a UID that is about to be minted. */
  lemma FreshIsUnused(s: Sys, uid: string, email: Bytes)
    requires OwnersInv(s) && KeysInv(s) && FreshUid(s.shared, uid)
    ensures uid !in s.shared.kv.hist && KeySpace.EmailIndexKey(email, uid) !in s.shared.kv.hist
  {
    hide KeySpace.EmailIndexKey;
    var k := KeySpace.EmailIndexKey(email, uid);
    if uid in s.shared.kv.hist {
      assert KeyInv(s.shared, s.procs, uid);
      IndexKeyNotMinted(s, uid);
      assert false;
    }
    if k in s.shared.kv.hist {
      assert KeyInv(s.shared, s.procs, k);
      IndexKeyIsNoUid(s, email, uid, k);
      var u := Hist(s.shared.kv, k)[0].value.uid;
      KeySpace.EmailIndexKeyInjective(email, uid, s.shared.minted[u].payload.recipientEmail, u);
      assert false;
    }
  }

  lemma IndexKeyIsNoUid(s: Sys, email: Bytes, uid: string, k: string)
    requires OwnersInv(s) && k == KeySpace.EmailIndexKey(email, uid)
    ensures k !in s.shared.minted
  {
    hide KeySpace.EmailIndexKey;
    if k in s.shared.minted {
      assert OwnerInv(s.shared, s.procs, k);
      KeySpace.EmailIndexKeyNotPrimary(email, uid, k);
      assert false;
    }
  }

  /** The shared state after h has minted uid. */
  predicate MintedNow(sh: Shared, sh2: Shared, h: nat, uid: string, m: MintInfo) {
    && FreshUid(sh, uid) && m.handler == h && m.payload.recipientEmail != ""
    && sh2 == sh.(minted := sh.minted[uid := m])
  }

  lemma MintOwners(s: Sys, h: nat, sh2: Shared, l2: Local, uid: string, m: MintInfo)
    requires OwnersInv(s) && h in s.procs && UidOf(s.procs[h]) == None
    requires MintedNow(s.shared, sh2, h, uid, m) && UidOf(l2) == Some(uid)
    ensures OwnersInv(Moved(s, h, sh2, l2))
  {
    var s2 := Moved(s, h, sh2, l2);
    forall u | u in sh2.minted ensures OwnerInv(sh2, s2.procs, u) {
      if u != uid {
        assert OwnerInv(s.shared, s.procs, u);
      }
      hide UidOf, SlashFree;
    }
  }

  lemma MintRely(s: Sys, h: nat, sh2: Shared, uid: string, m: MintInfo)
    requires MintedNow(s.shared, sh2, h, uid, m)
    ensures Grows(s.shared, sh2) && OthersRely(s, h, sh2) && OnlyFreshMinted(s.shared, sh2)
  {
    hide UidOf, KeySpace.EmailIndexKey;
  }

  lemma MintKeys(s: Sys, h: nat, sh2: Shared, l2: Local, uid: string, m: MintInfo)
    requires OwnersInv(s) && KeysInv(s) && MintedNow(s.shared, sh2, h, uid, m)
    requires h in s.procs ==> Keeps(s.procs[h], l2)
    ensures KeysInv(Moved(s, h, sh2, l2))
  {
    MintRely(s, h, sh2, uid, m);
    hide OwnersInv, KeysInv, KeyInv, Keeps, Grows, OnlyFreshMinted, OthersRely;
    KeysKept(s, h, sh2, l2, {});
  }

  lemma BeforeMint(st: Settings, l: Local, l2: Local)
    requires l.SUid?
    ensures UidOf(l) == None && Keeps(l, l2) && ExpectedSends(st, l) == [] && Running(l)
  {
  }

  lemma MintStep(st: Settings, s: Sys, h: nat, sh2: Shared, l2: Local, uid: string, m: MintInfo)
    requires Inv(st, s) && h in s.procs && s.procs[h].SUid? && MintedNow(s.shared, sh2, h, uid, m)
    requires UidOf(l2) == Some(uid) && ExpectedSends(st, l2) == [] && LocalInv(st, sh2, h, l2)
    ensures Inv(st, Moved(s, h, sh2, l2))
  {
    hide LocalInv, OwnersInv, KeysInv, TokensInv, SendsInv, PublishedInv, LocalsInv, BucketOk, Grows, OthersRely, Keeps,
      UidOf, ExpectedSends, FreshUid, Moved;
    BeforeMint(st, s.procs[h], l2);
    MintOwners(s, h, sh2, l2, uid, m);
    MintRely(s, h, sh2, uid, m);
    MintKeys(s, h, sh2, l2, uid, m);
    TokensKept(st, s, h, sh2, l2);
    SendsKept(st, s, h, sh2, l2);
    PublishedKept(s, h, sh2, l2);
    Assemble(st, s, h, sh2, l2);
  }

  function AfterMint(p: Prepared, uid: string, at: int): Local {
    if ClaimsAdmissible(p.req.customClaims) then SSign(p, uid, at) else SDone(Invalid(Some(uid)))
  }

  lemma MintLocal(st: Settings, s: Sys, h: nat, sh2: Shared, p: Prepared, uid: string, at: int)
    requires OwnersInv(s) && KeysInv(s) && LocalInv(st, s.shared, h, SUid(p, at))
    requires MintedNow(s.shared, sh2, h, uid, MintInfo(LinkPayloadOf(p), at, h))
    ensures LocalInv(st, sh2, h, AfterMint(p, uid, at))
  {
    hide OwnersInv, KeysInv, KeySpace.EmailIndexKey, ClaimsAdmissible, FreshUid, Untouched;
    MintUntouched(s, h, sh2, p, uid, at);
  }

  lemma MintUntouched(s: Sys, h: nat, sh2: Shared, p: Prepared, uid: string, at: int)
    requires OwnersInv(s) && KeysInv(s)
    requires MintedNow(s.shared, sh2, h, uid, MintInfo(LinkPayloadOf(p), at, h))
    ensures Untouched(sh2, uid)
  {
    hide OwnersInv, KeysInv, KeySpace.EmailIndexKey, FreshUid;
    FreshIsUnused(s, uid, p.email);
  }

  lemma UidNext(st: Settings, s: Sys, h: nat, ch: Choice, p: Prepared, at: int)
    requires CanStep(st, s, h, ch) && s.procs[h] == SUid(p, at)
    ensures var m := MintInfo(LinkPayloadOf(p), at, h);
            var sh2 := s.shared.(minted := s.shared.minted[ch.uid := m]);
            var l2 := AfterMint(p, ch.uid, at);
            && StepOf(st, s, h, ch) == Moved(s, h, sh2, l2) && MintedNow(s.shared, sh2, h, ch.uid, m)
            && UidOf(l2) == Some(ch.uid) && ExpectedSends(st, l2) == []
  {
    hide ClaimsAdmissible, FreshUid;
  }

  lemma StepUid(st: Settings, s: Sys, h: nat, ch: Choice)
    requires Inv(st, s) && CanStep(st, s, h, ch) && s.procs[h].SUid?
    ensures Inv(st, StepOf(st, s, h, ch))
  {
    var SUid(p, at) := s.procs[h];
    var m := MintInfo(LinkPayloadOf(p), at, h);
    var sh2 := s.shared.(minted := s.shared.minted[ch.uid := m]);
    var l2 := AfterMint(p, ch.uid, at);
    hide *;
    UidNext(st, s, h, ch, p, at);
    InvLocal(st, s, h);
    InvParts(st, s);
    MintLocal(st, s, h, sh2, p, ch.uid, at);
    MintStep(st, s, h, sh2, l2, ch.uid, m);
  }

  // ---------------------------------------------------------------- signing and building

  lemma MintedToken(st: Settings, sh: Shared, h: nat, p: Prepared, uid: string, at: int)
    requires MintedFor(sh, h, p, uid, at)
    ensures TokenInv(st, sh, Mint(st.secret, LinkPayloadOf(p), uid, at))
  {
    MintedClaimsAt(LinkPayloadOf(p), uid, at);
    hide MintedClaims, LinkPayloadOf, ClaimsAdmissible;
  }

  predicate SignedNow(sh: Shared, sh2: Shared, t: Token) {
    sh2 == sh.(tokens := sh.tokens + {t})
  }

  lemma SignStep(st: Settings, s: Sys, h: nat, sh2: Shared, l2: Local, t: Token)
    requires Inv(st, s) && h in s.procs && Running(s.procs[h]) && SignedNow(s.shared, sh2, t) && TokenInv(st, sh2, t)
    requires Keeps(s.procs[h], l2) && ExpectedSends(st, l2) == ExpectedSends(st, s.procs[h])
    requires LocalInv(st, sh2, h, l2)
    ensures Inv(st, Moved(s, h, sh2, l2))
  {
    hide LocalInv, OwnersInv, KeysInv, TokensInv, SendsInv, PublishedInv, LocalsInv, BucketOk, Grows, OthersRely, Keeps,
      UidOf, ExpectedSends, TokenInv;
    SameBucketRely(s, h, sh2);
    SameBucketKeys(s, h, sh2, l2);
    OwnersKept(s, h, sh2, l2);
    TokensKept(st, s, h, sh2, l2);
    SendsKept(st, s, h, sh2, l2);
    PublishedKept(s, h, sh2, l2);
    Assemble(st, s, h, sh2, l2);
  }

  lemma SignLocal(st: Settings, sh: Shared, h: nat, sh2: Shared, p: Prepared, uid: string, at: int)
    requires LocalInv(st, sh, h, SSign(p, uid, at)) && SignedNow(sh, sh2, Mint(st.secret, LinkPayloadOf(p), uid, at))
    ensures LocalInv(st, sh2, h, SBuild(p, uid, at)) && TokenInv(st, sh2, Mint(st.secret, LinkPayloadOf(p), uid, at))
    ensures LocalInv(st, sh, h, SDone(NotSigned(uid)))
  {
    hide Mint, LinkPayloadOf, ClaimsAdmissible, KeySpace.EmailIndexKey, TokenInv;
    MintedToken(st, sh2, h, p, uid, at);
  }

  lemma StepSign(st: Settings, s: Sys, h: nat, ch: Choice)
    requires Inv(st, s) && CanStep(st, s, h, ch) && s.procs[h].SSign?
    ensures Inv(st, StepOf(st, s, h, ch))
  {
    var SSign(p, uid, at) := s.procs[h];
    var t := Mint(st.secret, LinkPayloadOf(p), uid, at);
    var sh2 := s.shared.(tokens := s.shared.tokens + {t});
    var l2 := SBuild(p, uid, at);
    var l3 := SDone(NotSigned(uid));
    SignNext(st, s, h, ch, p, uid, at);
    hide *;
    InvLocal(st, s, h);
    SignLocal(st, s.shared, h, sh2, p, uid, at);
    if ch.fault.NoFault? {
      SignStep(st, s, h, sh2, l2, t);
    } else {
      QuietStep(st, s, h, s.shared, l3);
    }
  }

  lemma SignNext(st: Settings, s: Sys, h: nat, ch: Choice, p: Prepared, uid: string, at: int)
    requires CanStep(st, s, h, ch) && s.procs[h] == SSign(p, uid, at)
    ensures var t := Mint(st.secret, LinkPayloadOf(p), uid, at);
            var sh2, l2, l3 := s.shared.(tokens := s.shared.tokens + {t}), SBuild(p, uid, at), SDone(NotSigned(uid));
            && StepOf(st, s, h, ch) == (if ch.fault.NoFault? then Moved(s, h, sh2, l2) else Moved(s, h, s.shared, l3))
            && SignedNow(s.shared, sh2, t) && Running(s.procs[h])
            && Keeps(s.procs[h], l2) && ExpectedSends(st, l2) == ExpectedSends(st, s.procs[h])
            && Quiet(st, s, h, s.shared, l3)
  {
    hide MintedClaims, LinkPayloadOf;
  }

  lemma StepBuild(st: Settings, s: Sys, h: nat, ch: Choice)
    requires Inv(st, s) && CanStep(st, s, h, ch) && s.procs[h].SBuild?
    ensures Inv(st, StepOf(st, s, h, ch))
  {
    var SBuild(p, uid, at) := s.procs[h];
    hide *;
    BuildNext(st, s, h, ch, p, uid, at);
    InvLocal(st, s, h);
    BuildLocal(st, s.shared, h, p, uid, at);
    QuietStep(st, s, h, s.shared, SPutRecord(Issued(p, uid, at, s.shared.clock)));
  }

  lemma BuildNext(st: Settings, s: Sys, h: nat, ch: Choice, p: Prepared, uid: string, at: int)
    requires CanStep(st, s, h, ch) && s.procs[h] == SBuild(p, uid, at)
    ensures var l2 := SPutRecord(Issued(p, uid, at, s.shared.clock));
            StepOf(st, s, h, ch) == Moved(s, h, s.shared, l2) && Quiet(st, s, h, s.shared, l2)
  {
  }

  lemma BuildLocal(st: Settings, sh: Shared, h: nat, p: Prepared, uid: string, at: int)
    requires LocalInv(st, sh, h, SBuild(p, uid, at))
    ensures LocalInv(st, sh, h, SPutRecord(Issued(p, uid, at, sh.clock)))
  {
    hide KeySpace.EmailIndexKey, Mint, ClaimsAdmissible, IndexKeyOf;
    IndexKeyOfMinted(sh, h, Issued(p, uid, at, sh.clock));
  }

  // ---------------------------------------------------------------- histories of the invite's two keys

  lemma RecordMatchesMint(st: Settings, sh: Shared, h: nat, i: Issued)
    requires IssuedInv(st, sh, h, i)
    ensures MatchesMint(sh, sh.minted[i.uid], RecordOf(i)) && IsPending(RecordOf(i)) && RecordOf(i).uid == i.uid
    ensures RecordOf(i).recipient.email == i.p.email
  {
    hide ExpiresAt, AcceptedClaims, ClaimsAdmissible;
  }

  lemma FirstRecordKey(st: Settings, sh: Shared, sh2: Shared, procs: map<nat, Local>, h: nat, i: Issued, w: Write)
    requires IssuedInv(st, sh, h, i) && P(sh, i.uid) == [] && BucketOk(sh.kv)
    requires Appended(sh, sh2, h, i.uid, w) && HoldsRecord(w, RecordOf(i))
    ensures KeyInv(sh2, procs, i.uid) && Alive(sh2, i)
  {
    hide RecordOf, ClaimsAdmissible, LinkPayloadOf, TokenOf, Appended, ExpiresAt, AcceptedClaims, Hist, IsPending,
      BucketOk, Grows;
    RecordMatchesMint(st, sh, h, i);
    AppendedGrows(sh, sh2, h, i.uid, w);
    assert P(sh2, i.uid) == [w];
  }

  lemma LifeEnds(h: seq<Write>, uid: string, w: Write)
    requires PrimaryLife(h, uid) && h[|h| - 1].Put? && w.Tombstone?
    ensures PrimaryLife(h + [w], uid)
  {
    hide IsPending, Accepts;
  }

  /** A tombstone on a live primary record. */
  lemma TombstoneKey(st: Settings, s: Sys, sh2: Shared, h: nat, l2: Local, i: Issued, w: Write)
    requires IssuedInv(st, s.shared, h, i) && Alive(s.shared, i) && BucketOk(s.shared.kv)
    requires KeyInv(s.shared, s.procs, i.uid) && h in s.procs && Keeps(s.procs[h], l2)
    requires Appended(s.shared, sh2, h, i.uid, w) && w.Tombstone?
    ensures KeyInv(sh2, Moved(s, h, sh2, l2).procs, i.uid) && Dead(sh2, i)
  {
    hide RecordOf, ClaimsAdmissible, LinkPayloadOf, TokenOf, Appended, Hist, Keeps, BucketOk, Grows, PrimaryInv;
    AppendedGrows(s.shared, sh2, h, i.uid, w);
    TombstonePrimaryInv(s, sh2, h, l2, i.uid, w);
  }

  lemma TombstonePrimaryInv(s: Sys, sh2: Shared, h: nat, l2: Local, uid: string, w: Write)
    requires uid in s.shared.minted && PrimaryInv(s.shared, s.procs, uid)
    requires P(s.shared, uid)[|P(s.shared, uid)| - 1].Put?
    requires s.shared.minted[uid].handler == h == w.author && w.Tombstone?
    requires sh2.minted == s.shared.minted && sh2.clock == s.shared.clock && P(sh2, uid) == P(s.shared, uid) + [w]
    requires h in s.procs && Keeps(s.procs[h], l2)
    ensures PrimaryInv(sh2, Moved(s, h, sh2, l2).procs, uid)
  {
    hide Keeps, MarkedBy, PrimaryLife, ExpiresAt, AcceptedClaims, P;
    var hist := P(s.shared, uid);
    LifeShape(hist, uid);
    LifeEnds(hist, uid, w);
    if |hist| >= 2 && hist[1].Put? {
      MarkKept(s.procs, h, l2, hist[1], uid);
    }
  }

  lemma LifeShape(h: seq<Write>, uid: string)
    requires PrimaryLife(h, uid)
    ensures h != [] && h[0].Put? && h[0].value.Rec?
    ensures |h| >= 2 && h[1].Put? ==> h[1].value.Rec?
  {
    hide IsPending;
  }

  lemma FirstIndexKey(st: Settings, s: Sys, sh2: Shared, procs: map<nat, Local>, h: nat, i: Issued, w: Write)
    requires OwnersInv(s) && IssuedInv(st, s.shared, h, i) && P(s.shared, i.uid) != [] && NoIndex(s.shared, i)
    requires BucketOk(s.shared.kv)
    requires Appended(s.shared, sh2, h, IndexKeyOf(i), w) && w.Put? && w.value == Idx(i.uid)
    ensures KeyInv(sh2, procs, IndexKeyOf(i)) && Indexed(sh2, i)
  {
    var k := IndexKeyOf(i);
    IndexKeyOfMinted(s.shared, h, i);
    IndexKeyIsNoUid(s, i.p.email, i.uid, k);
    AppendedGrows(s.shared, sh2, h, k, w);
    hide RecordOf, ClaimsAdmissible, LinkPayloadOf, TokenOf, Appended, Hist, KeySpace.EmailIndexKey, OwnersInv, Append,
      Extends;
    assert Hist(sh2.kv, k) == [w];
    GrowsHist(s.shared, sh2, i.uid);
  }

  lemma TombstoneIndex(st: Settings, s: Sys, sh2: Shared, procs: map<nat, Local>, h: nat, i: Issued, w: Write)
    requires OwnersInv(s) && IssuedInv(st, s.shared, h, i) && Indexed(s.shared, i) && BucketOk(s.shared.kv)
    requires KeyInv(s.shared, s.procs, IndexKeyOf(i))
    requires Appended(s.shared, sh2, h, IndexKeyOf(i), w) && w.Tombstone?
    ensures KeyInv(sh2, procs, IndexKeyOf(i)) && Unindexed(sh2, i)
  {
    var k := IndexKeyOf(i);
    IndexKeyOfMinted(s.shared, h, i);
    IndexKeyIsNoUid(s, i.p.email, i.uid, k);
    AppendedGrows(s.shared, sh2, h, k, w);
    TombstoneIndexInv(s, sh2, h, k, i.uid, i.p.email, w);
    hide RecordOf, ClaimsAdmissible, LinkPayloadOf, TokenOf, Appended, Hist, KeySpace.EmailIndexKey, OwnersInv, Append,
      Extends, IndexInv;
  }

  lemma TombstoneIndexInv(s: Sys, sh2: Shared, h: nat, k: string, uid: string, email: Bytes, w: Write)
    requires IndexInv(s.shared, k) && k == KeySpace.EmailIndexKey(email, uid)
    requires uid in s.shared.minted && s.shared.minted[uid].handler == h
    requires |Hist(s.shared.kv, k)| == 1 && Hist(sh2.kv, k) == Hist(s.shared.kv, k) + [w]
    requires w.Tombstone? && w.author == h && sh2.minted == s.shared.minted && Grows(s.shared, sh2)
    ensures IndexInv(sh2, k)
  {
    hide KeySpace.EmailIndexKey, Hist, Grows;
    IndexEntryOf(s.shared, k, email, uid);
    GrowsHist(s.shared, sh2, uid);
    var first := Hist(s.shared.kv, k)[0];
    assert Hist(s.shared.kv, k) == [first];
    assert Hist(sh2.kv, k) == [first, w];
  }

  /** An index key identifies the UID its entry names. */
  lemma IndexEntryOf(sh: Shared, k: string, email: Bytes, uid: string)
    requires IndexInv(sh, k) && k == KeySpace.EmailIndexKey(email, uid)
    ensures Hist(sh.kv, k)[0].value == Idx(uid)
  {
    hide KeySpace.EmailIndexKey, Hist;
    var u := Hist(sh.kv, k)[0].value.uid;
    KeySpace.EmailIndexKeyInjective(email, uid, sh.minted[u].payload.recipientEmail, u);
  }
}
