/** The key layout of the invite bucket: primary records under the UID, the secondary index under
    index/email/<base64url of the normalized e-mail>/<uid>. */
module KeySpace {
  import opened Base

  const EMAIL_INDEX_PREFIX := "index/email/"

  // ---------------------------------------------------------------- normalization

  predicate IsSpace(c: char) {
    c == ' ' || 9 <= c as int <= 13
  }

  function TrimLeft(s: string): (r: string)
    ensures IsBytes(s) ==> IsBytes(r)
  {
    if s != "" && IsSpace(s[0]) then TrimLeft(s[1..]) else s
  }

  function TrimRight(s: string): (r: string)
    ensures IsBytes(s) ==> IsBytes(r)
  {
    if s != "" && IsSpace(s[|s| - 1]) then TrimRight(s[..|s| - 1]) else s
  }

  /** TrimLeft removes white space only, and all of it at the front. */
  lemma {:induction false} TrimLeftMeans(s: string)
    ensures |TrimLeft(s)| <= |s| && TrimLeft(s) == s[|s| - |TrimLeft(s)|..]
    ensures TrimLeft(s) != "" ==> !IsSpace(TrimLeft(s)[0])
    ensures forall i | 0 <= i < |s| - |TrimLeft(s)| :: IsSpace(s[i])
  {
    if s != "" && IsSpace(s[0]) {
      var rest, n := s[1..], |TrimLeft(s)|;
      TrimLeftMeans(rest);
      assert rest[|rest| - n..] == s[|s| - n..];
      forall i | 0 <= i < |s| - n ensures IsSpace(s[i]) {
        assert i > 0 ==> s[i] == rest[i - 1];
      }
    }
  }

  lemma {:induction false} TrimRightMeans(s: string)
    ensures TrimRight(s) <= s
    ensures TrimRight(s) != "" ==> !IsSpace(TrimRight(s)[|TrimRight(s)| - 1])
    ensures forall i | |TrimRight(s)| <= i < |s| :: IsSpace(s[i])
  {
    if s != "" && IsSpace(s[|s| - 1]) {
      var rest := s[..|s| - 1];
      TrimRightMeans(rest);
      forall i | |TrimRight(s)| <= i < |s| ensures IsSpace(s[i]) {
        assert i < |rest| ==> s[i] == rest[i];
      }
    }
  }

  function TrimSpace(s: string): (r: string)
    ensures IsBytes(s) ==> IsBytes(r)
  {
    TrimRight(TrimLeft(s))
  }

  function LowerChar(c: char): (r: char)
    ensures IsSpace(r) <==> IsSpace(c)
    ensures c as int < 256 ==> r as int < 256
    ensures !('A' <= r <= 'Z')
    ensures r == c || ('A' <= c <= 'Z' && r as int == c as int + 32)
  {
    if 'A' <= c <= 'Z' then (c as int + 32) as char else c
  }

  function ToLower(s: string): (r: string)
    ensures |r| == |s|
    ensures forall i | 0 <= i < |s| :: r[i] == LowerChar(s[i])
  {
    seq(|s|, i requires 0 <= i < |s| => LowerChar(s[i]))
  }

  function NormalizeEmail(email: Bytes): Bytes {
    ToLower(TrimSpace(email))
  }

  lemma TrimSpaceFixed(s: string)
    requires s != "" ==> !IsSpace(s[0]) && !IsSpace(s[|s| - 1])
    ensures TrimSpace(s) == s
  {
  }

  lemma ToLowerFixed(s: string)
    ensures ToLower(ToLower(s)) == ToLower(s)
  {
    var l := ToLower(s);
    assert forall i | 0 <= i < |s| :: LowerChar(l[i]) == l[i];
  }

  lemma ToLowerKeepsEnds(s: string)
    requires s != "" ==> !IsSpace(s[0]) && !IsSpace(s[|s| - 1])
    ensures ToLower(s) != "" ==> !IsSpace(ToLower(s)[0]) && !IsSpace(ToLower(s)[|s| - 1])
  {
  }

  /** Looking up an e-mail that is already normalized uses the same key as looking up the raw one. */
  lemma NormalizeIdempotent(email: Bytes)
    ensures NormalizeEmail(NormalizeEmail(email)) == NormalizeEmail(email)
  {
    var t := TrimSpace(email);
    TrimLeftMeans(email);
    TrimRightMeans(TrimLeft(email));
    ToLowerKeepsEnds(t);
    TrimSpaceFixed(ToLower(t));
    ToLowerFixed(t);
  }

  lemma {:induction false} TrimLeftPadded(pad: string, s: string)
    requires forall i | 0 <= i < |pad| :: IsSpace(pad[i])
    ensures TrimLeft(pad + s) == TrimLeft(s)
  {
    if pad == "" {
      assert pad + s == s;
    } else {
      TrimLeftPadded(pad[1..], s);
      assert (pad + s)[1..] == pad[1..] + s;
    }
  }

  lemma {:induction false} TrimRightPadded(s: string, pad: string)
    requires forall i | 0 <= i < |pad| :: IsSpace(pad[i])
    ensures TrimRight(s + pad) == TrimRight(s)
  {
    if pad == "" {
      assert s + pad == s;
    } else {
      TrimRightPadded(s, pad[..|pad| - 1]);
      assert (s + pad)[..|s + pad| - 1] == s + pad[..|pad| - 1];
    }
  }

  lemma {:induction false} TrimLeftAppend(s: string, pad: string)
    ensures TrimLeft(s) != "" ==> TrimLeft(s + pad) == TrimLeft(s) + pad
    ensures TrimLeft(s) == "" ==> TrimLeft(s + pad) == TrimLeft(pad)
  {
    if s == "" {
      assert s + pad == pad;
    } else if IsSpace(s[0]) {
      TrimLeftAppend(s[1..], pad);
      assert (s + pad)[1..] == s[1..] + pad;
    }
  }

  lemma TrimIgnoresPadding(before: string, email: string, after: string)
    requires forall i | 0 <= i < |before| :: IsSpace(before[i])
    requires forall i | 0 <= i < |after| :: IsSpace(after[i])
    ensures TrimSpace(before + email + after) == TrimSpace(email)
  {
    TrimLeftPadded(before, email + after);
    assert before + email + after == before + (email + after);
    TrimLeftAppend(email, after);
    if TrimLeft(email) == "" {
      TrimLeftPadded(after, "");
      assert after + "" == after;
    } else {
      TrimRightPadded(TrimLeft(email), after);
    }
  }

  /** White space around an e-mail does not change its key. */
  lemma NormalizeIgnoresPadding(before: Bytes, email: Bytes, after: Bytes)
    requires forall i | 0 <= i < |before| :: IsSpace(before[i])
    requires forall i | 0 <= i < |after| :: IsSpace(after[i])
    ensures NormalizeEmail(before + email + after) == NormalizeEmail(email)
  {
    TrimIgnoresPadding(before, email, after);
    hide TrimSpace;
  }

  lemma {:induction false} TrimLeftLower(s: string)
    ensures TrimLeft(ToLower(s)) == ToLower(TrimLeft(s))
  {
    if s != "" {
      TrimLeftLower(s[1..]);
      assert ToLower(s)[1..] == ToLower(s[1..]);
    }
  }

  lemma {:induction false} TrimRightLower(s: string)
    ensures TrimRight(ToLower(s)) == ToLower(TrimRight(s))
  {
    if s != "" {
      var n := |s| - 1;
      TrimRightLower(s[..n]);
      assert ToLower(s)[..n] == ToLower(s[..n]);
    }
  }

  /** Nor does letter case. */
  lemma NormalizeIgnoresCase(email: Bytes, other: Bytes)
    requires ToLower(email) == ToLower(other)
    ensures NormalizeEmail(email) == NormalizeEmail(other)
  {
    TrimLeftLower(email);
    TrimLeftLower(other);
    TrimRightLower(TrimLeft(email));
    TrimRightLower(TrimLeft(other));
  }

  // ---------------------------------------------------------------- what normalization computes

  /** White space is the six ASCII characters. */
  lemma SpacesAre(c: char)
    ensures IsSpace(c) <==> c as int in {0x09, 0x0A, 0x0B, 0x0C, 0x0D, 0x20}
  {
  }

  predicate AllSpace(s: string) {
    forall i | 0 <= i < |s| :: IsSpace(s[i])
  }

  /** Neither the first nor the last character is white space. */
  predicate Bare(s: string) {
    s != "" ==> !IsSpace(s[0]) && !IsSpace(s[|s| - 1])
  }

  /** s is m with white space around it, and m is as short as that allows. */
  predicate Around(s: string, a: string, m: string, z: string) {
    s == a + m + z && AllSpace(a) && Bare(m) && AllSpace(z)
  }

  /** Trimming finds the part between the white space. */
  lemma TrimmedAround(s: string) returns (a: string, z: string)
    ensures Around(s, a, TrimSpace(s), z)
  {
    TrimLeftMeans(s);
    TrimRightMeans(TrimLeft(s));
    var l, m := TrimLeft(s), TrimSpace(s);
    a, z := s[..|s| - |l|], l[|m|..];
    assert l == m + z && s == a + l;
  }

  lemma AroundIsTrimmed(s: string, a: string, m: string, z: string)
    requires Around(s, a, m, z)
    ensures TrimSpace(s) == m
  {
    TrimIgnoresPadding(a, m, z);
    TrimSpaceFixed(m);
  }

  /** What trimming computes, whatever it is computed by: the one part of s that starts and ends without white space
      and has nothing but white space around it. */
  lemma TrimSpaceExactly(s: string, m: string)
    ensures TrimSpace(s) == m <==> exists a, z :: Around(s, a, m, z)
  {
    hide TrimSpace;
    if TrimSpace(s) == m {
      var a, z := TrimmedAround(s);
      assert Around(s, a, m, z);
    }
    forall a, z | Around(s, a, m, z) ensures TrimSpace(s) == m {
      AroundIsTrimmed(s, a, m, z);
    }
  }

  /** The same letter, or the lower-case form of the same ASCII letter. */
  predicate SameLetter(c: char, d: char) {
    || c == d
    || ('A' <= c <= 'Z' && d as int == c as int + 32)
    || ('A' <= d <= 'Z' && c as int == d as int + 32)
  }

  predicate SameLetters(s: string, t: string) {
    |s| == |t| && forall i | 0 <= i < |s| :: SameLetter(s[i], t[i])
  }

  lemma LowerAlike(s: string, t: string)
    ensures ToLower(s) == ToLower(t) <==> SameLetters(s, t)
  {
    if ToLower(s) == ToLower(t) {
      forall i | 0 <= i < |s| ensures SameLetter(s[i], t[i]) {
        assert ToLower(s)[i] == LowerChar(s[i]) && ToLower(t)[i] == LowerChar(t[i]);
      }
    }
  }

  /** Without the white space around them, the two e-mails agree character by character up to ASCII case. */
  ghost predicate SameAddress(e: Bytes, f: Bytes) {
    exists a, m, z, b, n, y :: Around(e, a, m, z) && Around(f, b, n, y) && SameLetters(m, n)
  }

  /** What normalization computes: the part of the e-mail between the white space around it, with every ASCII capital
      replaced by its small letter and every other character kept. */
  lemma NormalizeComputes(email: Bytes) returns (a: string, m: string, z: string)
    ensures Around(email, a, m, z) && |NormalizeEmail(email)| == |m|
    ensures forall i | 0 <= i < |m| ::
              NormalizeEmail(email)[i] == if 'A' <= m[i] <= 'Z' then (m[i] as int + 32) as char else m[i]
  {
    m := TrimSpace(email);
    a, z := TrimmedAround(email);
    hide TrimSpace;
  }

  /** Two e-mails have the same normalized form exactly when they are the same up to ASCII case and surrounding white
      space. */
  lemma NormalizedAlike(e: Bytes, f: Bytes)
    ensures NormalizeEmail(e) == NormalizeEmail(f) <==> SameAddress(e, f)
  {
    hide TrimSpace, SameLetters, Around;
    LowerAlike(TrimSpace(e), TrimSpace(f));
    if NormalizeEmail(e) == NormalizeEmail(f) {
      var a, z := TrimmedAround(e);
      var b, y := TrimmedAround(f);
      assert Around(e, a, TrimSpace(e), z) && Around(f, b, TrimSpace(f), y) && SameLetters(TrimSpace(e), TrimSpace(f));
    }
    if SameAddress(e, f) {
      var a, m, z, b, n, y :| Around(e, a, m, z) && Around(f, b, n, y) && SameLetters(m, n);
      AroundIsTrimmed(e, a, m, z);
      AroundIsTrimmed(f, b, n, y);
    }
  }

  // ---------------------------------------------------------------- base64url without padding

  /** The URL and filename safe alphabet of section 5 of RFC 4648. */
  function Sextet(n: int): (c: char)
    requires 0 <= n < 64
    ensures c != '/'
  {
    if n < 26 then ('A' as int + n) as char
    else if n < 52 then ('a' as int + (n - 26)) as char
    else if n < 62 then ('0' as int + (n - 52)) as char
    else if n == 62 then '-'
    else '_'
  }

  function SextetValue(c: char): (n: int)
    ensures -1 <= n < 64
  {
    if 'A' <= c <= 'Z' then c as int - 'A' as int
    else if 'a' <= c <= 'z' then c as int - 'a' as int + 26
    else if '0' <= c <= '9' then c as int - '0' as int + 52
    else if c == '-' then 62
    else if c == '_' then 63
    else -1
  }

  lemma SextetRoundTrip(n: int)
    requires 0 <= n < 64
    ensures SextetValue(Sextet(n)) == n
  {
  }

  function Lead(a: int, b: int): string
    requires 0 <= a < 256 && 0 <= b < 256
  {
    [Sextet(a / 4), Sextet(a % 4 * 16 + b / 16)]
  }

  /** base64.RawURLEncoding.EncodeToString. */
  function Encode(s: Bytes): (r: string)
    ensures SlashFree(r)
  {
    if |s| == 0 then ""
    else if |s| == 1 then Lead(s[0] as int, 0)
    else if |s| == 2 then Lead(s[0] as int, s[1] as int) + [Sextet(s[1] as int % 16 * 4)]
    else EncodeGroup(s[0] as int, s[1] as int, s[2] as int) + Encode(s[3..])
  }

  function EncodeGroup(a: int, b: int, c: int): (r: string)
    requires 0 <= a < 256 && 0 <= b < 256 && 0 <= c < 256
    ensures |r| == 4 && SlashFree(r)
  {
    Lead(a, b) + [Sextet(b % 16 * 4 + c / 64), Sextet(c % 64)]
  }

  /** The three bytes that four sextets carry. */
  function JoinSextets(v0: int, v1: int, v2: int, v3: int): (r: string)
    requires 0 <= v0 < 64 && 0 <= v1 < 64 && 0 <= v2 < 64 && 0 <= v3 < 64
    ensures |r| == 3
  {
    [(v0 * 4 + v1 / 16) as char, (v1 % 16 * 16 + v2 / 4) as char, (v2 % 4 * 64 + v3) as char]
  }

  /** The matching decoder; None for text that is no unpadded base64url encoding. */
  function Decode(t: string): Option<string> {
    if |t| == 0 then Some("")
    else if |t| < 4 then DecodeTail(t)
    else
      var head, rest := DecodeGroup(t[..4]), Decode(t[4..]);
      if head.None? || rest.None? then None else Some(head.value + rest.value)
  }

  function DecodeTail(t: string): Option<string>
    requires 0 < |t| < 4
  {
    if |t| == 1 then None
    else
      var v0, v1 := SextetValue(t[0]), SextetValue(t[1]);
      if v0 < 0 || v1 < 0 then None
      else if |t| == 2 then Some(JoinSextets(v0, v1, 0, 0)[..1])
      else
        var v2 := SextetValue(t[2]);
        if v2 < 0 then None else Some(JoinSextets(v0, v1, v2, 0)[..2])
  }

  function DecodeGroup(t: string): Option<string>
    requires |t| == 4
  {
    var v0, v1, v2, v3 := SextetValue(t[0]), SextetValue(t[1]), SextetValue(t[2]), SextetValue(t[3]);
    if v0 < 0 || v1 < 0 || v2 < 0 || v3 < 0 then None
    else Some(JoinSextets(v0, v1, v2, v3))
  }

  lemma DecodeSextets(v0: int, v1: int, v2: int, v3: int)
    requires 0 <= v0 < 64 && 0 <= v1 < 64 && 0 <= v2 < 64 && 0 <= v3 < 64
    ensures DecodeGroup([Sextet(v0), Sextet(v1), Sextet(v2), Sextet(v3)]) == Some(JoinSextets(v0, v1, v2, v3))
    ensures DecodeTail([Sextet(v0), Sextet(v1), Sextet(v2)]) == Some(JoinSextets(v0, v1, v2, 0)[..2])
    ensures DecodeTail([Sextet(v0), Sextet(v1)]) == Some(JoinSextets(v0, v1, 0, 0)[..1])
  {
    SextetRoundTrip(v0);
    SextetRoundTrip(v1);
    SextetRoundTrip(v2);
    SextetRoundTrip(v3);
  }

  lemma JoinOfSplit(a: int, b: int, c: int)
    requires 0 <= a < 256 && 0 <= b < 256 && 0 <= c < 256
    ensures 0 <= a % 4 * 16 + b / 16 < 64 && 0 <= b % 16 * 4 + c / 64 < 64
    ensures JoinSextets(a / 4, a % 4 * 16 + b / 16, b % 16 * 4 + c / 64, c % 64) == [a as char, b as char, c as char]
  {
    assert (a % 4 * 16 + b / 16) / 16 == a % 4;
    assert (a % 4 * 16 + b / 16) % 16 == b / 16;
    assert (b % 16 * 4 + c / 64) / 4 == b % 16;
    assert (b % 16 * 4 + c / 64) % 4 == c / 64;
  }

  lemma GroupRoundTrip(x: char, y: char, z: char)
    requires x as int < 256 && y as int < 256 && z as int < 256
    ensures DecodeGroup(EncodeGroup(x as int, y as int, z as int)) == Some([x, y, z])
  {
    hide DecodeGroup, Sextet, SextetValue;
    var a, b, c := x as int, y as int, z as int;
    JoinOfSplit(a, b, c);
    var v1, v2 := a % 4 * 16 + b / 16, b % 16 * 4 + c / 64;
    DecodeSextets(a / 4, v1, v2, c % 64);
    assert EncodeGroup(a, b, c) == [Sextet(a / 4), Sextet(v1), Sextet(v2), Sextet(c % 64)];
  }

  lemma OneRoundTrip(x: char)
    requires x as int < 256
    ensures DecodeTail(Lead(x as int, 0)) == Some([x])
  {
    var a := x as int;
    JoinOfSplit(a, 0, 0);
    DecodeSextets(a / 4, a % 4 * 16, 0, 0);
    assert Lead(a, 0) == [Sextet(a / 4), Sextet(a % 4 * 16)];
    assert [x, 0 as char, 0 as char][..1] == [x];
  }

  lemma TwoRoundTrip(x: char, y: char)
    requires x as int < 256 && y as int < 256
    ensures DecodeTail(Lead(x as int, y as int) + [Sextet(y as int % 16 * 4)]) == Some([x, y])
  {
    hide DecodeTail, Sextet, SextetValue;
    var a, b := x as int, y as int;
    JoinOfSplit(a, b, 0);
    var v1, v2 := a % 4 * 16 + b / 16, b % 16 * 4;
    DecodeSextets(a / 4, v1, v2, 0);
    assert Lead(a, b) + [Sextet(v2)] == [Sextet(a / 4), Sextet(v1), Sextet(v2)];
    assert [x, y, 0 as char][..2] == [x, y];
  }

  /** The encoding is invertible on every byte string. */
  lemma {:induction false} DecodeEncode(s: Bytes)
    ensures Decode(Encode(s)) == Some(s)
  {
    hide EncodeGroup, DecodeGroup, DecodeTail, Lead, Sextet;
    if |s| == 0 {
    } else if |s| < 3 {
      TailRoundTrip(s);
    } else {
      var rest: Bytes := s[3..];
      DecodeEncode(rest);
      DecodeStep(s[0], s[1], s[2], Encode(rest));
      EncodeStep(s);
      assert s == [s[0], s[1], s[2]] + rest;
    }
  }

  lemma EncodeStep(s: Bytes)
    requires |s| >= 3
    ensures Encode(s) == EncodeGroup(s[0] as int, s[1] as int, s[2] as int) + Encode(s[3..])
  {
  }

  lemma TailRoundTrip(s: Bytes)
    requires 0 < |s| < 3
    ensures Decode(Encode(s)) == Some(s)
  {
    if |s| == 1 {
      OneRoundTrip(s[0]);
      assert s == [s[0]];
    } else {
      TwoRoundTrip(s[0], s[1]);
      assert s == [s[0], s[1]];
    }
  }

  lemma DecodeStep(x: char, y: char, z: char, rest: string)
    requires x as int < 256 && y as int < 256 && z as int < 256 && Decode(rest).Some?
    ensures Decode(EncodeGroup(x as int, y as int, z as int) + rest) == Some([x, y, z] + Decode(rest).value)
  {
    var g := EncodeGroup(x as int, y as int, z as int);
    assert (g + rest)[..4] == g && (g + rest)[4..] == rest;
    GroupRoundTrip(x, y, z);
  }

  lemma EncodeInjective(s: Bytes, t: Bytes)
    requires Encode(s) == Encode(t)
    ensures s == t
  {
    DecodeEncode(s);
    DecodeEncode(t);
  }

  // ---------------------------------------------------------------- keys

  function EncodeEmailForKey(email: Bytes): (r: string)
    ensures SlashFree(r)
  {
    Encode(NormalizeEmail(email))
  }

  function JoinKey(encoded: string, uid: string): string {
    EMAIL_INDEX_PREFIX + encoded + "/" + uid
  }

  /** The prefix GetByEmail scans for. */
  function ScanPrefix(email: Bytes): string {
    JoinKey(EncodeEmailForKey(email), "")
  }

  function EmailIndexKey(email: Bytes, uid: string): string {
    JoinKey(EncodeEmailForKey(email), uid)
  }

  /** An index key reads index/email/, a slash-free code of the normalized e-mail, a slash, and the UID. */
  lemma IndexKeyReads(email: Bytes, uid: string) returns (code: string)
    ensures EmailIndexKey(email, uid) == "index/email/" + code + "/" + uid
    ensures SlashFree(code) && Decode(code) == Some(NormalizeEmail(email))
  {
    code := EncodeEmailForKey(email);
    DecodeEncode(NormalizeEmail(email));
    hide Decode, NormalizeEmail, SlashFree;
  }

  lemma SplitAtSlash(a: string, b: string, x: string, y: string)
    requires SlashFree(a) && SlashFree(b)
    requires a + "/" + x == b + "/" + y
    ensures a == b && x == y
  {
    var l := a + "/" + x;
    assert l[|a|] == '/' && l[|b|] == '/';
    assert forall i | 0 <= i < |a| :: l[i] == a[i] && a[i] in a;
    assert forall i | 0 <= i < |b| :: l[i] == b[i] && b[i] in b;
    assert |a| == |b|;
    assert a == l[..|a|] && b == l[..|b|];
    assert x == l[|a| + 1..] && y == l[|b| + 1..];
  }

  lemma JoinKeyInjective(a: string, x: string, b: string, y: string)
    requires SlashFree(a) && SlashFree(b)
    requires JoinKey(a, x) == JoinKey(b, y)
    ensures a == b && x == y
  {
    var n := |EMAIL_INDEX_PREFIX|;
    assert JoinKey(a, x)[n..] == a + "/" + x;
    assert JoinKey(b, y)[n..] == b + "/" + y;
    SplitAtSlash(a, b, x, y);
  }

  lemma JoinKeyExtends(a: string, x: string)
    ensures JoinKey(a, "") + x == JoinKey(a, x)
  {
  }

  /** Whatever follows one e-mail's scan prefix in an index key is that key's UID, and the key belongs to the same
      e-mail, up to ASCII case and surrounding white space. */
  lemma ScanPrefixParses(probe: Bytes, rest: string, email: Bytes, uid: string)
    requires ScanPrefix(probe) + rest == EmailIndexKey(email, uid)
    ensures SameAddress(probe, email) && rest == uid
  {
    NormalizedAlike(probe, email);
    hide SameAddress;
    var p, e := EncodeEmailForKey(probe), EncodeEmailForKey(email);
    JoinKeyExtends(p, rest);
    JoinKeyInjective(p, rest, e, uid);
    EncodeInjective(NormalizeEmail(probe), NormalizeEmail(email));
  }

  lemma JoinKeyPrefix(a: string, b: string, y: string)
    requires SlashFree(a) && SlashFree(b)
    ensures JoinKey(a, "") <= JoinKey(b, y) <==> a == b
    ensures a == b ==> JoinKey(b, y)[|JoinKey(a, "")|..] == y
  {
    var p, k := JoinKey(a, ""), JoinKey(b, y);
    JoinKeyExtends(b, y);
    if p <= k {
      JoinKeyExtends(a, k[|p|..]);
      assert p + k[|p|..] == k;
      JoinKeyInjective(a, k[|p|..], b, y);
    }
  }

  /** A prefix scan finds exactly the index keys of the same e-mail, up to ASCII case and surrounding white space, and
      the remainder of such a key is the invite UID. */
  lemma ScanPrefixExact(probe: Bytes, email: Bytes, uid: string)
    ensures ScanPrefix(probe) <= EmailIndexKey(email, uid) <==> SameAddress(probe, email)
    ensures ScanPrefix(probe) <= EmailIndexKey(email, uid) ==>
              EmailIndexKey(email, uid)[|ScanPrefix(probe)|..] == uid
  {
    NormalizedAlike(probe, email);
    hide SameAddress;
    JoinKeyPrefix(EncodeEmailForKey(probe), EncodeEmailForKey(email), uid);
    if EncodeEmailForKey(probe) == EncodeEmailForKey(email) {
      EncodeInjective(NormalizeEmail(probe), NormalizeEmail(email));
    }
  }

  /** Two bare e-mails share a scan prefix exactly when they agree character by character up to ASCII case. */
  lemma BareScanPrefixes(e: Bytes, f: Bytes)
    requires Bare(e) && Bare(f)
    ensures ScanPrefix(e) == ScanPrefix(f) <==> SameLetters(e, f)
  {
    TrimSpaceFixed(e);
    TrimSpaceFixed(f);
    LowerAlike(e, f);
    hide TrimSpace, ToLower, SameLetters, SlashFree;
    if ScanPrefix(e) == ScanPrefix(f) {
      JoinKeyInjective(EncodeEmailForKey(e), "", EncodeEmailForKey(f), "");
      EncodeInjective(NormalizeEmail(e), NormalizeEmail(f));
    }
  }

  /** Index keys coincide exactly for the same e-mail, up to ASCII case and surrounding white space, and the same
      UID. */
  lemma EmailIndexKeyInjective(e1: Bytes, u1: string, e2: Bytes, u2: string)
    ensures EmailIndexKey(e1, u1) == EmailIndexKey(e2, u2) <==> SameAddress(e1, e2) && u1 == u2
  {
    NormalizedAlike(e1, e2);
    hide SameAddress;
    if EmailIndexKey(e1, u1) == EmailIndexKey(e2, u2) {
      JoinKeyInjective(EncodeEmailForKey(e1), u1, EncodeEmailForKey(e2), u2);
      EncodeInjective(NormalizeEmail(e1), NormalizeEmail(e2));
    }
  }

  lemma JoinKeyHasSlash(encoded: string, uid: string)
    ensures !SlashFree(JoinKey(encoded, uid))
  {
    assert JoinKey(encoded, uid)[5] == '/';
  }

  /** An index key never coincides with a slash-free primary key. */
  lemma EmailIndexKeyNotPrimary(email: Bytes, uid: string, primary: string)
    requires SlashFree(primary)
    ensures EmailIndexKey(email, uid) != primary
  {
    JoinKeyHasSlash(EncodeEmailForKey(email), uid);
  }
}
