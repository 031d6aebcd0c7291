/**
  The string formats everything is looked up by: tenant ids, token ids, Redis keys and the text that is
  hashed into the blind index.
 */
module Identifiers {
  import opened Bytes
  import opened Card

  predicate IsAlnum(c: char) {
    'a' <= c <= 'z' || 'A' <= c <= 'Z' || '0' <= c <= '9'
  }

  /** `^[a-zA-Z0-9_-]{1,64}$` */
  predicate ValidTenantID(t: string) {
    && 1 <= |t| <= 64
    && forall i :: 0 <= i < |t| ==> IsAlnum(t[i]) || t[i] == '_' || t[i] == '-'
  }

  /** `^tok_[a-zA-Z0-9]{32,}$` */
  predicate IsTokenShaped(s: string) {
    && |s| >= 36
    && s[..4] == "tok_"
    && forall i :: 4 <= i < |s| ==> IsAlnum(s[i])
  }

  /** A letter or digit of ASCII, by its code. */
  predicate AlnumCode(c: char) {
    97 <= c as int <= 122 || 65 <= c as int <= 90 || 48 <= c as int <= 57
  }

  /** A tenant id is 1 to 64 letters, digits, underscores (code 95) and dashes (code 45). */
  lemma TenantIDPattern(t: string)
    ensures ValidTenantID(t)
       <==> t != "" && |t| < 65 && forall c :: c in t ==> AlnumCode(c) || c as int == 95 || c as int == 45
  {
    if t != "" && |t| < 65 && forall c :: c in t ==> AlnumCode(c) || c as int == 95 || c as int == 45 {
      forall i | 0 <= i < |t|
        ensures IsAlnum(t[i]) || t[i] == '_' || t[i] == '-'
      {
        assert t[i] in t;
      }
    }
  }

  /** What looks like a token is "tok_" and 32 or more letters and digits, and nothing else is. */
  lemma TokenPattern(s: string)
    ensures IsTokenShaped(s)
       <==> exists tail :: s == "tok_" + tail && |tail| >= 32 && forall c :: c in tail ==> AlnumCode(c)
  {
    if IsTokenShaped(s) {
      var tail := s[4..];
      assert s == "tok_" + tail;
      forall c | c in tail
        ensures AlnumCode(c)
      {
        var i :| 0 <= i < |tail| && tail[i] == c;
        assert s[i + 4] == c;
      }
    }
    if tail :| s == "tok_" + tail && |tail| >= 32 && forall c :: c in tail ==> AlnumCode(c) {
      forall i | 4 <= i < |s|
        ensures IsAlnum(s[i])
      {
        assert s[i] == tail[i - 4] && tail[i - 4] in tail;
      }
    }
  }

  function HexDigit(n: nat): (c: char)
    requires n < 16
    ensures IsAlnum(c)
  {
    if n < 10 then ('0' as int + n) as char else ('a' as int + n - 10) as char
  }

  function Hex(b: Bytes): (s: string)
    ensures |s| == 2 * |b|
  {
    seq(2 * |b|, i requires 0 <= i < 2 * |b| =>
      HexDigit(if i % 2 == 0 then b[i / 2] as nat / 16 else b[i / 2] as nat % 16))
  }

  /** The id made from 20 random bytes. */
  function TokenIDFrom(random: Bytes): string
  {
    "tok_" + Hex(random)
  }

  ghost predicate IsGeneratedID(id: string) {
    exists random: Bytes :: |random| == 20 && id == TokenIDFrom(random)
  }

  lemma GeneratedIDsAreTokenShaped(id: string)
    requires IsGeneratedID(id)
    ensures IsTokenShaped(id) && |id| == 44 && Latin(id) && id != ""
    ensures forall i :: 4 <= i < |id| ==> '0' <= id[i] <= '9' || 'a' <= id[i] <= 'f'
  {
    var random: Bytes :| |random| == 20 && id == TokenIDFrom(random);
    assert id[..4] == "tok_";
    forall i | 4 <= i < |id|
      ensures IsAlnum(id[i]) && ('0' <= id[i] <= '9' || 'a' <= id[i] <= 'f')
    {
      assert id[i] == Hex(random)[i - 4];
    }
  }

  /** The value of a lower-case hexadecimal digit, by its code. */
  function Nibble(c: char): int {
    if c as int < 58 then c as int - 48 else c as int - 87
  }

  /** An id is "tok_" and two digits for each random byte, the high half first. */
  lemma TokenIDSpellsBytes(random: Bytes, i: nat)
    requires i < |random|
    ensures var id := TokenIDFrom(random);
      && |id| == 4 + 2 * |random| && id[..4] == "tok_"
      && 16 * Nibble(id[4 + 2 * i]) + Nibble(id[5 + 2 * i]) == random[i] as int
  {
    assert TokenIDFrom(random)[4 + 2 * i] == Hex(random)[2 * i] && TokenIDFrom(random)[5 + 2 * i] == Hex(random)[2 * i + 1];
  }

  lemma HexInjective(a: Bytes, b: Bytes)
    requires Hex(a) == Hex(b)
    ensures a == b
  {
    assert |a| == |b|;
    forall i | 0 <= i < |a|
      ensures a[i] == b[i]
    {
      assert Hex(a)[2 * i] == Hex(b)[2 * i] && Hex(a)[2 * i + 1] == Hex(b)[2 * i + 1];
    }
  }

  /** Distinct random bytes give distinct ids. */
  lemma TokenIDFromInjective(a: Bytes, b: Bytes)
    requires TokenIDFrom(a) == TokenIDFrom(b)
    ensures a == b
  {
    assert TokenIDFrom(a)[4..] == Hex(a) && TokenIDFrom(b)[4..] == Hex(b);
    HexInjective(a, b);
  }

  /** A stored card value never looks like a token. */
  lemma DigitsAreNotTokenShaped(s: string)
    requires AllDigits(s)
    ensures !IsTokenShaped(s) && Latin(s)
  {
    if |s| >= 36 {
      assert s[..4][0] == s[0] && "tok_"[0] == 't';
    }
  }

  // Redis keys

  function CvvKey(tenant: string, id: string): string {
    "cvv:" + tenant + ":" + id
  }

  function CvvTokenKey(tenant: string, id: string): string {
    "cvvtok:" + tenant + ":" + id
  }

  function CvvOwnerKey(tenant: string, panToken: string): string {
    "cvvtok_owner:" + tenant + ":" + panToken
  }

  /** The text hashed into the blind index. */
  function BlindPreimage(tenant: string, pan: string): string {
    tenant + ":" + pan
  }

  predicate ColonFree(t: string) {
    ':' !in t
  }

  lemma ValidTenantIDsAreColonFree(t: string)
    requires ValidTenantID(t)
    ensures ColonFree(t)
  {
  }

  lemma FirstColon(a: string, x: string)
    requires ColonFree(a)
    ensures (a + ":" + x)[|a|] == ':'
    ensures forall i :: 0 <= i < |a| ==> (a + ":" + x)[i] != ':'
  {
    assert forall i :: 0 <= i < |a| ==> (a + ":" + x)[i] == a[i];
  }

  /** `a:x` can be split in only one way when the part before the colon holds no colon. */
  lemma SplitAtColon(a: string, x: string, b: string, y: string)
    requires ColonFree(a) && ColonFree(b)
    requires a + ":" + x == b + ":" + y
    ensures a == b && x == y
  {
    var l, r := a + ":" + x, b + ":" + y;
    FirstColon(a, x);
    FirstColon(b, y);
    assert |a| == |b|;
    assert l[..|a|] == a && r[..|b|] == b;
    assert l[|a| + 1..] == x && r[|b| + 1..] == y;
  }

  lemma CancelPrefix(p: string, s: string, s': string)
    requires p + s == p + s'
    ensures s == s'
  {
    assert (p + s)[|p|..] == s && (p + s')[|p|..] == s';
  }

  lemma CvvTokenKeyInjective(t: string, id: string, t': string, id': string)
    requires ColonFree(t) && ColonFree(t')
    ensures CvvTokenKey(t, id) == CvvTokenKey(t', id') <==> t == t' && id == id'
  {
    if CvvTokenKey(t, id) == CvvTokenKey(t', id') {
      assert CvvTokenKey(t, id) == "cvvtok:" + (t + ":" + id);
      assert CvvTokenKey(t', id') == "cvvtok:" + (t' + ":" + id');
      CancelPrefix("cvvtok:", t + ":" + id, t' + ":" + id');
      SplitAtColon(t, id, t', id');
    }
  }

  lemma CvvOwnerKeyInjective(t: string, id: string, t': string, id': string)
    requires ColonFree(t) && ColonFree(t')
    ensures CvvOwnerKey(t, id) == CvvOwnerKey(t', id') <==> t == t' && id == id'
  {
    if CvvOwnerKey(t, id) == CvvOwnerKey(t', id') {
      assert CvvOwnerKey(t, id) == "cvvtok_owner:" + (t + ":" + id);
      assert CvvOwnerKey(t', id') == "cvvtok_owner:" + (t' + ":" + id');
      CancelPrefix("cvvtok_owner:", t + ":" + id, t' + ":" + id');
      SplitAtColon(t, id, t', id');
    }
  }

  lemma CvvKeyInjective(t: string, id: string, t': string, id': string)
    requires ColonFree(t) && ColonFree(t')
    ensures CvvKey(t, id) == CvvKey(t', id') <==> t == t' && id == id'
  {
    if CvvKey(t, id) == CvvKey(t', id') {
      assert CvvKey(t, id) == "cvv:" + (t + ":" + id);
      assert CvvKey(t', id') == "cvv:" + (t' + ":" + id');
      CancelPrefix("cvv:", t + ":" + id, t' + ":" + id');
      SplitAtColon(t, id, t', id');
    }
  }

  /** The three key families never meet, whatever the tenants and ids are. */
  lemma KeyFamiliesDisjoint(t: string, id: string, t': string, id': string)
    ensures CvvKey(t, id) != CvvTokenKey(t', id')
    ensures CvvKey(t, id) != CvvOwnerKey(t', id')
    ensures CvvTokenKey(t, id) != CvvOwnerKey(t', id')
  {
    assert CvvKey(t, id)[3] == ':' && CvvTokenKey(t', id')[3] == 't' && CvvOwnerKey(t', id')[3] == 't';
    assert CvvTokenKey(t, id)[6] == ':' && CvvOwnerKey(t', id')[6] == '_';
  }

  lemma BlindPreimageInjective(t: string, pan: string, t': string, pan': string)
    requires ColonFree(t) && ColonFree(t')
    ensures BlindPreimage(t, pan) == BlindPreimage(t', pan') <==> t == t' && pan == pan'
  {
    if BlindPreimage(t, pan) == BlindPreimage(t', pan') {
      SplitAtColon(t, pan, t', pan');
    }
  }

  /** Without the tenant-id gate the keys of two tenants can meet. */
  lemma KeysCollideWithoutGate()
    ensures CvvTokenKey("a:b", "c") == CvvTokenKey("a", "b:c") == "cvvtok:a:b:c"
    ensures CvvOwnerKey("a:b", "c") == CvvOwnerKey("a", "b:c") == "cvvtok_owner:a:b:c"
    ensures CvvKey("a:b", "c") == CvvKey("a", "b:c") == "cvv:a:b:c"
    ensures BlindPreimage("a:b", "c") == BlindPreimage("a", "b:c") == "a:b:c"
    ensures !ValidTenantID("a:b")
  {
    assert "a:b"[1] == ':';
    assert CvvTokenKey("a:b", "c") == "cvvtok:a:b:c" == CvvTokenKey("a", "b:c");
    assert CvvOwnerKey("a:b", "c") == "cvvtok_owner:a:b:c" == CvvOwnerKey("a", "b:c");
    assert CvvKey("a:b", "c") == "cvv:a:b:c" == CvvKey("a", "b:c");
    assert BlindPreimage("a:b", "c") == "a:b:c" == BlindPreimage("a", "b:c");
  }
}
