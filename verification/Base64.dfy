/**
 Base64 with padding (section 4 of RFC 4648) and base64url without (section 5). As the programs'
 decoders do, decoding ignores the unused bits of the last character.
 */
module Base64 {
  import opened Bytes
  import opened Wrappers

  type sextet = n: nat | n < 64

  function Char(v: sextet): char {
    if v < 26 then 'A' + v as char
    else if v < 52 then 'a' + (v - 26) as char
    else if v < 62 then '0' + (v - 52) as char
    else if v == 62 then '+' else '/'
  }

  function Value(c: char): Option<sextet> {
    if 'A' <= c <= 'Z' then Some((c - 'A') as nat)
    else if 'a' <= c <= 'z' then Some((c - 'a') as nat + 26)
    else if '0' <= c <= '9' then Some((c - '0') as nat + 52)
    else if c == '+' then Some(62)
    else if c == '/' then Some(63)
    else None
  }

  lemma CharHasValue(v: sextet)
    ensures Value(Char(v)) == Some(v) && Char(v) != '=' && Char(v) != '-' && Char(v) != '_'
  {
  }

  // ---- Groups --------------------------------------------------------------------------------

  /** Four characters without padding. */
  function DecodeFull(q: string): Option<seq<byte>> {
    if |q| != 4 || Value(q[0]).None? || Value(q[1]).None? || Value(q[2]).None? || Value(q[3]).None? then None
    else
      var a, b, c, d := Value(q[0]).value, Value(q[1]).value, Value(q[2]).value, Value(q[3]).value;
      Some([a * 4 + b / 16, b % 16 * 16 + c / 4, c % 4 * 64 + d])
  }

  /** The last four characters, one or two of which may be padding. */
  function DecodeLast(q: string): Option<seq<byte>> {
    if |q| != 4 || q[3] != '=' then DecodeFull(q)
    else if Value(q[0]).None? || Value(q[1]).None? then None
    else
      var a, b := Value(q[0]).value, Value(q[1]).value;
      if q[2] == '=' then Some([a * 4 + b / 16])
      else if Value(q[2]).None? then None
      else Some([a * 4 + b / 16, b % 16 * 16 + Value(q[2]).value / 4])
  }

  /** Groups of four: all but the last by `full`. */
  function DecodeGroups(full: string -> Option<seq<byte>>, last: string -> Option<seq<byte>>, s: string): Option<seq<byte>> {
    if s == [] then Some([])
    else if |s| < 4 then None
    else if |s| == 4 then last(s)
    else
      var first, rest := full(s[..4]), DecodeGroups(full, last, s[4..]);
      if first.None? || rest.None? then None else Some(first.value + rest.value)
  }

  function Decode(s: string): Option<seq<byte>> {
    DecodeGroups(DecodeFull, DecodeLast, s)
  }

  function EncodeFull(b: seq<byte>): (r: string)
    requires |b| == 3
    ensures |r| == 4
  {
    [Char(b[0] / 4), Char(b[0] % 4 * 16 + b[1] / 16), Char(b[1] % 16 * 4 + b[2] / 64), Char(b[2] % 64)]
  }

  function EncodeLast(b: seq<byte>): (r: string)
    requires 1 <= |b| <= 3
    ensures |r| == 4
  {
    if |b| == 3 then EncodeFull(b)
    else if |b| == 2 then [Char(b[0] / 4), Char(b[0] % 4 * 16 + b[1] / 16), Char(b[1] % 16 * 4), '=']
    else [Char(b[0] / 4), Char(b[0] % 4 * 16), '=', '=']
  }

  function Encode(b: seq<byte>): (r: string)
    ensures |r| % 4 == 0 && (|r| == 0 <==> b == [])
  {
    if b == [] then []
    else if |b| <= 3 then EncodeLast(b)
    else EncodeFull(b[..3]) + Encode(b[3..])
  }

  lemma SextetsRegroup(x: byte, y: byte, z: byte)
    ensures x / 4 * 4 + (x % 4 * 16 + y / 16) / 16 == x
    ensures (x % 4 * 16 + y / 16) % 16 * 16 + (y % 16 * 4 + z / 64) / 4 == y
    ensures (y % 16 * 4 + z / 64) % 4 * 64 + z % 64 == z
  {
  }

  lemma DecodesTo(q: string, a: sextet, b: sextet, c: sextet, d: sextet)
    requires |q| == 4 && q[0] == Char(a) && q[1] == Char(b) && q[2] == Char(c) && q[3] == Char(d)
    ensures DecodeFull(q) == Some([a * 4 + b / 16, b % 16 * 16 + c / 4, c % 4 * 64 + d])
  {
    CharHasValue(a);
    CharHasValue(b);
    CharHasValue(c);
    CharHasValue(d);
  }

  lemma FullRoundTrip(b: seq<byte>)
    requires |b| == 3
    ensures DecodeFull(EncodeFull(b)) == Some(b)
  {
    DecodesTo(EncodeFull(b), b[0] / 4, b[0] % 4 * 16 + b[1] / 16, b[1] % 16 * 4 + b[2] / 64, b[2] % 64);
    SextetsRegroup(b[0], b[1], b[2]);
    assert b == [b[0], b[1], b[2]];
  }

  lemma LastRoundTrip(b: seq<byte>)
    requires 1 <= |b| <= 3
    ensures DecodeLast(EncodeLast(b)) == Some(b)
  {
    CharHasValue(b[0] / 4);
    if |b| == 3 {
      FullRoundTrip(b);
      CharHasValue(b[2] % 64);
    } else if |b| == 2 {
      CharHasValue(b[0] % 4 * 16 + b[1] / 16);
      CharHasValue(b[1] % 16 * 4);
      assert b == [b[0], b[1]];
    } else {
      CharHasValue(b[0] % 4 * 16);
      assert b == [b[0]];
    }
  }

  lemma {:induction false} DecodeUndoesEncode(b: seq<byte>)
    ensures Decode(Encode(b)) == Some(b)
    decreases |b|
  {
    if 1 <= |b| <= 3 {
      LastRoundTrip(b);
    } else if |b| > 3 {
      DecodeUndoesEncode(b[3..]);
      FullRoundTrip(b[..3]);
      var s := Encode(b);
      assert s[..4] == EncodeFull(b[..3]) && s[4..] == Encode(b[3..]);
      assert b == b[..3] + b[3..];
    }
  }

  // ---- The alphabet and the bits -------------------------------------------------------------

  const UPPER := "ABCDEFGHIJKLMNOPQRSTUVWXYZ"
  const LOWER := "abcdefghijklmnopqrstuvwxyz"
  const DIGITS := "0123456789"
  const ALPHABET := UPPER + LOWER + DIGITS + "+/"
  const URL_ALPHABET := UPPER + LOWER + DIGITS + "-_"

  lemma Letters(v: nat)
    ensures v < 26 ==> UPPER[v] == 'A' + v as char && LOWER[v] == 'a' + v as char
    ensures v < 10 ==> DIGITS[v] == '0' + v as char
  {
  }

  lemma CharIsOfAlphabet(v: sextet)
    ensures |ALPHABET| == |URL_ALPHABET| == 64 && Char(v) == ALPHABET[v]
    ensures URL_ALPHABET[v] == if Char(v) == '+' then '-' else if Char(v) == '/' then '_' else Char(v)
  {
    Letters(if v < 26 then v else if v < 52 then v - 26 else if v < 62 then v - 52 else 0);
  }

  function ByteAt(b: seq<byte>, i: nat): nat { if i < |b| then b[i] else 0 }

  /** Three bytes as one number; missing ones are zero. */
  function Group(b: seq<byte>, g: nat): nat {
    ByteAt(b, g * 3) * 0x10000 + ByteAt(b, g * 3 + 1) * 0x100 + ByteAt(b, g * 3 + 2)
  }

  /** The `k`-th six bits of such a number, the most significant first. */
  function SixOf(n: nat, k: nat): sextet {
    if k == 0 then n / 0x40000 % 64 else if k == 1 then n / 0x1000 % 64 else if k == 2 then n / 0x40 % 64 else n % 64
  }

  function SixBits(b: seq<byte>, i: nat): sextet { SixOf(Group(b, i / 4), i % 4) }

  /** How many characters carry bits: six each. */
  function Carriers(b: seq<byte>): nat { (|b| * 8 + 5) / 6 }

  lemma DividesTo(n: nat, quotient: nat, rest: nat)
    ensures n == quotient * 0x40000 + rest && rest < 0x40000 ==> n / 0x40000 == quotient
    ensures n == quotient * 0x1000 + rest && rest < 0x1000 ==> n / 0x1000 == quotient
    ensures n == quotient * 0x40 + rest && rest < 0x40 ==> n / 0x40 == quotient && n % 0x40 == rest
  {
  }

  lemma BitsOfGroup(x: nat, y: nat, z: nat)
    requires x < 0x100 && y < 0x100 && z < 0x100
    ensures var n := x * 0x10000 + y * 0x100 + z;
            && SixOf(n, 0) == x / 4 && SixOf(n, 1) == x % 4 * 16 + y / 16
            && SixOf(n, 2) == y % 16 * 4 + z / 64 && SixOf(n, 3) == z % 64
  {
    HighBits(x, y, z);
    LowBits(x, y, z);
  }

  lemma HighBits(x: nat, y: nat, z: nat)
    requires x < 0x100 && y < 0x100 && z < 0x100
    ensures var n := x * 0x10000 + y * 0x100 + z; SixOf(n, 0) == x / 4 && SixOf(n, 1) == x % 4 * 16 + y / 16
  {
    var n := x * 0x10000 + y * 0x100 + z;
    DividesTo(n, x / 4, x % 4 * 0x10000 + y * 0x100 + z);
    DividesTo(n, x * 16 + y / 16, y % 16 * 0x100 + z);
    DividesTo(x * 16 + y / 16, x / 4, x % 4 * 16 + y / 16);
  }

  lemma LowBits(x: nat, y: nat, z: nat)
    requires x < 0x100 && y < 0x100 && z < 0x100
    ensures var n := x * 0x10000 + y * 0x100 + z; SixOf(n, 2) == y % 16 * 4 + z / 64 && SixOf(n, 3) == z % 64
  {
    var n := x * 0x10000 + y * 0x100 + z;
    DividesTo(n, x * 0x400 + y * 4 + z / 64, z % 64);
    DividesTo(x * 0x400 + y * 4 + z / 64, x * 16 + y / 16, y % 16 * 4 + z / 64);
  }

  /** What stands at place `i` of the text: a character of the alphabet for six bits, or padding. */
  ghost predicate Carries(b: seq<byte>, i: nat, c: char) {
    c == if i < Carriers(b) then ALPHABET[SixBits(b, i)] else '='
  }

  lemma CarrierCount(b: seq<byte>)
    ensures |b| <= 3 && b != [] ==> Carriers(b) == |b| + 1
    ensures |b| >= 3 ==> Carriers(b) >= 4
  {
  }

  lemma GroupIsCarried(b: seq<byte>, k: nat)
    requires 1 <= |b| && k < 4
    ensures Carries(b, k, if |b| >= 3 then EncodeFull(b[..3])[k] else EncodeLast(b)[k])
  {
    CarrierCount(b);
    FirstIsChar(b, k);
    CharIsOfAlphabet(SixBits(b, k));
  }

  lemma FirstIsChar(b: seq<byte>, k: nat)
    requires 1 <= |b| && k < 4
    ensures (if |b| >= 3 then EncodeFull(b[..3])[k] else EncodeLast(b)[k]) == if k > |b| then '=' else Char(SixBits(b, k))
  {
    BitsOfGroup(ByteAt(b, 0), ByteAt(b, 1), ByteAt(b, 2));
    FirstSixBits(b, k);
    FirstChars(b, k);
  }

  lemma FirstSixBits(b: seq<byte>, k: nat)
    requires k < 4
    ensures SixBits(b, k) == SixOf(ByteAt(b, 0) * 0x10000 + ByteAt(b, 1) * 0x100 + ByteAt(b, 2), k)
  {
    assert k / 4 == 0 && k % 4 == k;
  }

  lemma FirstChars(b: seq<byte>, k: nat)
    requires 1 <= |b| && k < 4
    ensures var x, y, z := ByteAt(b, 0), ByteAt(b, 1), ByteAt(b, 2);
            (if |b| >= 3 then EncodeFull(b[..3])[k] else EncodeLast(b)[k])
            == if k > |b| then '='
               else if k == 0 then Char(x / 4) else if k == 1 then Char(x % 4 * 16 + y / 16)
               else if k == 2 then Char(y % 16 * 4 + z / 64) else Char(z % 64)
  {
  }

  lemma LaterGroup(b: seq<byte>, i: nat, c: char)
    requires |b| > 3 && 4 <= i && Carries(b[3..], i - 4, c)
    ensures Carries(b, i, c)
  {
    assert i / 4 == (i - 4) / 4 + 1 && i % 4 == (i - 4) % 4;
    assert Group(b, i / 4) == Group(b[3..], (i - 4) / 4);
    assert Carriers(b) == Carriers(b[3..]) + 4;
  }

  lemma LengthOfText(n: nat)
    requires n > 3
    ensures (n + 2) / 3 * 4 == (n - 3 + 2) / 3 * 4 + 4
  {
  }

  /** The text has a character of the alphabet for each six bits, most significant first, and is filled up with `=`. */
  lemma {:induction false} EncodesSixBits(b: seq<byte>, i: nat)
    ensures |Encode(b)| == (|b| + 2) / 3 * 4
    ensures i < |Encode(b)| ==> Encode(b)[i] == if i < Carriers(b) then ALPHABET[SixBits(b, i)] else '='
    decreases |b|
  {
    if |b| > 3 {
      EncodesSixBits(b[3..], if i < 4 then 0 else i - 4);
      LengthOfText(|b|);
      var first, rest := EncodeFull(b[..3]), Encode(b[3..]);
      assert Encode(b) == first + rest && |first| == 4;
      if i < 4 {
        GroupIsCarried(b, i);
      } else if i < 4 + |rest| {
        LaterGroup(b, i, rest[i - 4]);
      }
    } else if b != [] {
      assert |b| == 3 ==> b[..3] == b;
      assert Encode(b) == EncodeLast(b) && (|b| + 2) / 3 * 4 == 4;
      if i < 4 { GroupIsCarried(b, i); }
    }
  }

  // ---- Base64url -----------------------------------------------------------------------------

  function Swap(s: string, from: char, to: char): (r: string)
    ensures |r| == |s| && forall i | 0 <= i < |s| :: r[i] == if s[i] == from then to else s[i]
  {
    seq(|s|, i requires 0 <= i < |s| => if s[i] == from then to else s[i])
  }

  function WithoutPadding(s: string): string {
    if s != [] && s[|s| - 1] == '=' then WithoutPadding(s[..|s| - 1]) else s
  }

  function PadEnd(s: string, size: nat): string {
    if |s| >= size then s else s + seq(size - |s|, i => '=')
  }

  predicate UrlChar(c: char) {
    'A' <= c <= 'Z' || 'a' <= c <= 'z' || '0' <= c <= '9' || c == '_' || c == '-'
  }

  function EncodeBase64Url(b: seq<byte>): string {
    WithoutPadding(Swap(Swap(Encode(b), '+', '-'), '/', '_'))
  }

  /** Not empty, only characters of the alphabet, and a length that base64 can have. */
  function DecodeBase64Url(s: string): Option<seq<byte>> {
    if s == [] || exists i :: 0 <= i < |s| && !UrlChar(s[i]) then None
    else Decode(PadEnd(Swap(Swap(s, '-', '+'), '_', '/'), (|s| + 3) / 4 * 4))
  }

  /** Encoded text: alphabet characters, then at most two signs of padding. */
  ghost predicate Padded(s: string, n: nat) {
    && n <= |s| <= n + 2
    && (forall i | 0 <= i < n :: Value(s[i]).Some?)
    && (forall i | n <= i < |s| :: s[i] == '=')
  }

  lemma LastIsPadded(b: seq<byte>)
    requires 1 <= |b| <= 3
    ensures Padded(EncodeLast(b), |b| + 1)
  {
    CharHasValue(b[0] / 4);
    if |b| == 3 {
      CharHasValue(b[0] % 4 * 16 + b[1] / 16);
      CharHasValue(b[1] % 16 * 4 + b[2] / 64);
      CharHasValue(b[2] % 64);
    } else if |b| == 2 {
      CharHasValue(b[0] % 4 * 16 + b[1] / 16);
      CharHasValue(b[1] % 16 * 4);
    } else {
      CharHasValue(b[0] % 4 * 16);
    }
  }

  lemma {:induction false} EncodedIsPadded(b: seq<byte>) returns (n: nat)
    ensures Padded(Encode(b), n) && (b != [] ==> n > 0)
    decreases |b|
  {
    if b == [] {
      n := 0;
    } else if |b| <= 3 {
      LastIsPadded(b);
      n := |b| + 1;
    } else {
      LastIsPadded(b[..3]);
      n := EncodedIsPadded(b[3..]);
      n := n + 4;
    }
  }

  lemma {:induction false} PaddingIsCut(s: string, n: nat)
    requires n <= |s| && (n > 0 ==> s[n - 1] != '=') && forall i | n <= i < |s| :: s[i] == '='
    ensures WithoutPadding(s) == s[..n]
    decreases |s|
  {
    if |s| > n {
      PaddingIsCut(s[..|s| - 1], n);
      assert s[..|s| - 1][..n] == s[..n];
    } else {
      assert s[..n] == s;
    }
  }

  /** What the url form is, and how decoding gets back to the padded text. */
  lemma UrlFormOf(s: string, n: nat)
    requires Padded(s, n) && |s| % 4 == 0 && n > 0
    ensures var u := WithoutPadding(Swap(Swap(s, '+', '-'), '/', '_'));
            && |u| == n && (forall i | 0 <= i < n :: UrlChar(u[i]))
            && PadEnd(Swap(Swap(u, '-', '+'), '_', '/'), (n + 3) / 4 * 4) == s
  {
    var swapped := Swap(Swap(s, '+', '-'), '/', '_');
    PaddingIsCut(swapped, n);
    var u := swapped[..n];
    var back := Swap(Swap(u, '-', '+'), '_', '/');
    assert forall i | 0 <= i < n :: back[i] == s[i];
    assert (n + 3) / 4 * 4 == |s|;
    assert PadEnd(back, |s|) == s;
  }

  /** The url form has a character of its alphabet for each six bits, most significant first, and nothing else. */
  lemma UrlEncodesSixBits(b: seq<byte>, i: nat)
    ensures |EncodeBase64Url(b)| == Carriers(b)
    ensures i < Carriers(b) ==> EncodeBase64Url(b)[i] == URL_ALPHABET[SixBits(b, i)]
  {
    var s := Encode(b);
    var swapped := Swap(Swap(s, '+', '-'), '/', '_');
    forall k: nat | k < |s|
      ensures swapped[k] == if k < Carriers(b) then URL_ALPHABET[SixBits(b, k)] else '='
      ensures k < Carriers(b) ==> swapped[k] != '='
    {
      EncodesSixBits(b, k);
      CharIsOfAlphabet(SixBits(b, k));
      CharHasValue(SixBits(b, k));
    }
    EncodesSixBits(b, 0);
    assert Carriers(b) <= |s|;
    PaddingIsCut(swapped, Carriers(b));
  }

  /** `decodeBase64Url` undoes `encodeBase64Url` on every byte string but the empty one. */
  lemma UrlRoundTripIff(b: seq<byte>)
    ensures DecodeBase64Url(EncodeBase64Url(b)) == Some(b) <==> b != []
  {
    if b != [] {
      var n := EncodedIsPadded(b);
      UrlFormOf(Encode(b), n);
      DecodeUndoesEncode(b);
    } else {
      assert Swap(Swap([], '+', '-'), '/', '_') == [];
    }
  }

  /** Text of `n` characters with values, filled up with `=`, decodes unless a single one is left over. */
  lemma {:induction false} GroupsDecodeIff(s: string, n: nat)
    requires 0 < n <= |s| < n + 4 && |s| % 4 == 0
    requires (forall i | 0 <= i < n :: Value(s[i]).Some?) && forall i | n <= i < |s| :: s[i] == '='
    ensures Decode(s).Some? <==> n % 4 != 1
    decreases |s|
  {
    if |s| > 4 {
      GroupsDecodeIff(s[4..], n - 4);
      assert DecodeFull(s[..4]).Some?;
    }
  }

  /** Exactly what is accepted: characters of the url alphabet, some, and not one more than whole groups of four. */
  lemma UrlDecodesIff(s: string)
    ensures DecodeBase64Url(s).Some? <==> s != "" && (forall i | 0 <= i < |s| :: UrlChar(s[i])) && |s| % 4 != 1
  {
    if s != "" && forall i | 0 <= i < |s| :: UrlChar(s[i]) {
      var back := Swap(Swap(s, '-', '+'), '_', '/');
      var padded := PadEnd(back, (|s| + 3) / 4 * 4);
      forall i | 0 <= i < |s| ensures Value(padded[i]).Some? { assert padded[i] == back[i] && UrlChar(s[i]); }
      GroupsDecodeIff(padded, |s|);
    }
  }
}
