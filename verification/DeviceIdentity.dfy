/** Base64url as the browser's device identity computes it: through binary strings and byte buffers. */
module DeviceIdentity {
  import opened Bytes
  import opened Wrappers
  import opened Base64

  /** A binary string has one character per byte. */
  function Binary(b: seq<byte>): (r: string)
    ensures |r| == |b| && forall i | 0 <= i < |b| :: r[i] == b[i] as char
  {
    seq(|b|, i requires 0 <= i < |b| => b[i] as char)
  }

  predicate IsBinary(s: string) {
    forall i | 0 <= i < |s| :: s[i] as int < 0x100
  }

  function Codes(s: string): (r: seq<byte>)
    requires IsBinary(s)
    ensures |r| == |s| && forall i | 0 <= i < |s| :: r[i] == s[i] as int
  {
    seq(|s|, i requires 0 <= i < |s| => s[i] as nat)
  }

  function Btoa(binary: string): string
    requires IsBinary(binary)
  {
    Encode(Codes(binary))
  }

  function Atob(s: string): Option<string> {
    match Decode(s)
    case None => None
    case Some(b) => Some(Binary(b))
  }

  method EncodeBase64Url(bytes: array<byte>) returns (s: string)
    ensures s == Base64.EncodeBase64Url(bytes[..])
  {
    var binary := "";
    var i := 0;
    while i < bytes.Length
      invariant 0 <= i <= bytes.Length
      invariant binary == Binary(bytes[..i])
    {
      binary := binary + [bytes[i] as char];
      i := i + 1;
    }
    assert Codes(binary) == bytes[..];
    s := WithoutPadding(Swap(Swap(Btoa(binary), '+', '-'), '/', '_'));
  }

  /** A buffer filled with the codes of a binary string. */
  method Fill(binary: string) returns (bytes: array<byte>)
    requires IsBinary(binary)
    ensures fresh(bytes) && bytes[..] == Codes(binary)
  {
    bytes := new byte[|binary|](_ => 0);
    var index := 0;
    while index < |binary|
      invariant 0 <= index <= bytes.Length
      invariant forall k | 0 <= k < index :: bytes[k] == binary[k] as int
    {
      bytes[index] := binary[index] as nat;
      index := index + 1;
    }
  }

  /** The test against the alphabet: not empty, and nothing else in it. */
  method MatchesAlphabet(value: string) returns (ok: bool)
    ensures ok <==> value != [] && forall k | 0 <= k < |value| :: UrlChar(value[k])
  {
    var i := 0;
    while i < |value|
      invariant 0 <= i <= |value| && forall k | 0 <= k < i :: UrlChar(value[k])
    {
      if !UrlChar(value[i]) { return false; }
      i := i + 1;
    }
    return value != [];
  }

  /** `None` where the program throws. */
  method DecodeBase64Url(value: string) returns (r: Option<array<byte>>)
    ensures r.Some? ==> fresh(r.value)
    ensures (if r.None? then None else Some(r.value[..])) == Base64.DecodeBase64Url(value)
  {
    var ok := MatchesAlphabet(value);
    if !ok { return None; }
    var padded := PadEnd(Swap(Swap(value, '-', '+'), '_', '/'), (|value| + 3) / 4 * 4);
    var binary := Atob(padded);
    if binary.None? { return None; }
    var bytes := Fill(binary.value);
    BinaryCodes(Decode(padded).value);
    return Some(bytes);
  }

  lemma BinaryCodes(b: seq<byte>)
    ensures IsBinary(Binary(b)) && Codes(Binary(b)) == b
  {
  }
}
