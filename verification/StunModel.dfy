/**
 STUN messages as bytes: what the mock TURN server's encoders write and what its parser reads,
 after sections 5, 14 and 14.2 of RFC 8489.
 */
module StunModel {
  import opened Bytes
  import opened Wrappers

  const MAGIC_COOKIE: seq<byte> := [0x21, 0x12, 0xa4, 0x42]
  const ATTR_MESSAGE_INTEGRITY: nat := 0x0008
  const INTEGRITY_BYTES: nat := 20

  datatype Attribute = Attribute(kind: nat, value: seq<byte>)

  datatype StunMessage = StunMessage(kind: nat, transactionId: seq<byte>, attributes: seq<Attribute>)

  function Align4(n: nat): nat { (n + 3) / 4 * 4 }

  function Write16(n: nat): (r: seq<byte>)
    requires n < 0x10000
    ensures |r| == 2
  {
    [n / 0x100, n % 0x100]
  }

  function Read16(s: seq<byte>, i: nat): nat
    requires i + 2 <= |s|
  {
    s[i] as nat * 0x100 + s[i + 1] as nat
  }

  function Zeros(n: nat): (r: seq<byte>)
    ensures |r| == n && forall i | 0 <= i < n :: r[i] == 0
  {
    seq(n, i => 0)
  }

  // ---- Encoding ------------------------------------------------------------------------------

  /** The writes of a 16-bit field throw on a larger number. */
  predicate Encodable(a: Attribute) {
    a.kind < 0x10000 && |a.value| < 0x10000
  }

  function EncodeAttribute(a: Attribute): (r: seq<byte>)
    requires Encodable(a)
    ensures |r| == 4 + Align4(|a.value|)
  {
    Write16(a.kind) + Write16(|a.value|) + a.value + Zeros(Align4(|a.value|) - |a.value|)
  }

  predicate AllEncodable(list: seq<Attribute>) {
    list == [] || (Encodable(list[0]) && AllEncodable(list[1..]))
  }

  function EncodeAttributes(list: seq<Attribute>): seq<byte>
    requires AllEncodable(list)
  {
    if list == [] then [] else EncodeAttribute(list[0]) + EncodeAttributes(list[1..])
  }

  /** Twelve bytes of the id: the rest is cut, what is missing stays zero. */
  function TransactionField(id: seq<byte>): (r: seq<byte>)
    ensures |r| == 12
  {
    if |id| >= 12 then id[..12] else id + Zeros(12 - |id|)
  }

  function Header(kind: nat, length: nat, transactionId: seq<byte>): (r: seq<byte>)
    requires kind < 0x10000 && length < 0x10000
    ensures |r| == 20
  {
    Write16(kind) + Write16(length) + MAGIC_COOKIE + TransactionField(transactionId)
  }

  /** `None` where a field does not fit and the program throws. */
  function Build(kind: nat, transactionId: seq<byte>, attributes: seq<Attribute>): Option<seq<byte>> {
    if !AllEncodable(attributes) then None
    else
      var body := EncodeAttributes(attributes);
      if kind >= 0x10000 || |body| >= 0x10000 then None else Some(Header(kind, |body|, transactionId) + body)
  }

  type Mac = seq<byte> -> seq<byte>

  function IntegrityOf(mac: Mac, covered: seq<byte>): Attribute {
    Attribute(ATTR_MESSAGE_INTEGRITY, mac(covered))
  }

  /** `mac` is HMAC-SHA1 under the key: 20 bytes. The header already counts the integrity attribute. */
  function BuildAuthenticated(mac: Mac, kind: nat, transactionId: seq<byte>, attributes: seq<Attribute>): Option<seq<byte>> {
    if !AllEncodable(attributes) then None
    else
      var body := EncodeAttributes(attributes);
      if kind >= 0x10000 || |body| + 24 >= 0x10000 then None
      else
        var covered := Header(kind, |body| + 24, transactionId) + body;
        if !Encodable(IntegrityOf(mac, covered)) then None else Some(covered + EncodeAttribute(IntegrityOf(mac, covered)))
  }

  // ---- Parsing -------------------------------------------------------------------------------

  /** The attributes between `offset` and `end`; fewer than four bytes at the end are ignored. */
  function ParseAttributes(packet: seq<byte>, offset: nat, end: nat): Option<seq<Attribute>>
    requires end <= |packet|
    decreases end - offset
  {
    if offset + 4 > end then Some([])
    else
      var length := Read16(packet, offset + 2);
      if offset + 4 + length > |packet| then None
      else
        match ParseAttributes(packet, offset + 4 + Align4(length), end)
        case None => None
        case Some(rest) => Some([Attribute(Read16(packet, offset), packet[offset + 4..offset + 4 + length])] + rest)
  }

  function Parse(packet: seq<byte>): Option<StunMessage> {
    if |packet| < 20 || Read16(packet, 0) / 0x4000 != 0 || packet[4..8] != MAGIC_COOKIE then None
    else
      var length := Read16(packet, 2);
      if |packet| < 20 + length then None
      else
        match ParseAttributes(packet, 20, 20 + length)
        case None => None
        case Some(attributes) => Some(StunMessage(Read16(packet, 0), packet[8..20], attributes))
  }

  // ---- Addresses -----------------------------------------------------------------------------

  function Power2(width: nat): (r: nat)
    ensures r > 0
  {
    if width == 0 then 1 else 2 * Power2(width - 1)
  }

  lemma Powers()
    ensures Power2(8) == 0x100 && Power2(16) == 0x10000
  {
    assert Power2(4) == 0x10;
    assert Power2(8) == 0x100;
    assert Power2(12) == 0x1000;
  }

  /** Bitwise exclusive or. */
  function Xor(a: nat, b: nat): nat
    decreases a + b
  {
    if a == 0 && b == 0 then 0 else Xor(a / 2, b / 2) * 2 + (if a % 2 == b % 2 then 0 else 1)
  }

  lemma {:induction false} XorStaysBelow(a: nat, b: nat, width: nat)
    requires a < Power2(width) && b < Power2(width)
    ensures Xor(a, b) < Power2(width)
    decreases width
  {
    if a != 0 || b != 0 { XorStaysBelow(a / 2, b / 2, width - 1); }
  }

  function Xor16(a: nat, b: nat): (r: nat)
    requires a < 0x10000 && b < 0x10000
    ensures r < 0x10000
  {
    Powers();
    XorStaysBelow(a, b, 16);
    Xor(a, b)
  }

  function Xor8(a: byte, b: byte): byte {
    Powers();
    XorStaysBelow(a, b, 8);
    Xor(a, b)
  }

  datatype Address = Address(octets: seq<nat>, port: nat)

  /** Four octets against the magic cookie. */
  function XorOctets(octets: seq<nat>): (r: seq<byte>)
    requires |octets| == 4
    ensures |r| == 4 && forall i | 0 <= i < 4 :: r[i] == Xor8(octets[i] % 0x100, MAGIC_COOKIE[i])
  {
    [Xor8(octets[0] % 0x100, 0x21), Xor8(octets[1] % 0x100, 0x12), Xor8(octets[2] % 0x100, 0xa4), Xor8(octets[3] % 0x100, 0x42)]
  }

  /** An octet past 255 loses its upper bits; a port past 65535 makes the program throw. */
  function XorAddress(kind: nat, address: Address): Option<Attribute>
    requires |address.octets| == 4
  {
    if address.port >= 0x10000 then None
    else Some(Attribute(kind, [0, 1] + Write16(Xor16(address.port, 0x2112)) + XorOctets(address.octets)))
  }

  function DecodeXorAddress(value: seq<byte>): Option<Address> {
    if |value| < 8 || value[1] != 1 then None
    else Some(Address(XorOctets(value[4..8]), Xor16(Read16(value, 2), 0x2112)))
  }
}
