/**
 The parser undoes the encoders, and reads nothing outside its packet.
 */
module StunRoundTrip {
  import opened Bytes
  import opened Wrappers
  import opened StunModel

  lemma ReadsWhatWasWritten(before: seq<byte>, n: nat, after: seq<byte>)
    requires n < 0x10000
    ensures Read16(before + Write16(n) + after, |before|) == n
  {
  }

  /** Where an attribute of a packet was found. */
  ghost predicate LiesAt(packet: seq<byte>, a: Attribute, offset: nat) {
    && offset + 4 + |a.value| <= |packet|
    && a.kind == Read16(packet, offset) && |a.value| == Read16(packet, offset + 2)
    && a.value == packet[offset + 4..offset + 4 + |a.value|]
  }

  /** The attributes stand one behind the other, padded to four bytes, from `offset` to `end`. */
  ghost predicate Stand(s: seq<byte>, offset: nat, end: nat, list: seq<Attribute>)
    decreases |list|
  {
    if list == [] then offset == end <= |s|
    else
      && offset + 4 + Align4(|list[0].value|) <= end <= |s|
      && LiesAt(s, list[0], offset)
      && Stand(s, offset + 4 + Align4(|list[0].value|), end, list[1..])
  }

  /** One encoded attribute, wherever it stands. */
  lemma EncodedLies(s: seq<byte>, offset: nat, a: Attribute)
    requires Encodable(a) && offset + |EncodeAttribute(a)| <= |s|
    requires s[offset..offset + |EncodeAttribute(a)|] == EncodeAttribute(a)
    ensures LiesAt(s, a, offset)
  {
    var e := EncodeAttribute(a);
    assert forall i | 0 <= i < |e| :: e[i] == s[offset + i];
    assert e[0] == a.kind / 0x100 && e[1] == a.kind % 0x100 && e[2] == |a.value| / 0x100 && e[3] == |a.value| % 0x100;
    assert a.value == e[4..4 + |a.value|];
  }

  lemma Pieces(s: seq<byte>, offset: nat, first: seq<byte>, rest: seq<byte>)
    requires offset + |first| + |rest| <= |s| && s[offset..offset + |first| + |rest|] == first + rest
    ensures s[offset..offset + |first|] == first && s[offset + |first|..offset + |first| + |rest|] == rest
  {
    assert s[offset..offset + |first|] == (first + rest)[..|first|];
    assert s[offset + |first|..offset + |first| + |rest|] == (first + rest)[|first|..];
  }

  /** These bytes stand at this offset of the packet. */
  ghost predicate Holds(s: seq<byte>, offset: nat, part: seq<byte>) {
    offset + |part| <= |s| && s[offset..offset + |part|] == part
  }

  lemma FirstLies(s: seq<byte>, offset: nat, a: Attribute, rest: seq<byte>)
    requires Encodable(a) && Holds(s, offset, EncodeAttribute(a) + rest)
    ensures LiesAt(s, a, offset) && Holds(s, offset + 4 + Align4(|a.value|), rest)
  {
    Pieces(s, offset, EncodeAttribute(a), rest);
    EncodedLies(s, offset, a);
  }

  lemma StandInFront(s: seq<byte>, offset: nat, list: seq<Attribute>, next: nat, end: nat)
    requires list != [] && AllEncodable(list) && Holds(s, offset, EncodeAttributes(list))
    requires next == offset + 4 + Align4(|list[0].value|) && end == offset + |EncodeAttributes(list)|
    ensures Holds(s, next, EncodeAttributes(list[1..])) && end == next + |EncodeAttributes(list[1..])|
    ensures Stand(s, next, end, list[1..]) ==> Stand(s, offset, end, list)
  {
    FirstLies(s, offset, list[0], EncodeAttributes(list[1..]));
  }

  lemma {:induction false} EncodedStand(s: seq<byte>, offset: nat, list: seq<Attribute>)
    requires AllEncodable(list) && Holds(s, offset, EncodeAttributes(list))
    ensures Stand(s, offset, offset + |EncodeAttributes(list)|, list)
    decreases |list|
  {
    if list != [] {
      var next := offset + 4 + Align4(|list[0].value|);
      StandInFront(s, offset, list, next, offset + |EncodeAttributes(list)|);
      EncodedStand(s, next, list[1..]);
    }
  }

  lemma {:induction false} StandingAreParsed(s: seq<byte>, offset: nat, end: nat, list: seq<Attribute>)
    requires Stand(s, offset, end, list)
    ensures end <= |s| && ParseAttributes(s, offset, end) == Some(list)
    decreases |list|
  {
    if list != [] {
      StandingAreParsed(s, offset + 4 + Align4(|list[0].value|), end, list[1..]);
      assert list == [list[0]] + list[1..];
    }
  }

  lemma {:induction false} EncodingAppends(list: seq<Attribute>, last: Attribute)
    requires AllEncodable(list) && Encodable(last)
    ensures AllEncodable(list + [last]) && EncodeAttributes(list + [last]) == EncodeAttributes(list) + EncodeAttribute(last)
    decreases |list|
  {
    var all := list + [last];
    if list == [] {
      assert all == [last] && all[1..] == [];
      assert EncodeAttributes(all) == EncodeAttribute(last) + EncodeAttributes([]);
    } else {
      EncodingAppends(list[1..], last);
      assert all[0] == list[0] && all[1..] == list[1..] + [last];
      Associates(EncodeAttribute(list[0]), EncodeAttributes(list[1..]), EncodeAttribute(last));
    }
  }

  lemma Associates(a: seq<byte>, b: seq<byte>, c: seq<byte>)
    ensures (a + b) + c == a + (b + c)
  {
  }

  /** What the parser sees of a header. */
  lemma HeaderIsRead(s: seq<byte>, kind: nat, length: nat, transactionId: seq<byte>)
    requires kind < 0x10000 && length < 0x10000 && |s| >= 20 && s[..20] == Header(kind, length, transactionId)
    ensures Read16(s, 0) == kind && Read16(s, 2) == length
    ensures s[4..8] == MAGIC_COOKIE && s[8..20] == TransactionField(transactionId)
  {
    var h := Header(kind, length, transactionId);
    var front := Write16(kind) + Write16(length) + MAGIC_COOKIE;
    assert h == front + TransactionField(transactionId) && |front| == 8;
    assert forall i | 0 <= i < 20 :: s[i] == h[i];
    assert h[0] == front[0] && h[1] == front[1] && h[2] == front[2] && h[3] == front[3];
    assert s[4..8] == front[4..8] && s[8..20] == h[8..];
  }

  /** What the parser makes of a packet, field by field. */
  lemma ParseShape(s: seq<byte>, kind: nat, length: nat, id: seq<byte>, list: seq<Attribute>)
    requires 20 + length <= |s| && Read16(s, 0) == kind && Read16(s, 2) == length && kind < 0x10000
    requires s[4..8] == MAGIC_COOKIE && s[8..20] == id
    requires ParseAttributes(s, 20, 20 + length) == Some(list)
    ensures Parse(s) == if kind < 0x4000 then Some(StunMessage(kind, id, list)) else None
  {
  }

  /** A packet that starts with a whole message. */
  lemma MessageIsRead(s: seq<byte>, kind: nat, transactionId: seq<byte>, list: seq<Attribute>, body: seq<byte>)
    requires AllEncodable(list) && body == EncodeAttributes(list) && kind < 0x10000 && |body| < 0x10000
    requires 20 + |body| <= |s| && s[..20] == Header(kind, |body|, transactionId) && s[20..20 + |body|] == body
    ensures Parse(s) == if kind < 0x4000 then Some(StunMessage(kind, TransactionField(transactionId), list)) else None
  {
    HeaderIsRead(s, kind, |body|, transactionId);
    BodyIsRead(s, 20, list, body);
    ParseShape(s, kind, |body|, TransactionField(transactionId), list);
  }

  lemma BodyIsRead(s: seq<byte>, at: nat, list: seq<Attribute>, body: seq<byte>)
    requires AllEncodable(list) && body == EncodeAttributes(list) && at + |body| <= |s| && s[at..at + |body|] == body
    ensures ParseAttributes(s, at, at + |body|) == Some(list)
  {
    EncodedStand(s, at, list);
    StandingAreParsed(s, at, at + |body|, list);
  }

  lemma FieldIsIdIff(id: seq<byte>)
    ensures TransactionField(id) == id <==> |id| == 12
  {
  }

  /** Building and parsing give the message back exactly for 14-bit types and 12-byte ids. */
  lemma BuildParseRoundTripIff(kind: nat, transactionId: seq<byte>, attributes: seq<Attribute>)
    requires Build(kind, transactionId, attributes).Some?
    ensures Parse(Build(kind, transactionId, attributes).value) == Some(StunMessage(kind, transactionId, attributes))
            <==> kind < 0x4000 && |transactionId| == 12
  {
    MessageIsRead(Build(kind, transactionId, attributes).value, kind, transactionId, attributes, EncodeAttributes(attributes));
    FieldIsIdIff(transactionId);
  }

  /** An authenticated message parses to its attributes and the integrity of everything before it. */
  lemma AuthenticatedRoundTripIff(mac: Mac, kind: nat, transactionId: seq<byte>, attributes: seq<Attribute>)
    requires forall covered :: |mac(covered)| == INTEGRITY_BYTES
    requires BuildAuthenticated(mac, kind, transactionId, attributes).Some?
    ensures var packet := BuildAuthenticated(mac, kind, transactionId, attributes).value;
            && |packet| >= 24
            && (Parse(packet) == Some(StunMessage(kind, transactionId, attributes + [IntegrityOf(mac, packet[..|packet| - 24])]))
                <==> kind < 0x4000 && |transactionId| == 12)
  {
    var packet := BuildAuthenticated(mac, kind, transactionId, attributes).value;
    var body := EncodeAttributes(attributes);
    var header := Header(kind, |body| + 24, transactionId);
    var integrity := IntegrityOf(mac, header + body);
    AuthenticatedLayout(packet, header, body, EncodeAttribute(integrity));
    EncodingAppends(attributes, integrity);
    MessageIsRead(packet, kind, transactionId, attributes + [integrity], body + EncodeAttribute(integrity));
    FieldIsIdIff(transactionId);
  }

  lemma AuthenticatedLayout(packet: seq<byte>, header: seq<byte>, body: seq<byte>, integrity: seq<byte>)
    requires packet == header + body + integrity && |header| == 20 && |integrity| == 24
    ensures packet[..|packet| - 24] == header + body
    ensures packet[..20] == header && packet[20..20 + |body + integrity|] == body + integrity
  {
  }

  /** Every parsed attribute is a piece of the packet, on a four-byte boundary behind the header. */
  lemma {:induction false} ParsedLieInPacket(packet: seq<byte>, offset: nat, end: nat, i: nat)
    requires end <= |packet| && offset % 4 == 0
    requires ParseAttributes(packet, offset, end).Some? && i < |ParseAttributes(packet, offset, end).value|
    ensures exists at: nat :: offset <= at && at % 4 == 0 && at + 4 <= end
                              && LiesAt(packet, ParseAttributes(packet, offset, end).value[i], at)
    decreases end - offset
  {
    var length := Read16(packet, offset + 2);
    var list := ParseAttributes(packet, offset, end).value;
    if i == 0 {
      assert LiesAt(packet, list[0], offset);
    } else {
      var next := offset + 4 + Align4(length);
      ParsedLieInPacket(packet, next, end, i - 1);
      assert list[i] == ParseAttributes(packet, next, end).value[i - 1];
    }
  }

  // ---- Addresses -----------------------------------------------------------------------------

  lemma {:induction false} XorUndoes(a: nat, b: nat)
    ensures Xor(Xor(a, b), b) == a
    decreases a + b
  {
    if a != 0 || b != 0 {
      XorUndoes(a / 2, b / 2);
      assert Xor(a, b) / 2 == Xor(a / 2, b / 2);
    }
  }

  lemma Xor16Undoes(a: nat, b: nat)
    requires a < 0x10000 && b < 0x10000
    ensures Xor16(Xor16(a, b), b) == a
  {
    XorUndoes(a, b);
  }

  lemma Xor8Undoes(a: byte, b: byte)
    ensures Xor8(Xor8(a, b), b) == a
  {
    XorUndoes(a, b);
  }

  /** Decoding undoes encoding exactly for octets up to 255: larger ones lose their upper bits. */
  lemma XorAddressRoundTripIff(kind: nat, address: Address)
    requires |address.octets| == 4 && XorAddress(kind, address).Some?
    ensures DecodeXorAddress(XorAddress(kind, address).value.value).Some?
    ensures DecodeXorAddress(XorAddress(kind, address).value.value).value.port == address.port
    ensures forall i | 0 <= i < 4 ::
              DecodeXorAddress(XorAddress(kind, address).value.value).value.octets[i] == address.octets[i] % 0x100
    ensures DecodeXorAddress(XorAddress(kind, address).value.value) == Some(address)
            <==> forall i | 0 <= i < 4 :: address.octets[i] <= 255
  {
    AddressLayout(kind, address);
    Xor16Undoes(address.port, 0x2112);
    OctetsUndone(address.octets);
    OctetsFitIff(XorOctets(XorOctets(address.octets)), address.octets);
  }

  lemma AddressLayout(kind: nat, address: Address)
    requires |address.octets| == 4 && XorAddress(kind, address).Some?
    ensures DecodeXorAddress(XorAddress(kind, address).value.value)
         == Some(Address(XorOctets(XorOctets(address.octets)), Xor16(Xor16(address.port, 0x2112), 0x2112)))
  {
    var front: seq<byte>, port, coded := [0, 1], Write16(Xor16(address.port, 0x2112)), XorOctets(address.octets);
    var value := XorAddress(kind, address).value.value;
    assert value == front + port + coded;
    assert value[4..8] == coded;
    ReadsWhatWasWritten(front, Xor16(address.port, 0x2112), coded);
  }

  lemma OctetsUndone(octets: seq<nat>)
    requires |octets| == 4
    ensures forall i | 0 <= i < 4 :: XorOctets(XorOctets(octets))[i] == octets[i] % 0x100
  {
    OctetUndone(octets[0], 0x21);
    OctetUndone(octets[1], 0x12);
    OctetUndone(octets[2], 0xa4);
    OctetUndone(octets[3], 0x42);
  }

  lemma OctetUndone(octet: nat, key: byte)
    ensures Xor8(Xor8(octet % 0x100, key) % 0x100, key) == octet % 0x100
  {
    Xor8Undoes(octet % 0x100, key);
  }

  lemma OctetsFitIff(decoded: seq<nat>, octets: seq<nat>)
    requires |decoded| == |octets| && forall i | 0 <= i < |octets| :: decoded[i] == octets[i] % 0x100
    ensures decoded == octets <==> forall i | 0 <= i < |octets| :: octets[i] <= 255
  {
    if decoded == octets {
      forall i | 0 <= i < |octets| ensures octets[i] <= 255 { assert decoded[i] == octets[i] % 0x100; }
    }
  }

  // ---- Layout --------------------------------------------------------------------------------

  function BigEndian(high: nat, low: nat): nat { high * 0x100 + low }

  /** The bytes that the attributes take, padding included. */
  function Size(list: seq<Attribute>): nat {
    if list == [] then 0 else 4 + Align4(|list[0].value|) + Size(list[1..])
  }

  lemma {:induction false} EncodableIff(list: seq<Attribute>)
    ensures AllEncodable(list) <==> forall a | a in list :: a.kind < 0x10000 && |a.value| < 0x10000
    decreases |list|
  {
    if list != [] {
      EncodableIff(list[1..]);
      assert list == [list[0]] + list[1..];
    }
  }

  lemma {:induction false} EncodedHaveSize(list: seq<Attribute>)
    requires AllEncodable(list)
    ensures |EncodeAttributes(list)| == Size(list)
    decreases |list|
  {
    if list != [] { EncodedHaveSize(list[1..]); }
  }

  /** A message is built exactly if every field fits into its sixteen bits. */
  lemma BuildSucceedsIff(kind: nat, transactionId: seq<byte>, attributes: seq<Attribute>)
    ensures Build(kind, transactionId, attributes).Some?
            <==> && kind < 0x10000 && Size(attributes) < 0x10000
                 && forall a | a in attributes :: a.kind < 0x10000 && |a.value| < 0x10000
  {
    EncodableIff(attributes);
    if AllEncodable(attributes) { EncodedHaveSize(attributes); }
  }

  /** The header of section 5 of RFC 8489: type, length behind the header, magic cookie and id, each most significant byte first. */
  lemma HeaderLayout(kind: nat, transactionId: seq<byte>, attributes: seq<Attribute>)
    requires Build(kind, transactionId, attributes).Some?
    ensures var p := Build(kind, transactionId, attributes).value;
            && |p| == 20 + Size(attributes)
            && p[0] == kind / 0x100 && p[1] == kind % 0x100
            && BigEndian(p[2], p[3]) == |p| - 20
            && p[4] == 0x21 && p[5] == 0x12 && p[6] == 0xa4 && p[7] == 0x42
            && forall i | 0 <= i < 12 :: p[8 + i] == if i < |transactionId| then transactionId[i] else 0
  {
    EncodedHaveSize(attributes);
    var body := EncodeAttributes(attributes);
    HeaderBytes(kind, |body|, transactionId);
    var header := Header(kind, |body|, transactionId);
    assert forall i | 0 <= i < 20 :: (header + body)[i] == header[i];
  }

  lemma HeaderBytes(kind: nat, length: nat, transactionId: seq<byte>)
    requires kind < 0x10000 && length < 0x10000
    ensures var p := Header(kind, length, transactionId);
            && p[0] == kind / 0x100 && p[1] == kind % 0x100 && BigEndian(p[2], p[3]) == length
            && p[4] == 0x21 && p[5] == 0x12 && p[6] == 0xa4 && p[7] == 0x42
            && forall i | 0 <= i < 12 :: p[8 + i] == if i < |transactionId| then transactionId[i] else 0
  {
    var front := Write16(kind) + Write16(length) + MAGIC_COOKIE;
    var p := Header(kind, length, transactionId);
    assert p == front + TransactionField(transactionId) && |front| == 8;
    assert forall i | 0 <= i < 12 :: p[8 + i] == TransactionField(transactionId)[i];
  }

  /** The bytes of an attribute: type and length, most significant byte first, the value, and zeros up to four bytes. */
  ghost predicate BytesAt(p: seq<byte>, at: nat, a: Attribute) {
    && at % 4 == 0 && at + 4 + Align4(|a.value|) <= |p|
    && BigEndian(p[at], p[at + 1]) == a.kind && BigEndian(p[at + 2], p[at + 3]) == |a.value|
    && p[at + 4..at + 4 + |a.value|] == a.value
    && forall k | at + 4 + |a.value| <= k < at + 4 + Align4(|a.value|) :: p[k] == 0
  }

  /** The attributes of section 14 of RFC 8489: each stands behind the ones before it. */
  lemma AttributeLayout(kind: nat, transactionId: seq<byte>, attributes: seq<Attribute>, i: nat)
    requires Build(kind, transactionId, attributes).Some? && i < |attributes|
    ensures BytesAt(Build(kind, transactionId, attributes).value, 20 + Size(attributes[..i]), attributes[i])
  {
    var p, body := Build(kind, transactionId, attributes).value, EncodeAttributes(attributes);
    assert p[20..20 + |body|] == body;
    AttributesLieBehind(p, 20, attributes, i);
  }

  lemma {:induction false} AttributesLieBehind(p: seq<byte>, from: nat, list: seq<Attribute>, i: nat)
    requires AllEncodable(list) && Holds(p, from, EncodeAttributes(list)) && i < |list| && from % 4 == 0
    ensures BytesAt(p, from + Size(list[..i]), list[i])
    decreases i
  {
    FirstAndRestHeld(p, from, list);
    if i == 0 {
      FirstBytes(p, from, list[0]);
    } else {
      AttributesLieBehind(p, from + 4 + Align4(|list[0].value|), list[1..], i - 1);
      assert list[1..][..i - 1] == list[..i][1..] && list[..i][0] == list[0];
    }
  }

  lemma FirstAndRestHeld(p: seq<byte>, from: nat, list: seq<Attribute>)
    requires AllEncodable(list) && list != [] && Holds(p, from, EncodeAttributes(list))
    ensures Holds(p, from, EncodeAttribute(list[0])) && Holds(p, from + 4 + Align4(|list[0].value|), EncodeAttributes(list[1..]))
  {
    Pieces(p, from, EncodeAttribute(list[0]), EncodeAttributes(list[1..]));
  }

  lemma FirstBytes(p: seq<byte>, at: nat, a: Attribute)
    requires Encodable(a) && Holds(p, at, EncodeAttribute(a)) && at % 4 == 0
    ensures BytesAt(p, at, a)
  {
    var e := EncodeAttribute(a);
    assert forall i | 0 <= i < |e| :: p[at + i] == e[i];
    EncodedLies(p, at, a);
    var front := Write16(a.kind) + Write16(|a.value|) + a.value;
    assert e == front + Zeros(Align4(|a.value|) - |a.value|) && |front| == 4 + |a.value|;
    forall k | at + 4 + |a.value| <= k < at + 4 + Align4(|a.value|) ensures p[k] == 0 {
      assert p[at + (k - at)] == e[k - at] == Zeros(Align4(|a.value|) - |a.value|)[k - at - 4 - |a.value|];
    }
  }

  /** The attributes stand one behind the other; fewer than four bytes before `end` are ignored, and the last may end beyond it. */
  ghost predicate Listed(packet: seq<byte>, offset: nat, end: nat, list: seq<Attribute>)
    requires end <= |packet|
    decreases |list|
  {
    if offset + 4 > end then list == []
    else
      && list != [] && LiesAt(packet, list[0], offset)
      && Listed(packet, offset + 4 + Align4(|list[0].value|), end, list[1..])
  }

  lemma {:induction false} ListedAreParsed(packet: seq<byte>, offset: nat, end: nat, list: seq<Attribute>)
    requires end <= |packet| && Listed(packet, offset, end, list)
    ensures ParseAttributes(packet, offset, end) == Some(list)
    decreases |list|
  {
    if offset + 4 <= end {
      ListedAreParsed(packet, offset + 4 + Align4(|list[0].value|), end, list[1..]);
      assert list == [list[0]] + list[1..];
    }
  }

  lemma {:induction false} ParsedAreListed(packet: seq<byte>, offset: nat, end: nat)
    requires end <= |packet| && ParseAttributes(packet, offset, end).Some?
    ensures Listed(packet, offset, end, ParseAttributes(packet, offset, end).value)
    decreases end - offset
  {
    if offset + 4 <= end {
      var next := offset + 4 + Align4(Read16(packet, offset + 2));
      ParsedAreListed(packet, next, end);
      var rest := ParseAttributes(packet, next, end).value;
      OneListed(packet, offset, end, ParseAttributes(packet, offset, end).value, rest);
    }
  }

  lemma OneListed(packet: seq<byte>, offset: nat, end: nat, list: seq<Attribute>, rest: seq<Attribute>)
    requires end <= |packet| && offset + 4 <= end && list != [] && list[1..] == rest && LiesAt(packet, list[0], offset)
    requires Listed(packet, offset + 4 + Align4(|list[0].value|), end, rest)
    ensures Listed(packet, offset, end, list)
  {
  }

  lemma AttributesParsedIff(packet: seq<byte>, offset: nat, end: nat, list: seq<Attribute>)
    requires end <= |packet|
    ensures ParseAttributes(packet, offset, end) == Some(list) <==> Listed(packet, offset, end, list)
  {
    if ParseAttributes(packet, offset, end) == Some(list) { ParsedAreListed(packet, offset, end); }
    if Listed(packet, offset, end, list) { ListedAreParsed(packet, offset, end, list); }
  }

  /** Exactly what is recognised: a type of fourteen bits, the magic cookie, and attributes that fill the length. */
  lemma ParsedIff(packet: seq<byte>, m: StunMessage)
    ensures Parse(packet) == Some(m)
            <==> && |packet| >= 20 && packet[0] < 0x40
                 && packet[4] == 0x21 && packet[5] == 0x12 && packet[6] == 0xa4 && packet[7] == 0x42
                 && m.kind == BigEndian(packet[0], packet[1]) && m.transactionId == packet[8..20]
                 && var end := 20 + BigEndian(packet[2], packet[3]);
                    end <= |packet| && Listed(packet, 20, end, m.attributes)
  {
    if |packet| >= 20 {
      CookieIff(packet);
      var end := 20 + BigEndian(packet[2], packet[3]);
      if end <= |packet| { AttributesParsedIff(packet, 20, end, m.attributes); }
    }
  }

  lemma CookieIff(packet: seq<byte>)
    requires |packet| >= 20
    ensures packet[4..8] == MAGIC_COOKIE <==> packet[4] == 0x21 && packet[5] == 0x12 && packet[6] == 0xa4 && packet[7] == 0x42
    ensures Read16(packet, 0) / 0x4000 == 0 <==> packet[0] < 0x40
  {
    var cookie := packet[4..8];
    assert cookie[0] == packet[4] && cookie[1] == packet[5] && cookie[2] == packet[6] && cookie[3] == packet[7];
    assert cookie == [cookie[0], cookie[1], cookie[2], cookie[3]];
  }

  // ---- Bits ----------------------------------------------------------------------------------

  function Bit(n: nat, k: nat): bool {
    if k == 0 then n % 2 == 1 else Bit(n / 2, k - 1)
  }

  /** `Xor` is exclusive or, bit by bit. */
  lemma {:induction false} XorBits(a: nat, b: nat, k: nat)
    ensures Bit(Xor(a, b), k) <==> Bit(a, k) != Bit(b, k)
    decreases k
  {
    assert Xor(a, b) / 2 == Xor(a / 2, b / 2) && Xor(a, b) % 2 == if a % 2 == b % 2 then 0 else 1;
    if k > 0 { XorBits(a / 2, b / 2, k - 1); }
  }

  /** The value of section 14.2 of RFC 8489: family one, then port and address against the magic cookie. */
  lemma XorAddressLayout(kind: nat, address: Address)
    requires |address.octets| == 4
    ensures XorAddress(kind, address).Some? <==> address.port < 0x10000
    ensures XorAddress(kind, address).Some? ==>
              var a := XorAddress(kind, address).value;
              && a.kind == kind && |a.value| == 8 && a.value[0] == 0 && a.value[1] == 1
              && BigEndian(a.value[2], a.value[3]) == Xor(address.port, 0x2112)
              && a.value[4] == Xor(address.octets[0] % 0x100, 0x21) && a.value[5] == Xor(address.octets[1] % 0x100, 0x12)
              && a.value[6] == Xor(address.octets[2] % 0x100, 0xa4) && a.value[7] == Xor(address.octets[3] % 0x100, 0x42)
  {
  }
}
