/**
 The encoders and the parser of the mock TURN server, on buffers they write and read in place.
 */
module StunServer {
  import opened Bytes
  import opened Wrappers
  import Model = StunModel
  import opened StunModel

  /** `writeUInt16BE`. */
  method WriteUInt16(buffer: array<byte>, n: nat, at: nat)
    requires n < 0x10000 && at + 2 <= buffer.Length
    modifies buffer
    ensures buffer[..] == old(buffer[..at]) + Write16(n) + old(buffer[at + 2..])
  {
    buffer[at], buffer[at + 1] := n / 0x100, n % 0x100;
  }

  /** `source.copy(buffer, at)`. */
  method Copy(source: seq<byte>, buffer: array<byte>, at: nat)
    requires at + |source| <= buffer.Length
    modifies buffer
    ensures buffer[..] == old(buffer[..at]) + source + old(buffer[at + |source|..])
  {
    var i := 0;
    while i < |source|
      invariant 0 <= i <= |source|
      invariant buffer[..] == old(buffer[..at]) + source[..i] + old(buffer[at + i..])
    {
      buffer[at + i] := source[i];
      i := i + 1;
    }
    assert source[..i] == source;
  }

  method Alloc(size: nat) returns (buffer: array<byte>)
    ensures fresh(buffer) && buffer[..] == Zeros(size)
  {
    buffer := new byte[size](_ => 0);
    assert buffer[..] == Zeros(size);
  }

  lemma ZerosSplit(n: nat, k: nat)
    requires k <= n
    ensures Zeros(n)[k..] == Zeros(n - k)
  {
  }

  /** Two fields at the head of a fresh buffer. */
  method WriteHead(buffer: array<byte>, first: nat, second: nat)
    requires first < 0x10000 && second < 0x10000 && buffer.Length >= 4 && buffer[..] == Zeros(buffer.Length)
    modifies buffer
    ensures buffer[..] == Write16(first) + Write16(second) + Zeros(buffer.Length - 4)
  {
    ZerosSplit(buffer.Length, 2);
    WriteUInt16(buffer, first, 0);
    assert buffer[..] == Write16(first) + Zeros(buffer.Length - 2);
    ZerosSplit(buffer.Length - 2, 2);
    WriteUInt16(buffer, second, 2);
  }

  /** A copy into the zeros behind `front`. */
  method CopyBehind(source: seq<byte>, buffer: array<byte>, front: seq<byte>)
    requires |front| + |source| <= buffer.Length && buffer[..] == front + Zeros(buffer.Length - |front|)
    modifies buffer
    ensures buffer[..] == front + source + Zeros(buffer.Length - |front| - |source|)
  {
    ZerosSplit(buffer.Length - |front|, |source|);
    Copy(source, buffer, |front|);
  }

  method EncodeAttribute(a: Attribute) returns (result: array<byte>)
    requires Encodable(a)
    ensures fresh(result) && result[..] == Model.EncodeAttribute(a)
  {
    result := Alloc(4 + Align4(|a.value|));
    WriteHead(result, a.kind, |a.value|);
    CopyBehind(a.value, result, Write16(a.kind) + Write16(|a.value|));
  }

  method StunHeader(kind: nat, length: nat, transactionId: seq<byte>) returns (header: array<byte>)
    requires kind < 0x10000 && length < 0x10000
    ensures fresh(header) && header[..] == Header(kind, length, transactionId)
  {
    header := Alloc(20);
    WriteHead(header, kind, length);
    CopyBehind(MAGIC_COOKIE, header, Write16(kind) + Write16(length));
    var front := Write16(kind) + Write16(length) + MAGIC_COOKIE;
    var copied := if |transactionId| >= 12 then transactionId[..12] else transactionId;
    CopyBehind(copied, header, front);
    assert front + copied + Zeros(12 - |copied|) == front + TransactionField(transactionId);
  }

  /** `readUInt16BE`. */
  method ReadUInt16(packet: array<byte>, at: nat) returns (n: nat)
    requires at + 2 <= packet.Length
    ensures n == Read16(packet[..], at)
  {
    n := packet[at] as nat * 0x100 + packet[at + 1] as nat;
  }

  function Joined(found: seq<Attribute>, rest: Option<seq<Attribute>>): Option<seq<Attribute>> {
    if rest.None? then None else Some(found + rest.value)
  }

  lemma JoinedAtEnds(rest: Option<seq<Attribute>>)
    ensures Joined([], rest) == rest
  {
    if rest.Some? { assert [] + rest.value == rest.value; }
  }

  lemma Stuck(s: seq<byte>, offset: nat, end: nat)
    requires offset + 4 <= end <= |s| && offset + 4 + Read16(s, offset + 2) > |s|
    ensures ParseAttributes(s, offset, end).None?
  {
  }

  lemma OneMoreJoined(s: seq<byte>, offset: nat, end: nat, found: seq<Attribute>, a: Attribute)
    requires offset + 4 <= end <= |s| && offset + 4 + Read16(s, offset + 2) <= |s|
    requires a == Attribute(Read16(s, offset), s[offset + 4..offset + 4 + Read16(s, offset + 2)])
    ensures Joined(found, ParseAttributes(s, offset, end))
         == Joined(found + [a], ParseAttributes(s, offset + 4 + Align4(|a.value|), end))
  {
    var rest := ParseAttributes(s, offset + 4 + Align4(|a.value|), end);
    if rest.Some? { assert found + ([a] + rest.value) == found + [a] + rest.value; }
  }

  lemma NothingLeft(s: seq<byte>, offset: nat, end: nat, found: seq<Attribute>)
    requires end <= |s| && offset + 4 > end
    ensures Joined(found, ParseAttributes(s, offset, end)) == Some(found)
  {
    assert found + [] == found;
  }

  /** `parseStun`: every read is inside the packet, and each turn moves on by at least four bytes. */
  method ParseStun(packet: array<byte>) returns (message: Option<StunMessage>)
    ensures message == Parse(packet[..])
  {
    if packet.Length < 20 { return None; }
    var kind := ReadUInt16(packet, 0);
    if kind / 0x4000 != 0 || packet[4..8] != MAGIC_COOKIE { return None; }
    var length := ReadUInt16(packet, 2);
    if packet.Length < 20 + length { return None; }
    var attributes := ReadAttributes(packet, 20, 20 + length);
    if attributes.None? { return None; }
    return Some(StunMessage(kind, packet[8..20], attributes.value));
  }

  /** The attribute at `offset`, unless it reaches out of the packet. */
  method ReadAttribute(packet: array<byte>, offset: nat) returns (a: Option<Attribute>)
    requires offset + 4 <= packet.Length
    ensures var s, size := packet[..], Read16(packet[..], offset + 2);
            a == if offset + 4 + size > |s| then None else Some(Attribute(Read16(s, offset), s[offset + 4..offset + 4 + size]))
  {
    var kind := ReadUInt16(packet, offset);
    var size := ReadUInt16(packet, offset + 2);
    if offset + 4 + size > packet.Length { return None; }
    assert packet[..][offset + 4..offset + 4 + size] == packet[offset + 4..offset + 4 + size];
    return Some(Attribute(kind, packet[offset + 4..offset + 4 + size]));
  }

  method ReadAttributes(packet: array<byte>, start: nat, end: nat) returns (r: Option<seq<Attribute>>)
    requires start <= end <= packet.Length
    ensures r == ParseAttributes(packet[..], start, end)
  {
    ghost var s := packet[..];
    ghost var all := ParseAttributes(s, start, end);
    var attributes: seq<Attribute>, offset := [], start;
    JoinedAtEnds(all);
    while offset + 4 <= end
      invariant all == Joined(attributes, ParseAttributes(s, offset, end))
      decreases end - offset
    {
      var a := ReadAttribute(packet, offset);
      if a.None? {
        Stuck(s, offset, end);
        return None;
      }
      OneMoreJoined(s, offset, end, attributes, a.value);
      attributes := attributes + [a.value];
      offset := offset + 4 + Align4(|a.value.value|);
    }
    NothingLeft(s, offset, end, attributes);
    return Some(attributes);
  }

  /** `xorAddress`: the eight bytes are written one field after the other. */
  method XorAddress(kind: nat, address: Address) returns (a: Option<Attribute>)
    requires |address.octets| == 4
    ensures a == Model.XorAddress(kind, address)
  {
    if address.port >= 0x10000 { return None; }
    var data := Alloc(8);
    data[1] := 1;
    WriteUInt16(data, Xor16(address.port, 0x2112), 2);
    var index := 0;
    while index < 4
      invariant 0 <= index <= 4
      invariant data[0] == 0 && data[1] == 1 && data[2..4] == Write16(Xor16(address.port, 0x2112))
      invariant forall i | 0 <= i < index :: data[4 + i] == Xor8(address.octets[i] % 0x100, MAGIC_COOKIE[i])
    {
      data[4 + index] := Xor8(address.octets[index] % 0x100, MAGIC_COOKIE[index]);
      index := index + 1;
    }
    assert data[4..] == XorOctets(address.octets);
    assert data[..] == [data[0], data[1]] + data[2..4] + data[4..];
    return Some(Attribute(kind, data[..]));
  }
}
