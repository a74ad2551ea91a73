/** The frame that carries one datagram on a bound link (src/service/net/packet.rs). */
module Packet {
  import opened Wrappers
  import opened BigEndian
  import opened Code

  const MAGIC: u32 := 0x778B4CF6
  const HEADER_LEN: nat := 4 + 16 + 2 + 2

  datatype Frame = Frame(peerIp: Ipv6, peerPort: u16, data: Bytes)

  /** The documented shape, byte by byte: four bytes of magic, sixteen of
      address, two of port and two of payload length, big-endian, then the
      payload. */
  ghost predicate IsWireForm(raw: Bytes, f: Frame) {
    && |raw| == 24 + |f.data|
    && raw[0] == 0x77 && raw[1] == 0x8B && raw[2] == 0x4C && raw[3] == 0xF6
    && raw[4..20] == f.peerIp
    && raw[20] == f.peerPort / 0x100 && raw[21] == f.peerPort % 0x100
    && raw[22] as int * 0x100 + raw[23] as int == |f.data|
    && raw[24..] == f.data
  }

  function Encode(f: Frame): Option<Bytes> {
    if |f.data| >= 0x1_0000 then None
    else Some(PutU32(MAGIC) + f.peerIp + PutU16(f.peerPort) + PutU16(|f.data|) + f.data)
  }

  function Decode(raw: Bytes): Option<Frame> {
    if |raw| < HEADER_LEN then None
    else if GetU32(raw) != MAGIC then None
    else if |raw[24..]| != GetU16(raw[22..]) then None
    else Some(Frame(raw[4..20], GetU16(raw[20..]), raw[24..]))
  }

  /** `encode` produces the documented shape, and nothing else has it. */
  lemma EncodeIsWireForm(f: Frame, raw: Bytes)
    ensures Encode(f) == Some(raw) <==> IsWireForm(raw, f)
  {
    assert PutU32(MAGIC) == [0x77, 0x8B, 0x4C, 0xF6];
    if IsWireForm(raw, f) {
      assert |f.data| < 0x1_0000;
      assert raw == raw[..4] + raw[4..20] + raw[20..22] + raw[22..24] + raw[24..];
      assert raw[..4] == PutU32(MAGIC);
      assert raw[20..22] == PutU16(f.peerPort);
      assert raw[22..24] == PutU16(|f.data|);
    }
  }

  /** `decode` accepts exactly the documented shape and reads back its fields. */
  lemma DecodeIsWireForm(raw: Bytes, f: Frame)
    ensures Decode(raw) == Some(f) <==> IsWireForm(raw, f)
  {
    if |raw| >= 24 {
      assert GetU32(raw) == GetU16(raw) as int * 0x1_0000 + GetU16(raw[2..]) as int;
      assert GetU32(raw) == MAGIC <==> raw[0] == 0x77 && raw[1] == 0x8B && raw[2] == 0x4C && raw[3] == 0xF6;
    }
  }

  /** Encoding and decoding are inverse to each other, both ways round. */
  lemma CodecBijection(f: Frame, raw: Bytes)
    ensures Encode(f) == Some(raw) <==> Decode(raw) == Some(f)
    ensures Encode(f).Some? <==> |f.data| <= 65535
    ensures Encode(f).Some? ==> Decode(Encode(f).value) == Some(f) && |Encode(f).value| == 24 + |f.data|
    ensures Decode(raw).Some? ==> Encode(Decode(raw).value) == Some(raw)
  {
    EncodeIsWireForm(f, raw);
    DecodeIsWireForm(raw, f);
    if Encode(f).Some? {
      EncodeIsWireForm(f, Encode(f).value);
      DecodeIsWireForm(Encode(f).value, f);
    }
    if Decode(raw).Some? {
      DecodeIsWireForm(raw, Decode(raw).value);
      EncodeIsWireForm(Decode(raw).value, raw);
    }
  }

  /** What is decoded never carries more payload than can be encoded again. */
  lemma DecodedFits(raw: Bytes, peerIp: Ipv6, peerPort: u16)
    requires Decode(raw).Some?
    ensures Encode(Frame(peerIp, peerPort, Decode(raw).value.data)).Some?
  {
    CodecBijection(Decode(raw).value, raw);
  }

  method EncodeFrame(f: Frame) returns (r: Option<Bytes>)
    ensures r == Encode(f)
  {
    if |f.data| > 65535 {
      return None;
    }
    var buffer: Bytes := [];
    buffer := buffer + PutU32(MAGIC);
    buffer := buffer + f.peerIp;
    buffer := buffer + PutU16(f.peerPort);
    buffer := buffer + PutU16(|f.data|);
    buffer := buffer + f.data;
    assert buffer == Encode(f).value;
    return Some(buffer);
  }

  method DecodeFrame(raw: Bytes) returns (r: Option<Frame>)
    ensures r == Decode(raw)
  {
    var cursor := raw;
    if |cursor| < HEADER_LEN {
      return None;
    }
    var magic := GetU32(cursor);
    cursor := cursor[4..];
    if magic != MAGIC {
      return None;
    }
    var peerIp := cursor[..16];
    cursor := cursor[16..];
    assert cursor == raw[20..] && peerIp == raw[4..20];
    var peerPort := GetU16(cursor);
    cursor := cursor[2..];
    var len := GetU16(cursor);
    assert cursor == raw[22..];
    cursor := cursor[2..];
    assert cursor == raw[24..];
    if |cursor| != len {
      return None;
    }
    return Some(Frame(peerIp, peerPort, cursor));
  }

  /** The IPv4-mapped form of an IPv4 address (section 2.5.5.2 of RFC 4291). */
  function Mapped(v4: Ipv4): Ipv6 {
    [0, 0, 0, 0, 0, 0, 0, 0, 0, 0, 0xff, 0xff] + v4
  }

  function Unmapped(v6: Ipv6): Option<Ipv4> {
    if v6[..12] == [0, 0, 0, 0, 0, 0, 0, 0, 0, 0, 0xff, 0xff] then Some(v6[12..]) else None
  }

  function ToPeer(peer: SocketAddr, data: Bytes): Frame {
    var peerIp := match peer.ip case V4(v4) => Mapped(v4) case V6(v6) => v6;
    Frame(peerIp, peer.port, data)
  }

  function Peer(f: Frame): SocketAddr {
    match Unmapped(f.peerIp)
    case Some(v4) => SocketAddr(V4(v4), f.peerPort)
    case None => SocketAddr(V6(f.peerIp), f.peerPort)
  }

  ghost predicate IsMapped(ip: IpAddr) {
    ip.V6? && exists v4: Ipv4 :: ip.v6 == Mapped(v4)
  }

  lemma UnmappedInverts(v6: Ipv6, v4: Ipv4)
    ensures Unmapped(v6) == Some(v4) <==> v6 == Mapped(v4)
  {
    assert v6 == v6[..12] + v6[12..];
    if v6 == Mapped(v4) {
      assert v6[..12] == [0, 0, 0, 0, 0, 0, 0, 0, 0, 0, 0xff, 0xff];
      assert v6[12..] == v4;
    }
  }

  /** The address field of an IPv4 peer is ten zero bytes, two of 0xff and the
      address; that of an IPv6 peer is its address. */
  lemma ToPeerIs(peer: SocketAddr, data: Bytes)
    ensures var f := ToPeer(peer, data);
      && f.peerPort == peer.port && f.data == data
      && match peer.ip
         case V4(v4) => f.peerIp[..12] == [0, 0, 0, 0, 0, 0, 0, 0, 0, 0, 0xff, 0xff] && f.peerIp[12..] == v4
         case V6(v6) => f.peerIp == v6
  {
  }

  /** A peer survives the address field unless it is an IPv4-mapped IPv6
      address, which comes back as the IPv4 address it stands for. */
  lemma PeerRoundTrip(peer: SocketAddr, data: Bytes)
    ensures Peer(ToPeer(peer, data)) == peer <==> !IsMapped(peer.ip)
    ensures forall v4: Ipv4 :: peer.ip == V6(Mapped(v4)) ==> Peer(ToPeer(peer, data)) == SocketAddr(V4(v4), peer.port)
    ensures Peer(ToPeer(peer, data)).port == peer.port && !IsMapped(Peer(ToPeer(peer, data)).ip)
  {
    forall v6: Ipv6, v4: Ipv4 ensures Unmapped(v6) == Some(v4) <==> v6 == Mapped(v4) {
      UnmappedInverts(v6, v4);
    }
  }

  /** Unmapping neither makes nor hides a private-network address. */
  lemma UnmappingKeepsNetworkAddresses(f: Frame)
    ensures IsNetworkAddress(f.peerIp) <==> Peer(f).ip.V6? && IsNetworkAddress(Peer(f).ip.v6)
    ensures IsNetworkAddress(f.peerIp) ==> Peer(f) == SocketAddr(V6(f.peerIp), f.peerPort)
  {
    if Unmapped(f.peerIp).Some? {
      assert f.peerIp[0] == f.peerIp[..12][0];
    }
  }
}
