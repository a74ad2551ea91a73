/** Addresses and passcodes of the private network (src/service/net/code.rs). */
module Code {
  import opened Wrappers
  import opened BigEndian
  import opened Text

  type Ipv4 = o: Bytes | |o| == 4 witness [0, 0, 0, 0]
  type Ipv6 = o: Bytes | |o| == 16 witness [0, 0, 0, 0, 0, 0, 0, 0, 0, 0, 0, 0, 0, 0, 0, 0]

  datatype IpAddr = V4(v4: Ipv4) | V6(v6: Ipv6)

  datatype SocketAddr = SocketAddr(ip: IpAddr, port: u16)

  /** A to Z, a to z, 0 to 9. */
  const PASSCODE_ALPHABET: string := Range('A', 26) + Range('a', 26) + Range('0', 10)
  function Range(first: char, count: nat): string
    requires first as int + count < 0x80
  {
    seq(count, i requires 0 <= i < count => (first as int + i) as char)
  }

  const PASSCODE_LEN: nat := 16
  const PREFIX: u16 := 0xfd00
  const RESERVED: u64 := 256
  const PROXY_ADDRESS: Ipv6 := [0xfd, 0, 0, 0, 0, 0, 0, 0, 0, 0, 0, 0, 0, 0, 0, 1]

  predicate IsNetworkAddress(address: Ipv6) {
    GetU16(address) == PREFIX
  }

  /** The client address carrying the 64 random bits `low`. */
  function ClientAddress(low: u64): Ipv6 {
    PutU16(PREFIX) + [0, 0, 0, 0, 0, 0] + PutU64(low)
  }

  /** The private-network addresses a client can be given. */
  ghost predicate IsClientAddress(address: Ipv6) {
    exists low: u64 :: RESERVED <= low && address == ClientAddress(low)
  }

  /** The addresses in fd00::/16 are those that begin with these two bytes. */
  lemma NetworkAddressesBegin(address: Ipv6)
    ensures IsNetworkAddress(address) <==> address[0] == 0xfd && address[1] == 0
  {
  }

  /** An address carries 64 bits exactly if it is fd00 and six zero bytes, and
      then those bits, the most significant first. */
  lemma ClientAddressIs(low: u64, address: Ipv6)
    ensures address == ClientAddress(low)
       <==> address[..8] == [0xfd, 0, 0, 0, 0, 0, 0, 0] && Number(address[8..]) == low
  {
    assert PutU16(PREFIX) == [0xfd, 0];
    assert ClientAddress(low)[..8] == [0xfd, 0, 0, 0, 0, 0, 0, 0] && ClientAddress(low)[8..] == PutU64(low);
    assert address == address[..8] + address[8..];
    PutU64Is(low, address[8..]);
  }

  lemma ClientAddressInjective(m: u64, n: u64)
    requires ClientAddress(m) == ClientAddress(n)
    ensures m == n
  {
    ClientAddressIs(m, ClientAddress(m));
    ClientAddressIs(n, ClientAddress(n));
  }

  /** The addresses for clients are exactly those on the private network whose
      next six bytes are zero and whose last eight are 256 or more; the proxy's
      own, fd00::1, is none of them. */
  lemma ClientAddressRange(address: Ipv6)
    ensures IsClientAddress(address)
       <==> address[..8] == [0xfd, 0, 0, 0, 0, 0, 0, 0] && Number(address[8..]) >= 256
    ensures IsClientAddress(address) ==> IsNetworkAddress(address)
    ensures IsNetworkAddress(PROXY_ADDRESS) && !IsClientAddress(PROXY_ADDRESS)
    ensures PROXY_ADDRESS == [0xfd, 0, 0, 0, 0, 0, 0, 0, 0, 0, 0, 0, 0, 0, 0, 1]
  {
    EightBytes(address[8..]);
    FourBytes(address[8..][..4]);
    FourBytes(address[8..][4..]);
    ClientAddressIs(Number(address[8..]), address);
    forall low: u64 | address == ClientAddress(low) ensures Number(address[8..]) == low {
      ClientAddressIs(low, address);
    }
    assert address[0] == address[..8][0] && address[1] == address[..8][1];
    ProxyIsReserved();
  }

  lemma ProxyIsReserved()
    ensures !IsClientAddress(PROXY_ADDRESS)
  {
    var one: Bytes := [0, 0, 0, 0, 0, 0, 0, 1];
    assert PutU64(1) == one;
    assert PROXY_ADDRESS == ClientAddress(1) by {
      assert PutU16(PREFIX) == [0xfd, 0];
    }
    forall low: u64 | RESERVED <= low ensures ClientAddress(low) != PROXY_ADDRESS {
      if ClientAddress(low) == PROXY_ADDRESS {
        ClientAddressInjective(low, 1);
      }
    }
  }

  predicate IsPasscode(code: string) {
    |code| == PASSCODE_LEN && forall i | 0 <= i < |code| :: code[i] in PASSCODE_ALPHABET
  }

  type Passcode = code: string | IsPasscode(code) witness (assert PASSCODE_ALPHABET[0] == 'A'; "AAAAAAAAAAAAAAAA")

  /** The draws of one passcode: an index into the alphabet for each character. */
  type CodeDraw = d: seq<nat> | |d| == PASSCODE_LEN && forall i | 0 <= i < |d| :: d[i] < |PASSCODE_ALPHABET|
    witness (assert |PASSCODE_ALPHABET| == 62; seq(PASSCODE_LEN, _ => 0))

  function NewPasscode(draw: CodeDraw): Passcode {
    seq(PASSCODE_LEN, i requires 0 <= i < PASSCODE_LEN => PASSCODE_ALPHABET[draw[i]])
  }

  function ParsePasscode(text: string): Option<Passcode> {
    if |text| != PASSCODE_LEN then None
    else if exists i | 0 <= i < |text| :: text[i] !in PASSCODE_ALPHABET then None
    else Some(text)
  }

  function ShowPasscode(p: Passcode): string {
    p
  }

  /** The character for each index: first A to Z, then a to z, then 0 to 9. */
  lemma AlphabetIs(i: nat)
    ensures |PASSCODE_ALPHABET| == 62
    ensures i < 62 ==>
      PASSCODE_ALPHABET[i] as int
      == if i < 26 then 'A' as int + i else if i < 52 then 'a' as int + (i - 26) else '0' as int + (i - 52)
  {
  }

  lemma AlphabetIsPlain()
    ensures forall c | c in PASSCODE_ALPHABET :: c !in WHITE_SPACE && c < 0x80 as char
  {
  }

  /** Every draw gives the character it stands for. */
  lemma NewPasscodeIs(draw: CodeDraw, i: nat)
    requires i < 16
    ensures |NewPasscode(draw)| == 16
    ensures var d := draw[i];
      NewPasscode(draw)[i] as int
      == if d < 26 then 'A' as int + d else if d < 52 then 'a' as int + (d - 26) else '0' as int + (d - 52)
  {
    AlphabetIs(draw[i]);
  }

  /** Every printed passcode is one word of 16 ASCII letters and digits that
      parses back to the passcode, and parsing accepts nothing else. */
  lemma PasscodeRoundTrip(p: Passcode, text: string)
    ensures ShowPasscode(p) == p && |p| == 16 && AsciiText(p) && Without(p, WHITE_SPACE)
    ensures forall i | 0 <= i < 16 :: 'A' <= p[i] <= 'Z' || 'a' <= p[i] <= 'z' || '0' <= p[i] <= '9'
    ensures ParsePasscode(text) == Some(p) <==> text == p
  {
    AlphabetIsPlain();
    forall i | 0 <= i < 16 ensures 'A' <= p[i] <= 'Z' || 'a' <= p[i] <= 'z' || '0' <= p[i] <= '9' {
      assert p[i] in PASSCODE_ALPHABET;
    }
  }

  /** The texts that parse as a passcode are the 16 letters and digits long. */
  lemma PasscodesAre(text: string)
    ensures ParsePasscode(text).Some? <==>
      |text| == 16 &&
      forall i | 0 <= i < 16 :: 'A' <= text[i] <= 'Z' || 'a' <= text[i] <= 'z' || '0' <= text[i] <= '9'
  {
    forall c: char
      ensures c in PASSCODE_ALPHABET <==> 'A' <= c <= 'Z' || 'a' <= c <= 'z' || '0' <= c <= '9'
    {
      InAlphabet(c);
    }
  }

  lemma InAlphabet(c: char)
    ensures c in PASSCODE_ALPHABET <==> 'A' <= c <= 'Z' || 'a' <= c <= 'z' || '0' <= c <= '9'
  {
    if 'A' <= c <= 'Z' {
      assert PASSCODE_ALPHABET[c as int - 'A' as int] == c;
    } else if 'a' <= c <= 'z' {
      assert PASSCODE_ALPHABET[26 + c as int - 'a' as int] == c;
    } else if '0' <= c <= '9' {
      assert PASSCODE_ALPHABET[52 + c as int - '0' as int] == c;
    }
  }

  /** The addresses that `random_address` makes of a run of 64-bit draws, one
      for each draw that is not reserved. */
  function Addresses(words: seq<u64>): (addresses: seq<Ipv6>)
    ensures forall i | 0 <= i < |addresses| :: IsClientAddress(addresses[i])
  {
    if words == [] then []
    else if words[0] < RESERVED then Addresses(words[1..])
    else [ClientAddress(words[0])] + Addresses(words[1..])
  }

  /** Number `n` is the first of the draws that is not reserved. */
  ghost predicate FirstAllowed(words: seq<u64>, n: nat) {
    n < |words| && words[n] >= 256 && forall i | 0 <= i < n :: words[i] < 256
  }

  /** The first address carries the first draw that is 256 or more, and the
      others come from the draws behind it; there is none without such a draw. */
  lemma {:induction false} AddressesCarryDraws(words: seq<u64>, n: nat)
    ensures Addresses(words) == [] <==> forall i | 0 <= i < |words| :: words[i] < 256
    ensures FirstAllowed(words, n) ==>
      && Addresses(words) != []
      && Addresses(words)[0][..8] == [0xfd, 0, 0, 0, 0, 0, 0, 0]
      && Number(Addresses(words)[0][8..]) == words[n]
      && Addresses(words)[1..] == Addresses(words[n + 1..])
  {
    if words != [] {
      if words[0] >= 256 {
        ClientAddressIs(words[0], ClientAddress(words[0]));
      } else {
        AddressesCarryDraws(words[1..], if n == 0 then 0 else n - 1);
        assert forall i | 0 <= i < |words[1..]| :: words[1..][i] == words[i + 1];
        assert n > 0 && n < |words| ==> words[1..][n..] == words[n + 1..];
      }
    }
  }

  function Passcodes(draws: seq<CodeDraw>): (passcodes: seq<Passcode>)
    ensures |passcodes| == |draws|
  {
    if draws == [] then [] else [NewPasscode(draws[0])] + Passcodes(draws[1..])
  }

  /** The random numbers still to be drawn. An exhausted tape stands for a
      retry loop that has not finished yet. */
  class Rng {
    var words: seq<u64>
    var codes: seq<CodeDraw>

    constructor (words: seq<u64>, codes: seq<CodeDraw>)
      ensures this.words == words && this.codes == codes
    {
      this.words, this.codes := words, codes;
    }

    method RandomAddress() returns (address: Option<Ipv6>)
      modifies this`words
      ensures var addresses := Addresses(old(words));
        if addresses == [] then address == None && words == []
        else address == Some(addresses[0]) && Addresses(words) == addresses[1..]
    {
      while words != []
        invariant Addresses(words) == Addresses(old(words))
        decreases |words|
      {
        var low := words[0];
        words := words[1..];
        if low < RESERVED {
          continue;
        }
        var octets := seq(16, _ => 0);
        octets := PutU16(PREFIX) + octets[2..];
        octets := octets[..8] + PutU64(low);
        assert octets == ClientAddress(low);
        return Some(octets);
      }
      return None;
    }

    method RandomPasscode() returns (passcode: Option<Passcode>)
      modifies this`codes
      ensures if old(codes) == [] then passcode == None && codes == []
              else passcode == Some(NewPasscode(old(codes)[0])) && codes == old(codes)[1..]
      ensures passcode.Some? ==> Passcodes(old(codes))[0] == passcode.value
    {
      if codes == [] {
        return None;
      }
      var draw := codes[0];
      codes := codes[1..];
      var code: string := [];
      for i := 0 to PASSCODE_LEN
        invariant |code| == i
        invariant forall j | 0 <= j < i :: code[j] == PASSCODE_ALPHABET[draw[j]]
      {
        code := code + [PASSCODE_ALPHABET[draw[i]]];
      }
      assert code == NewPasscode(draw);
      return Some(code);
    }
  }
}
