/**
 * Bytes on the captioning wire: the `(byte)char` narrowing every packet
 * builder applies, the NUL-terminated packet they produce, and the decoding
 * by which a packet is turned back into text (`new String(bytes)`).
 */
module Wire {
  /** A Java byte, kept as its unsigned value 0..255. */
  newtype byte = b: int | 0 <= b < 256

  /** `(byte)c`: the low eight bits of the character. */
  function CharByte(c: char): byte
  {
    (c as int % 256) as byte
  }

  /** The character-by-character narrowing of a string. */
  function Encode(s: string): (r: seq<byte>)
    ensures |r| == |s|
    ensures forall i :: 0 <= i < |s| ==> r[i] == CharByte(s[i])
  {
    if |s| == 0 then [] else [CharByte(s[0])] + Encode(s[1..])
  }

  predicate IsAscii(s: string)
  {
    forall i :: 0 <= i < |s| ==> s[i] as int < 128
  }

  /** One byte as text: an ASCII byte is its own character, any other byte is U+FFFD. */
  function ByteChar(b: byte): char
  {
    if b < 128 then b as int as char else '\U{FFFD}'
  }

  /** Byte-by-byte decoding of a packet into text. */
  function Decode(bs: seq<byte>): (s: string)
    ensures |s| == |bs|
    ensures forall i :: 0 <= i < |bs| ==> s[i] == ByteChar(bs[i])
  {
    if |bs| == 0 then [] else [ByteChar(bs[0])] + Decode(bs[1..])
  }

  /** ASCII text survives the narrowing: decoding the bytes gives the text back. */
  lemma DecodeEncode(s: string)
    requires IsAscii(s)
    ensures Decode(Encode(s)) == s
  {
    var d := Decode(Encode(s));
    assert |d| == |s|;
    forall i | 0 <= i < |s| ensures d[i] == s[i] {
      assert Encode(s)[i] == CharByte(s[i]);
    }
  }

  /** The packet of a command string: its bytes followed by one 0. */
  function Packet(data: string): seq<byte>
  {
    Encode(data) + [0]
  }

  /** A character whose narrowing is the 0 byte (NUL, U+0100, ...). */
  predicate NarrowsToNul(c: char)
  {
    CharByte(c) == 0
  }

  /**
   * A packet is one byte longer than its command string and ends in 0; when no
   * character of the command narrows to 0, that trailing 0 is its only zero byte.
   */
  lemma PacketShape(data: string)
    ensures |Packet(data)| == |data| + 1
    ensures Packet(data)[|data|] == 0
    ensures (forall i :: 0 <= i < |data| ==> !NarrowsToNul(data[i])) <==>
      (forall i :: 0 <= i < |data| ==> Packet(data)[i] != 0)
  {
    var p := Packet(data);
    assert p[..|data|] == Encode(data);
    assert forall i :: 0 <= i < |data| ==> p[i] == CharByte(data[i]);
  }

  /** The text of an ASCII packet is its command string with the NUL terminator. */
  lemma PacketText(data: string)
    requires IsAscii(data)
    ensures Decode(Packet(data)) == data + "\0"
  {
    DecodeEncode(data);
    var d := Decode(Packet(data));
    forall i | 0 <= i < |data| + 1 ensures d[i] == (data + "\0")[i] {
      if i < |data| {
        assert Packet(data)[i] == Encode(data)[i];
      }
    }
  }

  /**
   * The copy loop shared by every `Build*` method: a new array one longer than
   * the string, each character narrowed into it in turn, then a 0.
   */
  method BuildPacket(data: string) returns (packet: array<byte>)
    ensures fresh(packet)
    ensures packet[..] == Packet(data)
  {
    packet := new byte[|data| + 1];
    var index := 0;
    var i := 0;
    while i < |data|
      invariant 0 <= i <= |data| && index == i
      invariant packet[..i] == Encode(data[..i])
    {
      packet[index] := CharByte(data[i]);
      index := index + 1;
      i := i + 1;
      EncodeSnoc(data, i);
    }
    packet[index] := 0;
    assert data[..|data|] == data;
  }

  lemma EncodeSnoc(s: string, i: nat)
    requires 0 < i <= |s|
    ensures Encode(s[..i]) == Encode(s[..i - 1]) + [CharByte(s[i - 1])]
  {
    var a := Encode(s[..i]);
    var b := Encode(s[..i - 1]) + [CharByte(s[i - 1])];
    assert |a| == |b|;
    forall k | 0 <= k < i ensures a[k] == b[k] {
      if k < i - 1 {
        assert s[..i][k] == s[..i - 1][k];
      }
    }
  }
}
