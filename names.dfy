/** Command names: up to four ASCII characters packed into a 32-bit id, least
    significant byte first (the byte order of BitConverter on the little-endian
    hosts the library runs on). */
module Names {
  import opened Ints
  import opened Wrappers
  import opened FunctionWrapper

  /** Encoding.ASCII.GetBytes for one character: non-ASCII becomes '?'. */
  function AsciiByte(c: char): (b: uint8)
    ensures c as int < 0x80 ==> b == c as int
    ensures c as int >= 0x80 ==> b == '?' as int
  {
    if c as int < 0x80 then c as int else '?' as int
  }

  /** Encoding.ASCII.GetString for one byte: bytes above 0x7F become '?'. */
  function AsciiChar(b: uint8): (c: char)
    ensures b < 0x80 ==> c as int == b
    ensures b >= 0x80 ==> c == '?'
  {
    if b < 0x80 then b as char else '?'
  }

  function AsciiBytes(s: string): (bs: seq<uint8>)
    ensures |bs| == |s|
    ensures forall k :: 0 <= k < |s| ==> bs[k] == AsciiByte(s[k])
  {
    if |s| == 0 then [] else AsciiBytes(s[..|s| - 1]) + [AsciiByte(s[|s| - 1])]
  }

  function AsciiString(bs: seq<uint8>): (s: string)
    ensures |s| == |bs|
    ensures forall k :: 0 <= k < |bs| ==> s[k] == AsciiChar(bs[k])
  {
    if |bs| == 0 then "" else AsciiString(bs[..|bs| - 1]) + [AsciiChar(bs[|bs| - 1])]
  }

  predicate IsAscii(s: string) {
    forall k :: 0 <= k < |s| ==> s[k] as int < 0x80
  }

  /** For ASCII text, decoding the encoded bytes gives the text back. */
  lemma AsciiRoundTrip(s: string)
    requires IsAscii(s)
    ensures AsciiString(AsciiBytes(s)) == s
  {
    var t := AsciiString(AsciiBytes(s));
    assert forall k :: 0 <= k < |s| ==> t[k] == s[k];
  }

  /** TResponse.ResponseName: three characters when the top byte of the id is
      zero, four otherwise. */
  function ResponseName(id: uint32): (name: string)
    ensures |name| == (if id < 0x100_0000 then 3 else 4)
    ensures name == AsciiString(BytesLE(id)[..|name|])
  {
    var bs := BytesLE(id);
    if bs[3] == 0 then AsciiString(bs[..3]) else AsciiString(bs)
  }

  /** TCommand.CmdName: always all four bytes, so a three-character command
      name ends in a NUL character. */
  function CmdName(id: uint32): (name: string)
    ensures |name| == 4
    ensures id < 0x100_0000 ==> name == ResponseName(id) + ['\0']
    ensures id >= 0x100_0000 ==> name == ResponseName(id)
  {
    AsciiString(BytesLE(id))
  }

  /** The name constructor of TCommand: the ASCII bytes of the whole name,
      copied into a zeroed four-byte buffer and read back as a UInt32. A
      leading '$' is kept, since the name without it is never used. An empty
      name fails on reading its first character; a name of more than four
      characters does not fit the buffer. */
  function PackName(name: string): (r: Result<uint32, Fault>)
    ensures |name| == 0 <==> r == Err(IndexOutOfRange)
    ensures |name| > 4 <==> r == Err(Argument)
    ensures r.Ok? ==> BytesLE(r.value) == AsciiBytes(name) + seq(4 - |name|, _ => 0)
  {
    if |name| == 0 then Err(IndexOutOfRange)
    else if |name| > 4 then Err(Argument)
    else
      var bs := AsciiBytes(name) + seq(4 - |name|, _ => 0);
      BytesFromBytesLE(bs);
      Ok(FromBytesLE(bs))
  }

  /** A name that reads back under the response-name rule: three ASCII
      characters, or four whose last one is not NUL. */
  predicate IsCommandName(name: string) {
    IsAscii(name) && (|name| == 3 || (|name| == 4 && name[3] != '\0'))
  }

  /** Packing a command name and decoding the id gives the name back. */
  lemma PackNameRoundTrip(name: string)
    requires IsCommandName(name)
    ensures PackName(name).Ok?
    ensures ResponseName(PackName(name).value) == name
  {
    var id := PackName(name).value;
    var bs := BytesLE(id);
    assert bs[..|name|] == AsciiBytes(name);
    AsciiRoundTrip(name);
  }

  /** Packing a one- or two-character name leaves NUL bytes that the
      response-name rule keeps: "AB" comes back as "AB" and a NUL. */
  lemma ShortNameKeepsPadding()
    ensures PackName("AB") == Ok(0x4241)
    ensures ResponseName(0x4241) == "AB\0"
  {
    assert AsciiBytes("AB") == [0x41, 0x42];
    assert BytesLE(0x4241) == [0x41, 0x42, 0, 0];
  }

  /** The '$' prefix of a name is packed with the rest: "$SHZ" is not the
      scan-rate id that "SHZ" packs to. */
  lemma DollarPrefixIsPacked()
    ensures PackName("SHZ") == Ok(CmdIdScanRate)
    ensures PackName("$SHZ") == Ok(0x5A48_5324)
    ensures 0x5A48_5324 != CmdIdScanRate
  {
    assert AsciiBytes("SHZ") == [0x53, 0x48, 0x5A];
    assert AsciiBytes("$SHZ") == [0x24, 0x53, 0x48, 0x5A];
  }
}
