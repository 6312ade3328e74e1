/**
 * The transport of terminal text: strings are encoded as UTF-8, the bytes as Base64, and back to bytes on
 * the other side.
 */
module Codec {
  import opened Prelude
  import opened Base64
  import opened Utf

  const CHUNK: nat := 0x8000

  /** Encodes what the user typed; the bytes are turned into a string chunk by chunk. */
  method EncodeTerminalInput(data: seq<CodeUnit>) returns (b64: string)
    ensures b64 == Btoa(Utf8(CodePoints(data)))
  {
    var bytes := Utf8(CodePoints(data));
    var bin: seq<Byte> := [];
    var i := 0;
    while i < |bytes|
      invariant i % CHUNK == 0
      invariant bin == bytes[..if i < |bytes| then i else |bytes|]
    {
      var end := if i + CHUNK < |bytes| then i + CHUNK else |bytes|;
      bin := bin + bytes[i..end];
      i := i + CHUNK;
    }
    assert bytes[..|bytes|] == bytes;
    b64 := Btoa(bin);
  }

  /** Decodes a chunk of output, byte by byte; `None` where atob throws. */
  method DecodeTerminalOutputBytes(dataB64: string) returns (out: Option<array<Byte>>)
    ensures out.None? <==> Atob(dataB64).None?
    ensures out.Some? ==> fresh(out.value) && Some(out.value[..]) == Atob(dataB64)
  {
    var decoded := Atob(dataB64);
    if decoded.None? { return None; }
    var bin := decoded.value;
    var bytes := new Byte[|bin|];
    for i := 0 to |bin|
      invariant bytes[..i] == bin[..i]
    {
      bytes[i] := bin[i];
    }
    assert bytes[..] == bytes[..|bin|] == bin[..|bin|] == bin;
    out := Some(bytes);
  }

  /** What one side encodes the other decodes to its UTF-8 bytes, for every string of any length. */
  method Transport(data: seq<CodeUnit>) returns (bytes: array<Byte>)
    ensures bytes[..] == Utf8(CodePoints(data))
  {
    var b64 := EncodeTerminalInput(data);
    Base64RoundTrip(Utf8(CodePoints(data)));
    var out := DecodeTerminalOutputBytes(b64);
    bytes := out.value;
  }

  /** The text a receiver reads off the transported bytes. */
  function Received(b64: string): Option<seq<CodeUnit>> {
    var bytes := Atob(b64);
    if bytes.None? then None
    else
      var cs := Utf8Decode(bytes.value);
      if cs.None? then None else Some(Utf16(cs.value))
  }

  /** Text always arrives as text, and arrives unchanged exactly when it has no lone surrogate. */
  lemma TextSurvivesIff(s: seq<CodeUnit>)
    ensures Received(Btoa(Utf8(CodePoints(s)))).Some?
    ensures Received(Btoa(Utf8(CodePoints(s)))) == Some(s) <==> WellFormed(s)
  {
    Base64RoundTrip(Utf8(CodePoints(s)));
    Utf8DecodeOfEncode(CodePoints(s));
    RebuiltIff(s);
  }
}
