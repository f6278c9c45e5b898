/** The RPC wire format: an 8-byte header in network byte order and a payload whose length the
    header gives, or a fixed-size error when the length is the reserved value. */
module Wire {
  import opened Options

  type Byte = x: int | 0 <= x < 0x100
  type Word16 = x: int | 0 <= x < 0x1_0000
  type Word32 = x: int | 0 <= x < 0x1_0000_0000
  type Bytes = seq<Byte>

  const CHANNEL_RESPONSE: Word16 := 0
  const LENGTH_ERROR: Word32 := 0xffff_ffff
  const HEADER_SIZE := 8
  const ERROR_SIZE := 8

  /** error_t: a category and a code. */
  datatype Error = Error(category: Word32, code: Word32)

  const SYSTEM: Word32 := 0x4553_5953
  const TRANSPORT: Word32 := 0x5452_5350
  const APPLICATION: Word32 := 0x4541_5050
  const CONNECTION_CLOSED: Word32 := 0x4445_4144
  const UNKNOWN_CHANNEL: Word32 := 0x4543_484e
  const CANCELLED: Word32 := 0x4142_5254
  const NOPE: Word32 := 0x4550_4f4e

  datatype Body = Value(bytes: Bytes) | Failure(error: Error)

  datatype Frame = Frame(channel: Word16, id: Word16, body: Body)

  // --- Byte order

  function Big16(x: Word16): (r: Bytes)
    ensures |r| == 2
  {
    [x / 0x100, x % 0x100]
  }

  function Big32(x: Word32): (r: Bytes)
    ensures |r| == 4
  {
    Big16(x / 0x1_0000) + Big16(x % 0x1_0000)
  }

  function FromBig16(b: Bytes): Word16
    requires |b| == 2
  {
    b[0] as int * 0x100 + b[1]
  }

  function FromBig32(b: Bytes): Word32
    requires |b| == 4
  {
    FromBig16(b[..2]) as int * 0x1_0000 + FromBig16(b[2..])
  }

  /** How a little-endian machine lays out a word in memory. */
  function Little16(x: Word16): Bytes {
    [x % 0x100, x / 0x100]
  }

  function Little32(x: Word32): Bytes {
    Little16(x % 0x1_0000) + Little16(x / 0x1_0000)
  }

  /** htonx and ntohx: byte swaps. */
  function Swap16(x: Word16): Word16 {
    x % 0x100 * 0x100 + x / 0x100
  }

  function Swap32(x: Word32): Word32 {
    Swap16(x % 0x1_0000) as int * 0x1_0000 + Swap16(x / 0x1_0000)
  }

  /** The packed C++ header: swapped fields stored by a little-endian machine. */
  function CppHeader(channel: Word16, id: Word16, length: Word32): Bytes {
    Little16(Swap16(channel)) + Little16(Swap16(id)) + Little32(Swap32(length))
  }

  /** The Python header, struct format `!HHI`. */
  function PyHeader(channel: Word16, id: Word16, length: Word32): (r: Bytes)
    ensures |r| == HEADER_SIZE
  {
    Big16(channel) + Big16(id) + Big32(length)
  }

  lemma Digits16(x: Word16)
    ensures FromBig16(Big16(x)) == x
  {
  }

  lemma Digits(x: Word32)
    ensures FromBig32(Big32(x)) == x
  {
    assert Big32(x)[..2] == Big16(x / 0x1_0000) && Big32(x)[2..] == Big16(x % 0x1_0000);
  }

  lemma SwapBytes16(x: Word16)
    ensures Little16(Swap16(x)) == Big16(x)
    ensures Swap16(Swap16(x)) == x
  {
  }

  lemma SwapBytes(x: Word32)
    ensures Little32(Swap32(x)) == Big32(x)
    ensures Swap32(Swap32(x)) == x
  {
    var hi, lo := Swap16(x % 0x1_0000), Swap16(x / 0x1_0000);
    assert Swap32(x) / 0x1_0000 == hi && Swap32(x) % 0x1_0000 == lo;
    assert Little16(lo) == Big16(x / 0x1_0000) && Little16(hi) == Big16(x % 0x1_0000);
  }

  /** Both nodes put the same bytes on the wire for a header. */
  lemma HeadersAgree(channel: Word16, id: Word16, length: Word32)
    ensures CppHeader(channel, id, length) == PyHeader(channel, id, length)
  {
    hide Swap16, Swap32, Little16, Little32, Big16, Big32;
    SwapBytes16(channel);
    SwapBytes16(id);
    SwapBytes(length);
  }

  // --- Frames

  /** _sendBuffer and _sendException. The length field truncates to 32 bits. */
  function Encode(f: Frame): Bytes {
    CppHeader(f.channel, f.id, LengthField(f))
    + if f.body.Value? then f.body.bytes else EncodeError(f.body.error)
  }

  function LengthField(f: Frame): Word32 {
    if f.body.Value? then |f.body.bytes| % 0x1_0000_0000 else LENGTH_ERROR
  }

  function EncodeError(e: Error): Bytes {
    Little32(Swap32(e.category)) + Little32(Swap32(e.code))
  }

  function DecodeError(b: Bytes): Error
    requires |b| == ERROR_SIZE
  {
    Error(FromBig32(b[..4]), FromBig32(b[4..]))
  }

  function HeaderLength(h: Bytes): Word32
    requires |h| == HEADER_SIZE
  {
    FromBig32(h[4..])
  }

  /** How many bytes follow the header. */
  function PayloadSize(h: Bytes): nat
    requires |h| == HEADER_SIZE
  {
    if HeaderLength(h) == LENGTH_ERROR then ERROR_SIZE else HeaderLength(h)
  }

  function FrameOf(h: Bytes, payload: Bytes): Frame
    requires |h| == HEADER_SIZE && |payload| == PayloadSize(h)
  {
    Frame(FromBig16(h[..2]), FromBig16(h[2..4]),
          if HeaderLength(h) == LENGTH_ERROR then Failure(DecodeError(payload)) else Value(payload))
  }

  /** One turn of the receive loop: a frame and the bytes after it, if the stream holds one. */
  function Parse(s: Bytes): Option<(Frame, Bytes)> {
    if |s| < HEADER_SIZE then None
    else
      var h, rest := s[..HEADER_SIZE], s[HEADER_SIZE..];
      if |rest| < PayloadSize(h) then None
      else Some((FrameOf(h, rest[..PayloadSize(h)]), rest[PayloadSize(h)..]))
  }

  function ParseAll(s: Bytes): seq<Frame>
    decreases |s|
  {
    match Parse(s)
    case None => []
    case Some((f, rest)) => [f] + ParseAll(rest)
  }

  function EncodeAll(fs: seq<Frame>): Bytes {
    if fs == [] then [] else Encode(fs[0]) + EncodeAll(fs[1..])
  }

  lemma HeaderFields(channel: Word16, id: Word16, length: Word32)
    ensures var h := PyHeader(channel, id, length);
            FromBig16(h[..2]) == channel && FromBig16(h[2..4]) == id && HeaderLength(h) == length
  {
    hide Big16, Big32, FromBig32;
    var h := PyHeader(channel, id, length);
    assert h[..2] == Big16(channel) && h[2..4] == Big16(id) && h[4..] == Big32(length);
    Digits16(channel);
    Digits16(id);
    Digits(length);
  }

  lemma ErrorRoundTrip(e: Error)
    ensures |EncodeError(e)| == ERROR_SIZE && DecodeError(EncodeError(e)) == e
  {
    hide Swap16, Swap32, Little16, Little32, Big16, Big32, FromBig16, FromBig32;
    SwapBytes(e.category);
    SwapBytes(e.code);
    Digits(e.category);
    Digits(e.code);
    var b := EncodeError(e);
    assert b[..4] == Big32(e.category) && b[4..] == Big32(e.code);
  }

  predicate Sendable(f: Frame) {
    f.body.Value? ==> |f.body.bytes| < LENGTH_ERROR
  }

  lemma FrameRoundTrip(f: Frame, rest: Bytes)
    requires Sendable(f)
    ensures Parse(Encode(f) + rest) == Some((f, rest))
  {
    hide PyHeader, CppHeader, FromBig16, FromBig32, EncodeError, DecodeError;
    var length := if f.body.Value? then |f.body.bytes| else LENGTH_ERROR;
    var payload := if f.body.Value? then f.body.bytes else EncodeError(f.body.error);
    HeadersAgree(f.channel, f.id, length);
    HeaderFields(f.channel, f.id, length);
    var h := PyHeader(f.channel, f.id, length);
    if f.body.Failure? {
      ErrorRoundTrip(f.body.error);
    }
    var s := Encode(f) + rest;
    assert s == h + (payload + rest);
    assert s[..HEADER_SIZE] == h && s[HEADER_SIZE..] == payload + rest;
    assert (payload + rest)[..|payload|] == payload && (payload + rest)[|payload|..] == rest;
  }

  /** A payload too long for the length field never comes back. */
  lemma LongPayloadLost(f: Frame, rest: Bytes)
    requires !Sendable(f)
    ensures Parse(Encode(f) + rest) != Some((f, rest))
  {
    hide PyHeader, CppHeader, FromBig16, FromBig32;
    var p := f.body.bytes;
    var length := |p| % 0x1_0000_0000;
    HeadersAgree(f.channel, f.id, length);
    HeaderFields(f.channel, f.id, length);
    var s := Encode(f) + rest;
    assert s == PyHeader(f.channel, f.id, length) + (p + rest);
    assert s[..HEADER_SIZE] == PyHeader(f.channel, f.id, length);
  }

  /** A frame survives the wire exactly if it is sendable. */
  lemma FrameSurvivesIff(f: Frame, rest: Bytes)
    ensures Parse(Encode(f) + rest) == Some((f, rest)) <==> Sendable(f)
  {
    if Sendable(f) {
      FrameRoundTrip(f, rest);
    } else {
      LongPayloadLost(f, rest);
    }
  }

  /** The receive loop gives back exactly the frames whose bytes were sent. */
  lemma {:induction false} StreamRoundTrip(fs: seq<Frame>)
    requires forall f :: f in fs ==> Sendable(f)
    ensures ParseAll(EncodeAll(fs)) == fs
  {
    if fs != [] {
      FrameRoundTrip(fs[0], EncodeAll(fs[1..]));
      StreamRoundTrip(fs[1..]);
    }
  }

  /** The value of bytes in network order, the most significant first. */
  function Number(b: Bytes): nat {
    if b == [] then 0 else 0x100 * Number(b[..|b| - 1]) + b[|b| - 1]
  }

  lemma Numbers(b: Bytes)
    ensures |b| == 2 ==> Number(b) == 0x100 * b[0] as int + b[1]
    ensures |b| == 4 ==> Number(b) == 0x100_0000 * b[0] as int + 0x1_0000 * b[1] as int + 0x100 * b[2] as int + b[3]
  {
    if |b| == 4 {
      assert b[..3][..2] == b[..2] && b[..2][..1] == b[..1] && b[..1][..0] == [];
      assert Number(b[..1]) == b[0] && Number(b[..2]) == 0x100 * b[0] as int + b[1];
    } else if |b| == 2 {
      assert b[..1][..0] == [] && Number(b[..1]) == b[0];
    }
  }

  lemma BigIsNumber(x: Word32)
    ensures Number(Big32(x)) == x
    ensures x < 0x1_0000 ==> Number(Big16(x)) == x
  {
    Numbers(Big32(x));
    if x < 0x1_0000 {
      Numbers(Big16(x));
    }
  }

  /** What is on the wire, byte by byte: channel, id and length in network order, then the payload; for an
      error the reserved length, then category and code in network order. */
  lemma FrameLayout(f: Frame)
    requires Sendable(f)
    ensures var b := Encode(f);
            && |b| == HEADER_SIZE + (if f.body.Value? then |f.body.bytes| else ERROR_SIZE)
            && Number(b[..2]) == f.channel && Number(b[2..4]) == f.id
            && Number(b[4..8]) == (if f.body.Value? then |f.body.bytes| else 0xffff_ffff)
            && (if f.body.Value? then b[8..] == f.body.bytes
                else Number(b[8..12]) == f.body.error.category && Number(b[12..]) == f.body.error.code)
  {
    hide CppHeader, Swap16, Swap32, Little16, Little32, Number;
    var b, length := Encode(f), if f.body.Value? then |f.body.bytes| else LENGTH_ERROR;
    HeadersAgree(f.channel, f.id, length);
    hide Big16, Big32;
    assert b[..2] == Big16(f.channel) && b[2..4] == Big16(f.id) && b[4..8] == Big32(length);
    BigIsNumber(f.channel);
    BigIsNumber(f.id);
    BigIsNumber(length);
    if f.body.Failure? {
      var e := f.body.error;
      SwapBytes(e.category);
      SwapBytes(e.code);
      assert b[8..12] == Big32(e.category) && b[12..] == Big32(e.code);
      BigIsNumber(e.category);
      BigIsNumber(e.code);
    }
  }

  /** The word that four characters spell, as a C multi-character constant or a Python `!I`. */
  function Spell(s: string): nat {
    if s == "" then 0 else 0x100 * Spell(s[..|s| - 1]) + s[|s| - 1] as int
  }

  lemma CodesSpell()
    ensures SYSTEM == Spell("ESYS") && TRANSPORT == Spell("TRSP") && APPLICATION == Spell("EAPP")
    ensures CONNECTION_CLOSED == Spell("DEAD") && UNKNOWN_CHANNEL == Spell("ECHN") && CANCELLED == Spell("ABRT")
  {
    SpellFour('E', 'S', 'Y', 'S');
    SpellFour('T', 'R', 'S', 'P');
    SpellFour('E', 'A', 'P', 'P');
    SpellFour('D', 'E', 'A', 'D');
    SpellFour('E', 'C', 'H', 'N');
    SpellFour('A', 'B', 'R', 'T');
  }

  lemma SpellFour(a: char, b: char, c: char, d: char)
    ensures Spell([a, b, c, d]) == 0x100_0000 * a as int + 0x1_0000 * b as int + 0x100 * c as int + d as int
  {
    assert [a, b, c, d][..3] == [a, b, c] && [a, b, c][..2] == [a, b] && [a, b][..1] == [a] && [a][..0] == [];
    assert Spell([a]) == a as int && Spell([a, b]) == 0x100 * a as int + b as int;
  }
}
