/** WebSocket Media v2 framing (apps/realtime-gateway/src/media-v2.ts): encode and parse are
    inverse, and every frame has exactly one byte image. */
module MediaV2 {
  import opened Prelude

  type Byte = x: int | 0 <= x < 256

  const HEADER_BYTES := 56
  const MAX_PAYLOAD_BYTES := 1024 * 1024
  const VERSION := 2
  const MAGIC: seq<Byte> := [0x56, 0x4f, 0x58, 0x32]

  datatype Kind = Playback | Capture
  datatype Codec = PcmS16le | Opus | PcmF32le

  datatype Frame = Frame(
    kind: Kind, codec: Codec, flags: int, streamId: string, sequence: int, timestampSamples: int,
    durationSamples: int, sampleRate: int, channels: int, payload: seq<Byte>)

  datatype Error =
    | FieldOutOfRange | RateOrChannelsZero | UnsupportedFlags | TimestampOutOfRange | PayloadTooLarge
    | PayloadLengthWrong | NoAudio | BadStreamId
    | NotMediaV2 | TruncatedHeader | UnsupportedVersion | UnsupportedKind | UnsupportedCodec
    | UnsupportedHeaderSize | ReservedNotZero | LengthMismatch

  function KindId(kind: Kind): Byte {
    match kind case Playback => 1 case Capture => 2
  }

  function CodecId(codec: Codec): Byte {
    match codec case PcmS16le => 1 case Opus => 2 case PcmF32le => 3
  }

  function KindOf(id: Byte): (kind: Option<Kind>)
    ensures forall k :: kind == Some(k) <==> KindId(k) == id
  {
    if id == 1 then Some(Playback) else if id == 2 then Some(Capture) else None
  }

  function CodecOf(id: Byte): (codec: Option<Codec>)
    ensures forall c :: codec == Some(c) <==> CodecId(c) == id
  {
    if id == 1 then Some(PcmS16le) else if id == 2 then Some(Opus) else if id == 3 then Some(PcmF32le) else None
  }

  // ----- little-endian fields -----

  function Pow256(width: nat): nat {
    if width == 0 then 1 else 256 * Pow256(width - 1)
  }

  function ToLittleEndian(v: nat, width: nat): (bytes: seq<Byte>)
    ensures |bytes| == width
  {
    if width == 0 then [] else [v % 256] + ToLittleEndian(v / 256, width - 1)
  }

  function FromLittleEndian(bytes: seq<Byte>): nat {
    if bytes == [] then 0 else bytes[0] + 256 * FromLittleEndian(bytes[1..])
  }

  lemma {:induction false} DecodeEncoded(v: nat, width: nat)
    requires v < Pow256(width)
    ensures FromLittleEndian(ToLittleEndian(v, width)) == v
  {
    if width > 0 {
      DecodeEncoded(v / 256, width - 1);
      assert ToLittleEndian(v, width)[1..] == ToLittleEndian(v / 256, width - 1);
    }
  }

  lemma TimesAtLeast(d: nat, k: int)
    requires k >= 1
    ensures d * k >= d
  {
    assert d * (k - 1) >= 0;
    assert d * k == d * (k - 1) + d;
  }

  lemma Distributes(d: int, a: int, b: int)
    ensures d * (a - b) == d * a - d * b
  {
  }

  /** The quotient is the only one that leaves a remainder less than the divisor. */
  lemma QuotientIs(v: nat, d: nat, q: nat, r: nat)
    requires d > 0 && v == d * q + r && r < d
    ensures v / d == q
  {
    var p, s := v / d, v % d;
    assert v == d * p + s && s < d;
    Distributes(d, q, p);
    if p < q { TimesAtLeast(d, q - p); }
    if q < p {
      Distributes(d, p, q);
      TimesAtLeast(d, p - q);
    }
  }

  lemma DivideTwice(v: nat, b: nat)
    requires b > 0
    ensures v / (256 * b) == v / 256 / b
  {
    var q := v / 256;
    var p, s := q / b, q % b;
    assert q == b * p + s && s < b;
    assert (256 * b) * p == 256 * (b * p);
    QuotientIs(v, 256 * b, p, 256 * s + v % 256);
  }

  /** The bytes of a field go from the least significant to the most significant. */
  lemma {:induction false} ByteOfField(v: nat, width: nat, i: nat)
    requires i < width
    ensures Pow256(i) > 0 && ToLittleEndian(v, width)[i] == v / Pow256(i) % 256
    decreases i
  {
    if i > 0 {
      ByteOfField(v / 256, width - 1, i - 1);
      DivideTwice(v, Pow256(i - 1));
    }
  }

  lemma {:induction false} EncodeDecoded(bytes: seq<Byte>)
    ensures FromLittleEndian(bytes) < Pow256(|bytes|)
    ensures ToLittleEndian(FromLittleEndian(bytes), |bytes|) == bytes
  {
    if bytes != [] {
      var high := FromLittleEndian(bytes[1..]);
      EncodeDecoded(bytes[1..]);
      assert (bytes[0] + 256 * high) / 256 == high && (bytes[0] + 256 * high) % 256 == bytes[0];
      assert [bytes[0]] + bytes[1..] == bytes;
    }
  }

  lemma Widths()
    ensures Pow256(2) == 0x1_0000 && Pow256(4) == 0x1_0000_0000 && Pow256(8) == 0x1_0000_0000_0000_0000
  {
    assert Pow256(0) == 1;
    assert Pow256(1) == 256 && Pow256(2) == 0x1_0000;
    assert Pow256(3) == 0x100_0000 && Pow256(4) == 0x1_0000_0000;
    assert Pow256(5) == 0x100_0000_0000 && Pow256(6) == 0x1_0000_0000_0000;
    assert Pow256(7) == 0x100_0000_0000_0000;
  }

  // ----- UUID text (section 4 of RFC 9562) -----

  const DIGITS := "0123456789abcdef"

  predicate IsHyphenPosition(p: int) {
    p == 8 || p == 13 || p == 18 || p == 23
  }

  predicate IsHexDigit(c: char) {
    '0' <= c <= '9' || 'a' <= c <= 'f' || 'A' <= c <= 'F'
  }

  function LowerHex(c: char): char {
    if 'A' <= c <= 'F' then c - 'A' + 'a' else c
  }

  function HexValue(c: char): (v: nat)
    requires IsHexDigit(c)
    ensures v < 16 && DIGITS[v] == LowerHex(c)
  {
    if '0' <= c <= '9' then (c - '0') as nat else (LowerHex(c) - 'a') as nat + 10
  }

  lemma DigitValue(v: nat)
    requires v < 16
    ensures IsHexDigit(DIGITS[v]) && HexValue(DIGITS[v]) == v && LowerHex(DIGITS[v]) == DIGITS[v]
  {
  }

  predicate IsUuid(value: string) {
    |value| == 36 && forall p :: 0 <= p < 36 ==> if IsHyphenPosition(p) then value[p] == '-' else IsHexDigit(value[p])
  }

  function Lower(value: string): string {
    seq(|value|, p requires 0 <= p < |value| => LowerHex(value[p]))
  }

  /** Where hex digit `n` of 32 stands in the hyphenated text. */
  function TextPosition(n: nat): nat {
    n + if n < 8 then 0 else if n < 12 then 1 else if n < 16 then 2 else if n < 20 then 3 else 4
  }

  /** Which hex digit stands at text position `p`. */
  function DigitIndex(p: nat): int {
    p - if p <= 8 then 0 else if p <= 13 then 1 else if p <= 18 then 2 else if p <= 23 then 3 else 4
  }

  function UuidBytes(value: string): (bytes: seq<Byte>)
    requires IsUuid(value)
    ensures |bytes| == 16
  {
    seq(16, i requires 0 <= i < 16 =>
      16 * HexValue(value[TextPosition(2 * i)]) + HexValue(value[TextPosition(2 * i + 1)]))
  }

  function UuidDigit(bytes: seq<Byte>, n: nat): char
    requires |bytes| == 16 && n < 32
  {
    DIGITS[if n % 2 == 0 then bytes[n / 2] / 16 else bytes[n / 2] % 16]
  }

  function UuidText(bytes: seq<Byte>): (value: string)
    requires |bytes| == 16
  {
    seq(36, p requires 0 <= p < 36 => if IsHyphenPosition(p) then '-' else UuidDigit(bytes, DigitIndex(p)))
  }

  lemma SplitByte(high: nat, low: nat)
    requires high < 16 && low < 16
    ensures (16 * high + low) / 16 == high && (16 * high + low) % 16 == low
  {
  }

  lemma DigitsOfByte(value: string, i: nat)
    requires IsUuid(value) && i < 16
    ensures UuidBytes(value)[i] / 16 == HexValue(value[TextPosition(2 * i)])
    ensures UuidBytes(value)[i] % 16 == HexValue(value[TextPosition(2 * i + 1)])
  {
    SplitByte(HexValue(value[TextPosition(2 * i)]), HexValue(value[TextPosition(2 * i + 1)]));
  }

  lemma DigitOfBytes(value: string, n: nat)
    requires IsUuid(value) && n < 32
    ensures UuidDigit(UuidBytes(value), n) == LowerHex(value[TextPosition(n)])
  {
    var i := n / 2;
    DigitsOfByte(value, i);
    if n % 2 == 0 {
      assert n == 2 * i;
    } else {
      assert n == 2 * i + 1;
    }
  }

  lemma UuidTextOfBytes(value: string)
    requires IsUuid(value)
    ensures UuidText(UuidBytes(value)) == Lower(value)
  {
    forall p | 0 <= p < 36 ensures UuidText(UuidBytes(value))[p] == Lower(value)[p] {
      if !IsHyphenPosition(p) {
        DigitOfBytes(value, DigitIndex(p));
        assert TextPosition(DigitIndex(p)) == p;
      }
    }
  }

  lemma DigitOfText(bytes: seq<Byte>, n: nat)
    requires |bytes| == 16 && n < 32
    ensures UuidText(bytes)[TextPosition(n)] == UuidDigit(bytes, n)
    ensures IsHexDigit(UuidDigit(bytes, n)) && LowerHex(UuidDigit(bytes, n)) == UuidDigit(bytes, n)
    ensures HexValue(UuidDigit(bytes, n)) == if n % 2 == 0 then bytes[n / 2] / 16 else bytes[n / 2] % 16
  {
    assert DigitIndex(TextPosition(n)) == n && !IsHyphenPosition(TextPosition(n));
    DigitValue(if n % 2 == 0 then bytes[n / 2] / 16 else bytes[n / 2] % 16);
  }

  lemma TextIsUuid(bytes: seq<Byte>)
    requires |bytes| == 16
    ensures IsUuid(UuidText(bytes)) && Lower(UuidText(bytes)) == UuidText(bytes)
  {
    var text := UuidText(bytes);
    forall p | 0 <= p < 36
      ensures if IsHyphenPosition(p) then text[p] == '-' else IsHexDigit(text[p])
      ensures LowerHex(text[p]) == text[p]
    {
      if !IsHyphenPosition(p) {
        DigitOfText(bytes, DigitIndex(p));
      }
    }
  }

  lemma UuidBytesOfText(bytes: seq<Byte>)
    requires |bytes| == 16
    ensures IsUuid(UuidText(bytes)) && Lower(UuidText(bytes)) == UuidText(bytes)
    ensures UuidBytes(UuidText(bytes)) == bytes
  {
    TextIsUuid(bytes);
    forall i | 0 <= i < 16 ensures UuidBytes(UuidText(bytes))[i] == bytes[i] {
      DigitOfText(bytes, 2 * i);
      DigitOfText(bytes, 2 * i + 1);
      assert (2 * i) / 2 == i && (2 * i) % 2 == 0 && (2 * i + 1) / 2 == i && (2 * i + 1) % 2 == 1;
    }
  }

  // ----- which frames exist -----

  predicate HasEnd(flags: int) {
    (flags / 2) % 2 == 1
  }

  function Width(codec: Codec): Option<nat> {
    match codec case PcmS16le => Some(2) case PcmF32le => Some(4) case Opus => None
  }

  /** The payload rule: an end marker may be silent; anything else carries audio, and PCM
      carries exactly its samples. */
  predicate PayloadFits(codec: Codec, flags: int, durationSamples: int, channels: int, bytes: int) {
    || (HasEnd(flags) && durationSamples == 0 && bytes == 0)
    || (&& durationSamples != 0 && bytes != 0
        && (Width(codec).Some? ==> bytes == durationSamples * channels * Width(codec).value))
  }

  predicate IsFrame(f: Frame) {
    && 0 <= f.sequence <= 0xffff_ffff && 0 <= f.durationSamples <= 0xffff_ffff
    && 0 < f.sampleRate <= 0xffff_ffff && 0 < f.channels <= 255
    && 0 <= f.flags < 8
    && 0 <= f.timestampSamples <= 0xffff_ffff_ffff_ffff
    && |f.payload| <= MAX_PAYLOAD_BYTES
    && PayloadFits(f.codec, f.flags, f.durationSamples, f.channels, |f.payload|)
    && IsUuid(f.streamId)
  }

  /** The wire layout, field by field. */
  ghost predicate IsImage(b: seq<Byte>, f: Frame)
    requires IsFrame(f)
  {
    && |b| == HEADER_BYTES + |f.payload|
    && b[0..4] == MAGIC
    && b[4] == VERSION && b[5] == KindId(f.kind) && b[6] == CodecId(f.codec) && b[7] == f.flags
    && b[8..10] == ToLittleEndian(HEADER_BYTES, 2)
    && b[10] == f.channels && b[11] == 0
    && b[12..16] == ToLittleEndian(f.sampleRate, 4)
    && b[16..20] == ToLittleEndian(f.sequence, 4)
    && b[20..24] == ToLittleEndian(f.durationSamples, 4)
    && b[24..32] == ToLittleEndian(f.timestampSamples, 8)
    && b[32..36] == ToLittleEndian(|f.payload|, 4)
    && b[36..40] == ToLittleEndian(0, 4)
    && b[40..56] == UuidBytes(f.streamId)
    && b[56..] == f.payload
  }

  // ----- the code: checks in their order -----

  function ValidatePayload(codec: Codec, flags: int, durationSamples: int, channels: int, bytes: int)
    : (e: Option<Error>)
    ensures e.None? <==> PayloadFits(codec, flags, durationSamples, channels, bytes)
  {
    if HasEnd(flags) && durationSamples == 0 && bytes == 0 then None
    else if Width(codec).Some? && bytes != durationSamples * channels * Width(codec).value then Some(PayloadLengthWrong)
    else if durationSamples == 0 || bytes == 0 then Some(NoAudio)
    else None
  }

  predicate Integer(value: int, maximum: int) {
    0 <= value <= maximum
  }

  function EncodeError(f: Frame): (e: Option<Error>)
    ensures e.None? <==> IsFrame(f)
  {
    if !Integer(f.sequence, 0xffff_ffff) || !Integer(f.durationSamples, 0xffff_ffff)
       || !Integer(f.sampleRate, 0xffff_ffff) || !Integer(f.channels, 255) || !Integer(f.flags, 255)
    then Some(FieldOutOfRange)
    else if f.sampleRate == 0 || f.channels == 0 then Some(RateOrChannelsZero)
    else if f.flags / 8 != 0 then Some(UnsupportedFlags)
    else if f.timestampSamples < 0 || f.timestampSamples > 0xffff_ffff_ffff_ffff then Some(TimestampOutOfRange)
    else if |f.payload| > MAX_PAYLOAD_BYTES then Some(PayloadTooLarge)
    else
      var payload := ValidatePayload(f.codec, f.flags, f.durationSamples, f.channels, |f.payload|);
      if payload.Some? then payload
      else if !IsUuid(f.streamId) then Some(BadStreamId)
      else None
  }

  predicate IsMediaV2Frame(b: seq<Byte>) {
    |b| >= 4 && b[0..4] == MAGIC
  }

  function ParseMediaV2Frame(b: seq<Byte>): Result<Frame, Error> {
    if !IsMediaV2Frame(b) then Err(NotMediaV2)
    else if |b| < HEADER_BYTES then Err(TruncatedHeader)
    else if b[4] != VERSION then Err(UnsupportedVersion)
    else if KindOf(b[5]).None? then Err(UnsupportedKind)
    else if CodecOf(b[6]).None? then Err(UnsupportedCodec)
    else if b[7] / 8 != 0 then Err(UnsupportedFlags)
    else if FromLittleEndian(b[8..10]) != HEADER_BYTES then Err(UnsupportedHeaderSize)
    else if b[11] != 0 || FromLittleEndian(b[36..40]) != 0 then Err(ReservedNotZero)
    else
      var sampleRate, durationSamples := FromLittleEndian(b[12..16]), FromLittleEndian(b[20..24]);
      var payloadBytes := FromLittleEndian(b[32..36]);
      if b[10] == 0 || sampleRate == 0 then Err(RateOrChannelsZero)
      else if payloadBytes > MAX_PAYLOAD_BYTES then Err(PayloadTooLarge)
      else if |b| != HEADER_BYTES + payloadBytes then Err(LengthMismatch)
      else
        var payload := ValidatePayload(CodecOf(b[6]).value, b[7], durationSamples, b[10], payloadBytes);
        if payload.Some? then Err(payload.value)
        else Ok(Frame(KindOf(b[5]).value, CodecOf(b[6]).value, b[7], UuidText(b[40..56]),
                      FromLittleEndian(b[16..20]), FromLittleEndian(b[24..32]),
                      durationSamples, sampleRate, b[10], b[56..]))
  }

  // ----- inverse, canonical, exact -----

  /** What the wire keeps of a frame: the stream id comes back in lower case. */
  function Canonical(f: Frame): Frame {
    f.(streamId := Lower(f.streamId))
  }

  lemma ParseOfImage(b: seq<Byte>, f: Frame)
    requires IsFrame(f) && IsImage(b, f)
    ensures ParseMediaV2Frame(b) == Ok(Canonical(f))
  {
    Widths();
    DecodeEncoded(HEADER_BYTES, 2);
    DecodeEncoded(f.sampleRate, 4);
    DecodeEncoded(f.sequence, 4);
    DecodeEncoded(f.durationSamples, 4);
    DecodeEncoded(f.timestampSamples, 8);
    DecodeEncoded(|f.payload|, 4);
    DecodeEncoded(0, 4);
    UuidTextOfBytes(f.streamId);
  }

  lemma ImageOfParse(b: seq<Byte>)
    requires ParseMediaV2Frame(b).Ok?
    ensures var f := ParseMediaV2Frame(b).value; IsFrame(f) && IsImage(b, f) && Canonical(f) == f
  {
    Widths();
    EncodeDecoded(b[8..10]);
    EncodeDecoded(b[12..16]);
    EncodeDecoded(b[16..20]);
    EncodeDecoded(b[20..24]);
    EncodeDecoded(b[24..32]);
    EncodeDecoded(b[32..36]);
    EncodeDecoded(b[36..40]);
    UuidBytesOfText(b[40..56]);
  }

  /** One frame has one byte image. */
  lemma ImageIsUnique(b: seq<Byte>, c: seq<Byte>, f: Frame)
    requires IsFrame(f) && IsImage(b, f) && IsImage(c, f)
    ensures b == c
  {
    Header(b);
    Header(c);
  }

  lemma Header(b: seq<Byte>)
    requires |b| >= HEADER_BYTES
    ensures b == b[0..4] + [b[4], b[5], b[6], b[7]] + b[8..10] + [b[10], b[11]] + b[12..16] + b[16..20]
                 + b[20..24] + b[24..32] + b[32..36] + b[36..40] + b[40..56] + b[56..]
  {
  }

  /** The wire spells a stream id in either case alike. */
  lemma CaseIsInvisible(b: seq<Byte>, f: Frame)
    requires IsFrame(f) && IsImage(b, f)
    ensures IsFrame(Canonical(f)) && IsImage(b, Canonical(f))
  {
    ParseOfImage(b, f);
    ImageOfParse(b);
  }

  /** Parse accepts exactly the images of frames, and returns the frame that was written. */
  lemma ParseAcceptsExactlyImages(b: seq<Byte>)
    ensures ParseMediaV2Frame(b).Ok? <==> exists f :: IsFrame(f) && IsImage(b, f)
    ensures forall f :: IsFrame(f) && IsImage(b, f) ==> ParseMediaV2Frame(b) == Ok(Canonical(f))
  {
    if ParseMediaV2Frame(b).Ok? {
      ImageOfParse(b);
    }
    forall f | IsFrame(f) && IsImage(b, f) ensures ParseMediaV2Frame(b) == Ok(Canonical(f)) {
      ParseOfImage(b, f);
    }
  }

  /** Two frames share bytes exactly when they differ at most in the case of the stream id. */
  lemma ImagesAreInjective(b: seq<Byte>, c: seq<Byte>, f: Frame, g: Frame)
    requires IsFrame(f) && IsImage(b, f) && IsFrame(g) && IsImage(c, g)
    ensures b == c <==> Canonical(f) == Canonical(g)
  {
    ParseOfImage(b, f);
    ParseOfImage(c, g);
    if Canonical(f) == Canonical(g) {
      CaseIsInvisible(b, f);
      CaseIsInvisible(c, g);
      ImageIsUnique(b, c, Canonical(f));
    }
  }

  // ----- the encoder -----

  /** Writes `bytes` at `offset`, as a DataView setter or `Uint8Array.set` does. */
  method Put(output: array<Byte>, offset: nat, bytes: seq<Byte>)
    requires offset + |bytes| <= output.Length
    modifies output
    ensures output[..offset + |bytes|] == old(output[..offset]) + bytes
    ensures forall k :: offset + |bytes| <= k < output.Length ==> output[k] == old(output[k])
  {
    for i := 0 to |bytes|
      invariant output[..offset + i] == old(output[..offset]) + bytes[..i]
      invariant output[offset + i..] == old(output[offset + i..])
    {
      output[offset + i] := bytes[i];
    }
  }

  /** The layout as a concatenation: what the frame is, its numbers, and the rest. */
  ghost function Identity(f: Frame): (b: seq<Byte>)
    requires IsFrame(f)
    ensures |b| == 12
  {
    MAGIC + [VERSION, KindId(f.kind), CodecId(f.codec), f.flags] + ToLittleEndian(HEADER_BYTES, 2) + [f.channels, 0]
  }

  ghost function Numbers(f: Frame): (b: seq<Byte>)
    requires IsFrame(f)
    ensures |b| == 24
  {
    ToLittleEndian(f.sampleRate, 4) + ToLittleEndian(f.sequence, 4) + ToLittleEndian(f.durationSamples, 4)
    + ToLittleEndian(f.timestampSamples, 8) + ToLittleEndian(|f.payload|, 4)
  }

  ghost function Rest(f: Frame): seq<Byte>
    requires IsFrame(f)
  {
    ToLittleEndian(0, 4) + UuidBytes(f.streamId) + f.payload
  }

  ghost function Layout(f: Frame): seq<Byte>
    requires IsFrame(f)
  {
    Identity(f) + Numbers(f) + Rest(f)
  }

  lemma First(x: seq<Byte>, y: seq<Byte>, z: seq<Byte>, a: nat, b: nat)
    requires a <= b <= |x|
    ensures (x + y + z)[a..b] == x[a..b]
  {
  }

  lemma Second(x: seq<Byte>, y: seq<Byte>, z: seq<Byte>, a: nat, b: nat)
    requires a <= b <= |y|
    ensures (x + y + z)[|x| + a..|x| + b] == y[a..b]
  {
  }

  lemma Third(x: seq<Byte>, y: seq<Byte>, z: seq<Byte>, a: nat, b: nat)
    requires a <= b <= |z|
    ensures (x + y + z)[|x| + |y| + a..|x| + |y| + b] == z[a..b]
  {
  }

  lemma IdentityInPlace(f: Frame)
    requires IsFrame(f)
    ensures var b := Layout(f);
      && b[0..4] == MAGIC && b[8..10] == ToLittleEndian(HEADER_BYTES, 2)
      && b[4] == VERSION && b[5] == KindId(f.kind) && b[6] == CodecId(f.codec) && b[7] == f.flags
      && b[10] == f.channels && b[11] == 0
  {
    First(Identity(f), Numbers(f), Rest(f), 0, 4);
    First(Identity(f), Numbers(f), Rest(f), 8, 10);
    var b := Layout(f);
    assert b[4] == Identity(f)[4] && b[5] == Identity(f)[5] && b[6] == Identity(f)[6] && b[7] == Identity(f)[7];
    assert b[10] == Identity(f)[10] && b[11] == Identity(f)[11];
  }

  lemma NumbersApart(f: Frame)
    requires IsFrame(f)
    ensures var n := Numbers(f);
      && n[0..4] == ToLittleEndian(f.sampleRate, 4) && n[4..8] == ToLittleEndian(f.sequence, 4)
      && n[8..12] == ToLittleEndian(f.durationSamples, 4) && n[12..20] == ToLittleEndian(f.timestampSamples, 8)
      && n[20..24] == ToLittleEndian(|f.payload|, 4)
  {
    var before := ToLittleEndian(f.sampleRate, 4) + ToLittleEndian(f.sequence, 4)
      + ToLittleEndian(f.durationSamples, 4) + ToLittleEndian(f.timestampSamples, 8);
    assert Numbers(f) == before + ToLittleEndian(|f.payload|, 4) && |before| == 20;
    assert Numbers(f)[20..24] == Numbers(f)[20..];
  }

  lemma NumbersInPlace(f: Frame)
    requires IsFrame(f)
    ensures var b := Layout(f);
      && b[12..16] == ToLittleEndian(f.sampleRate, 4) && b[16..20] == ToLittleEndian(f.sequence, 4)
      && b[20..24] == ToLittleEndian(f.durationSamples, 4) && b[24..32] == ToLittleEndian(f.timestampSamples, 8)
      && b[32..36] == ToLittleEndian(|f.payload|, 4)
  {
    NumbersApart(f);
    NumberInPlace(f, 0, 4);
    NumberInPlace(f, 4, 8);
    NumberInPlace(f, 8, 12);
    NumberInPlace(f, 12, 20);
    NumberInPlace(f, 20, 24);
  }

  lemma NumberInPlace(f: Frame, a: nat, b: nat)
    requires IsFrame(f) && a <= b <= 24
    ensures Layout(f)[12 + a..12 + b] == Numbers(f)[a..b]
  {
    Second(Identity(f), Numbers(f), Rest(f), a, b);
  }

  lemma RestInPlace(f: Frame)
    requires IsFrame(f)
    ensures var b := Layout(f);
      && |b| == HEADER_BYTES + |f.payload|
      && b[36..40] == ToLittleEndian(0, 4) && b[40..56] == UuidBytes(f.streamId) && b[56..] == f.payload
  {
    var i, n, r := Identity(f), Numbers(f), Rest(f);
    Third(i, n, r, 0, 4);
    Third(i, n, r, 4, 20);
    Third(i, n, r, 20, |r|);
    assert Layout(f)[56..] == Layout(f)[56..56 + |f.payload|];
  }

  lemma LayoutIsImage(f: Frame)
    requires IsFrame(f)
    ensures IsImage(Layout(f), f)
  {
    IdentityInPlace(f);
    NumbersInPlace(f);
    RestInPlace(f);
  }

  method WriteIdentity(output: array<Byte>, f: Frame)
    requires IsFrame(f) && output.Length >= HEADER_BYTES
    modifies output
    ensures output[..12] == Identity(f)
    ensures forall k :: 12 <= k < output.Length ==> output[k] == old(output[k])
  {
    Put(output, 0, MAGIC);
    Put(output, 4, [VERSION, KindId(f.kind), CodecId(f.codec), f.flags]);
    Put(output, 8, ToLittleEndian(HEADER_BYTES, 2));
    Put(output, 10, [f.channels, 0]);
  }

  method WriteNumbers(output: array<Byte>, f: Frame)
    requires IsFrame(f) && output.Length >= HEADER_BYTES
    modifies output
    ensures output[..36] == old(output[..12]) + Numbers(f)
    ensures forall k :: 36 <= k < output.Length ==> output[k] == old(output[k])
  {
    Put(output, 12, ToLittleEndian(f.sampleRate, 4));
    Put(output, 16, ToLittleEndian(f.sequence, 4));
    Put(output, 20, ToLittleEndian(f.durationSamples, 4));
    Put(output, 24, ToLittleEndian(f.timestampSamples, 8));
    Put(output, 32, ToLittleEndian(|f.payload|, 4));
  }

  lemma RestLast(before: seq<Byte>, reserved: seq<Byte>, id: seq<Byte>, payload: seq<Byte>)
    ensures before + reserved + id + payload == before + (reserved + id + payload)
  {
  }

  method WriteRest(output: array<Byte>, f: Frame)
    requires IsFrame(f) && output.Length == HEADER_BYTES + |f.payload|
    modifies output
    ensures output[..] == old(output[..36]) + Rest(f)
  {
    ghost var before := output[..36];
    var reserved, id := ToLittleEndian(0, 4), UuidBytes(f.streamId);
    Put(output, 36, reserved);
    assert output[..40] == before + reserved;
    Put(output, 40, id);
    assert output[..56] == before + reserved + id;
    Put(output, 56, f.payload);
    assert output[..] == output[..56 + |f.payload|];
    RestLast(before, reserved, id, f.payload);
  }

  method WriteFields(output: array<Byte>, f: Frame)
    requires IsFrame(f) && output.Length == HEADER_BYTES + |f.payload|
    modifies output
    ensures output[..] == Layout(f)
  {
    WriteIdentity(output, f);
    WriteNumbers(output, f);
    WriteRest(output, f);
  }

  method EncodeMediaV2Frame(f: Frame) returns (r: Result<array<Byte>, Error>)
    ensures r.Ok? <==> IsFrame(f)
    ensures r.Err? ==> EncodeError(f) == Some(r.error)
    ensures r.Ok? ==> fresh(r.value) && IsImage(r.value[..], f)
    ensures r.Ok? ==> ParseMediaV2Frame(r.value[..]) == Ok(Canonical(f))
    ensures r.Ok? ==> forall b :: ParseMediaV2Frame(b) == Ok(f) ==> b == r.value[..]
  {
    var error := EncodeError(f);
    if error.Some? {
      return Err(error.value);
    }
    var output := new Byte[HEADER_BYTES + |f.payload|];
    WriteFields(output, f);
    LayoutIsImage(f);
    ParseOfImage(output[..], f);
    forall b | ParseMediaV2Frame(b) == Ok(f) ensures b == output[..] {
      ImageOfParse(b);
      ImageIsUnique(b, output[..], f);
    }
    r := Ok(output);
  }
}
