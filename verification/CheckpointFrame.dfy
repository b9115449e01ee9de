/**
 * The binary frame of a checkpoint: a little-endian header length, the header
 * as an abstract codec writes it, and the hidden states.
 */
module CheckpointFrames {
  import opened Options
  import opened SafeIntegers
  import opened Texts

  const MAX_SERIALIZED_HEADER_BYTES: nat := 0xFFFF_FFFF

  type Byte = b: int | 0 <= b < 256

  datatype Dtype = Float16 | Float32 | Int8 | Unknown

  /** A header as handed in or decoded; any of its fields may be out of range. */
  datatype Header = Header(
    requestId: string, segmentIndex: int, shape: seq<int>, dtype: Dtype, sequenceLength: int, timestamp: int)

  datatype Checkpoint = Checkpoint(header: Header, hiddenStates: seq<Byte>)

  datatype FrameError =
    | InvalidHeader | SizeUnsafe | PayloadLengthMismatch | HeaderTooLong | PrefixMissing | HeaderOutOfBounds
    | NotDecodable

  datatype Outcome<+T> = Done(value: T) | Refused(error: FrameError)

  /** The header's text form. */
  datatype Codec = Codec(encode: Header -> seq<Byte>, decode: seq<Byte> -> Option<Header>)

  /** Decoding undoes encoding and no header is written as nothing. */
  ghost predicate Faithful(codec: Codec) {
    forall h: Header :: |codec.encode(h)| > 0 && codec.decode(codec.encode(h)) == Some(h)
  }

  // --- Checked arithmetic ---

  lemma QuotientBoundsProduct(left: nat, right: nat, max: nat)
    ensures left != 0 ==> (right <= max / left <==> left * right <= max)
  {
    if left != 0 {
      var q := max / left;
      assert max == left * q + max % left;
      if right <= q {
        assert left * right <= left * q;
      } else {
        assert left * (q + 1) <= left * right;
      }
    }
  }

  /** The product, or nothing exactly when it is not a safe integer. */
  function CheckedMultiply(left: nat, right: nat): (r: Option<nat>)
    ensures r == if left * right <= MAX_SAFE_INTEGER then Some(left * right) else None
  {
    QuotientBoundsProduct(left, right, MAX_SAFE_INTEGER);
    if left != 0 && right > MAX_SAFE_INTEGER / left then None else Some(left * right)
  }

  /** The sum, or nothing exactly when it is not a safe integer. */
  function CheckedAdd(left: nat, right: nat): (r: Option<nat>)
    ensures r == if left + right <= MAX_SAFE_INTEGER then Some(left + right) else None
  {
    if left > MAX_SAFE_INTEGER - right then None else Some(left + right)
  }

  function BytesPer(d: Dtype): nat {
    match d
    case Float16 => 2
    case Float32 => 4
    case Int8 => 1
    case Unknown => 0
  }

  // --- What a header must satisfy ---

  predicate ValidHeader(h: Header) {
    && !Blank(h.requestId)
    && NonNegative(h.segmentIndex)
    && |h.shape| == 3 && Positive(h.shape[0]) && Positive(h.shape[1]) && Positive(h.shape[2])
    && !h.dtype.Unknown?
    && Positive(h.sequenceLength) && h.sequenceLength == h.shape[1]
    && NonNegative(h.timestamp)
  }

  /** The exact payload size a header declares. */
  function Volume(h: Header): nat
    requires ValidHeader(h)
  {
    h.shape[0] * h.shape[1] * h.shape[2] * BytesPer(h.dtype)
  }

  /** The declared size, or nothing exactly when it is not a safe integer: no partial product overflows first. */
  function PayloadBytes(h: Header): (r: Option<nat>)
    requires ValidHeader(h)
    ensures r == if Volume(h) <= MAX_SAFE_INTEGER then Some(Volume(h)) else None
  {
    var batchSequence := CheckedMultiply(h.shape[0], h.shape[1]);
    if batchSequence.None? then
      Grows(h.shape[0] * h.shape[1], h.shape[2]);
      Grows(h.shape[0] * h.shape[1] * h.shape[2], BytesPer(h.dtype));
      None
    else
      var elements := CheckedMultiply(batchSequence.value, h.shape[2]);
      if elements.None? then
        Grows(h.shape[0] * h.shape[1] * h.shape[2], BytesPer(h.dtype));
        None
      else CheckedMultiply(elements.value, BytesPer(h.dtype))
  }

  lemma Grows(n: nat, factor: nat)
    requires factor >= 1
    ensures n <= n * factor
  {}

  /** The checks shared by both directions; what they let through. */
  function Validate(h: Header, payload: nat): (r: Option<FrameError>)
    ensures r.None? <==> Fitting(h, payload)
  {
    if !ValidHeader(h) then Some(InvalidHeader)
    else
      var expected := PayloadBytes(h);
      if expected.None? then Some(SizeUnsafe)
      else if payload != expected.value then Some(PayloadLengthMismatch)
      else None
  }

  predicate Fitting(h: Header, payload: nat) {
    ValidHeader(h) && payload == Volume(h) <= MAX_SAFE_INTEGER
  }

  // --- The length prefix ---

  /** Four bytes read least significant first. */
  function Uint32(bytes: seq<Byte>): (n: nat)
    requires |bytes| == 4
    ensures n <= 0xFFFF_FFFF
  {
    var b0: int, b1: int, b2: int, b3: int := bytes[0], bytes[1], bytes[2], bytes[3];
    b0 + 0x100 * (b1 + 0x100 * (b2 + 0x100 * b3))
  }

  function LittleEndian(n: nat): (bytes: seq<Byte>)
    requires n <= 0xFFFF_FFFF
    ensures |bytes| == 4 && Uint32(bytes) == n
  {
    var n1 := n / 0x100;
    var n2 := n1 / 0x100;
    [n % 0x100, n1 % 0x100, n2 % 0x100, n2 / 0x100]
  }

  /** No other four bytes read as the same length. */
  lemma PrefixIsUnique(bytes: seq<Byte>)
    requires |bytes| == 4
    ensures LittleEndian(Uint32(bytes)) == bytes
  {
    var b0: int, b1: int, b2: int, b3: int := bytes[0], bytes[1], bytes[2], bytes[3];
    var n2 := b2 + 0x100 * b3;
    var n1 := b1 + 0x100 * n2;
    assert n2 % 0x100 == b2 && n2 / 0x100 == b3;
    assert n1 % 0x100 == b1 && n1 / 0x100 == n2;
    assert (b0 + 0x100 * n1) / 0x100 == n1;
  }

  // --- Writing ---

  /** The whole frame. */
  function Layout(header: seq<Byte>, payload: seq<Byte>): seq<Byte>
    requires |header| <= MAX_SERIALIZED_HEADER_BYTES
  {
    LittleEndian(|header|) + header + payload
  }

  /** Store `data` at an offset of the buffer. */
  method Put(buffer: array<Byte>, offset: nat, data: seq<Byte>)
    requires offset + |data| <= buffer.Length
    modifies buffer
    ensures buffer[..] == old(buffer[..offset]) + data + old(buffer[offset + |data|..])
  {
    forall i | 0 <= i < |data| {
      buffer[offset + i] := data[i];
    }
  }

  /** Fill a buffer of the frame's size: the prefix, the header, the payload. */
  method Assemble(header: seq<Byte>, payload: seq<Byte>, frameBytes: nat) returns (bytes: array<Byte>)
    requires |header| <= MAX_SERIALIZED_HEADER_BYTES && frameBytes == 4 + |header| + |payload|
    ensures fresh(bytes) && bytes[..] == Layout(header, payload)
  {
    hide Uint32, LittleEndian;
    bytes := new Byte[frameBytes](_ => 0);
    Put(bytes, 0, LittleEndian(|header|));
    assert bytes[..4] == LittleEndian(|header|);
    Put(bytes, 4, header);
    assert bytes[..4 + |header|] == LittleEndian(|header|) + header;
    Put(bytes, 4 + |header|, payload);
  }

  /** What can be written. */
  predicate Writable(codec: Codec, c: Checkpoint) {
    && Fitting(c.header, |c.hiddenStates|)
    && |codec.encode(c.header)| <= MAX_SERIALIZED_HEADER_BYTES
    && 4 + |codec.encode(c.header)| + |c.hiddenStates| <= MAX_SAFE_INTEGER
  }

  /** A checkpoint is written exactly when it is valid and the frame's lengths fit, and reads back as itself. */
  method Serialize(codec: Codec, c: Checkpoint) returns (r: Outcome<seq<Byte>>, headerBytes: nat, payloadBytes: nat)
    ensures r.Done? <==> Writable(codec, c)
    ensures r.Done? ==>
      && r.value == Layout(codec.encode(c.header), c.hiddenStates)
      && |r.value| == 4 + headerBytes + payloadBytes && payloadBytes == |c.hiddenStates|
    ensures r.Done? && Faithful(codec) ==> Deserialize(codec, r.value) == Done(c)
  {
    hide Uint32, LittleEndian, Deserialize, Fitting, Faithful;
    headerBytes, payloadBytes := 0, 0;
    var fault := Validate(c.header, |c.hiddenStates|);
    if fault.Some? {
      return Refused(fault.value), 0, 0;
    }
    var header := codec.encode(c.header);
    if |header| > MAX_SERIALIZED_HEADER_BYTES {
      return Refused(HeaderTooLong), 0, 0;
    }
    var prefixed := CheckedAdd(4, |header|);
    if prefixed.None? {
      r := Refused(SizeUnsafe);
      return;
    }
    var frameBytes := CheckedAdd(prefixed.value, |c.hiddenStates|);
    if frameBytes.None? {
      return Refused(SizeUnsafe), 0, 0;
    }
    var bytes := Assemble(header, c.hiddenStates, frameBytes.value);
    if Faithful(codec) {
      ReadsBack(codec, c);
    }
    r, headerBytes, payloadBytes := Done(bytes[..]), |header|, |c.hiddenStates|;
  }

  // --- Reading ---

  function Deserialize(codec: Codec, frame: seq<Byte>): Outcome<Checkpoint> {
    if |frame| < 4 then Refused(PrefixMissing)
    else
      var headerBytes := Uint32(frame[..4]);
      if headerBytes == 0 || headerBytes > |frame| - 4 then Refused(HeaderOutOfBounds)
      else
        var start := 4 + headerBytes;
        var header := codec.decode(frame[4..start]);
        if header.None? then Refused(NotDecodable)
        else
          var fault := Validate(header.value, |frame| - start);
          if fault.Some? then Refused(fault.value)
          else Done(Checkpoint(header.value, frame[start..]))
  }

  /** Reading a written frame gives the checkpoint back. */
  lemma ReadsBack(codec: Codec, c: Checkpoint)
    requires Faithful(codec) && Writable(codec, c)
    ensures Deserialize(codec, Layout(codec.encode(c.header), c.hiddenStates)) == Done(c)
  {
    var header := codec.encode(c.header);
    var frame := Layout(header, c.hiddenStates);
    assert frame[..4] == LittleEndian(|header|);
    assert frame[4..4 + |header|] == header;
    assert frame[4 + |header|..] == c.hiddenStates;
  }

  /**
   * What is read is valid, and the frame holds its payload and a header that decodes to its
   * header, and nothing else.
   */
  lemma ReadsOnlyFrames(codec: Codec, frame: seq<Byte>)
    requires Deserialize(codec, frame).Done?
    ensures var c := Deserialize(codec, frame).value;
      && Fitting(c.header, |c.hiddenStates|)
      && exists header: seq<Byte> ::
           && 0 < |header| <= MAX_SERIALIZED_HEADER_BYTES
           && codec.decode(header) == Some(c.header)
           && frame == Layout(header, c.hiddenStates)
  {
    var headerBytes := Uint32(frame[..4]);
    var header := frame[4..4 + headerBytes];
    PrefixIsUnique(frame[..4]);
    assert frame == frame[..4] + header + frame[4 + headerBytes..];
  }

  /** Behind an accepted header only a payload of the same length is accepted, wherever bytes were added or dropped. */
  lemma PayloadLengthIsFixed(codec: Codec, header: seq<Byte>, payload: seq<Byte>, other: seq<Byte>)
    requires |header| <= MAX_SERIALIZED_HEADER_BYTES
    requires Deserialize(codec, Layout(header, payload)).Done? && |other| != |payload|
    ensures Deserialize(codec, Layout(header, other)) == Refused(PayloadLengthMismatch)
  {
    var a, b := Layout(header, payload), Layout(header, other);
    assert a[..4] == b[..4] == LittleEndian(|header|);
    assert a[4..4 + |header|] == b[4..4 + |header|] == header;
  }

  /**
   * Frames are self-delimiting: no accepted frame continues another, so bytes added or dropped at
   * the end are noticed.
   */
  lemma FramesArePrefixFree(codec: Codec, frame: seq<Byte>, longer: seq<Byte>)
    requires Deserialize(codec, frame).Done? && frame < longer
    ensures Deserialize(codec, longer) == Refused(PayloadLengthMismatch)
  {
    assert frame[..4] == longer[..4];
    var start := 4 + Uint32(frame[..4]);
    assert frame[4..start] == longer[4..start];
  }

  /** Every way of cutting an accepted frame short is refused. */
  lemma CutFramesAreRefused(codec: Codec, frame: seq<Byte>, n: nat)
    requires Deserialize(codec, frame).Done? && n < |frame|
    ensures Deserialize(codec, frame[..n]).Refused?
  {
    if Deserialize(codec, frame[..n]).Done? {
      FramesArePrefixFree(codec, frame[..n], frame);
    }
  }

  /** Distinct checkpoints have distinct frames. */
  lemma FramesAreDistinct(codec: Codec, c: Checkpoint, d: Checkpoint)
    requires Faithful(codec) && Writable(codec, c) && Writable(codec, d)
    requires Layout(codec.encode(c.header), c.hiddenStates) == Layout(codec.encode(d.header), d.hiddenStates)
    ensures c == d
  {
    ReadsBack(codec, c);
    ReadsBack(codec, d);
  }
}
