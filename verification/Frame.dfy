/** Length-prefixed frames. The JSON text inside a frame is an opaque payload. */
module Frame {
  import opened Basics

  const U32_MAX: nat := 0xFFFF_FFFF
  const MAX_CONTROL_FRAME_BYTES: nat := 1024 * 1024

  datatype FrameError = Truncated | InvalidLength(length: nat)

  /** `u32::to_be_bytes`. */
  function BigEndian(n: nat): (r: Bytes)
    requires n <= U32_MAX
    ensures |r| == 4
  {
    var high, low := n / 0x1_0000, n % 0x1_0000;
    [(high / 0x100) as Octet, (high % 0x100) as Octet, (low / 0x100) as Octet, (low % 0x100) as Octet]
  }

  function FromBigEndian(b: Bytes): (n: nat)
    requires |b| == 4
    ensures n <= U32_MAX
  {
    var high, low := b[0] as nat * 0x100 + b[1] as nat, b[2] as nat * 0x100 + b[3] as nat;
    high * 0x1_0000 + low
  }

  lemma BigEndianRoundTrip(n: nat)
    requires n <= U32_MAX
    ensures FromBigEndian(BigEndian(n)) == n
    ensures var b := BigEndian(n); b[0] as nat * 0x100_0000 + b[1] as nat * 0x1_0000 + b[2] as nat * 0x100 + b[3] as nat == n
  {
  }

  /** A payload a writer with this limit accepts. */
  predicate Framable(payload: Bytes, max: nat) {
    0 < |payload| <= max && |payload| <= U32_MAX
  }

  function Framed(payload: Bytes): Bytes
    requires |payload| <= U32_MAX
  {
    BigEndian(|payload|) + payload
  }

  ghost predicate AllFramable(payloads: seq<Bytes>, max: nat) {
    forall i :: 0 <= i < |payloads| ==> Framable(payloads[i], max)
  }

  function Encoded(payloads: seq<Bytes>, max: nat): Bytes
    requires AllFramable(payloads, max)
  {
    if payloads == [] then [] else Framed(payloads[0]) + Encoded(payloads[1..], max)
  }

  /** What one read makes of the bytes still to come: a payload and how much it used, or why
      there is none. */
  function Decoded(rest: Bytes, max: nat): Result<Bytes, FrameError> {
    if |rest| < 4 then Err(Truncated)
    else
      var length := FromBigEndian(rest[..4]);
      if length == 0 || length > max then Err(InvalidLength(length))
      else if |rest| - 4 < length then Err(Truncated)
      else Ok(rest[4..4 + length])
  }

  /** All payloads up to the first error, and that error. A clean end of stream reads as
      `Truncated` with nothing left over. */
  function DecodedAll(rest: Bytes, max: nat): (seq<Bytes>, FrameError)
    decreases |rest|
  {
    match Decoded(rest, max)
    case Err(error) => ([], error)
    case Ok(payload) =>
      var more := DecodedAll(rest[4 + |payload|..], max);
      ([payload] + more.0, more.1)
  }

  /** A byte stream that hands out its data in pieces of any size. */
  class Stream {
    const data: Bytes
    var pos: nat

    constructor (data: Bytes)
      ensures this.data == data && pos == 0
    {
      this.data, this.pos := data, 0;
    }

    ghost predicate Valid()
      reads this
    {
      pos <= |data|
    }

    ghost function Rest(): Bytes
      reads this
      requires Valid()
    {
      data[pos..]
    }

    /** `read`: at least one byte unless the stream is at its end. */
    method Read(n: nat) returns (bytes: Bytes)
      requires Valid() && n > 0
      modifies this
      ensures Valid() && |bytes| <= n && (bytes == [] ==> old(Rest()) == [])
      ensures old(Rest()) == bytes + Rest()
    {
      if pos == |data| { return []; }
      var count: nat :| 1 <= count <= n && pos + count <= |data|;
      bytes := data[pos..pos + count];
      pos := pos + count;
    }

    /** `read_exact`. */
    method ReadExact(n: nat) returns (result: Option<Bytes>)
      requires Valid()
      modifies this
      ensures Valid()
      ensures if n <= |old(Rest())| then result == Some(old(Rest())[..n]) && Rest() == old(Rest())[n..] else result == None
    {
      var bytes := [];
      while |bytes| < n
        invariant Valid() && |bytes| <= n && old(Rest()) == bytes + Rest()
        decreases n - |bytes|
      {
        var piece := Read(n - |bytes|);
        if piece == [] { return None; }
        bytes := bytes + piece;
      }
      return Some(bytes);
    }

    method ReadFrame(max: nat) returns (result: Result<Bytes, FrameError>)
      requires Valid()
      modifies this
      ensures Valid() && result == Decoded(old(Rest()), max)
      ensures result.Ok? ==> Rest() == old(Rest())[4 + |result.value|..]
    {
      ghost var rest := Rest();
      var prefix := ReadExact(4);
      if prefix.None? { return Err(Truncated); }
      var length := FromBigEndian(prefix.value);
      if length == 0 || length > max { return Err(InvalidLength(length)); }
      var body := ReadExact(length);
      if body.None? { return Err(Truncated); }
      assert rest[4..][..length] == rest[4..4 + length] && rest[4..][length..] == rest[4 + length..];
      return Ok(body.value);
    }
  }

  /** Appends one frame; nothing outside the limit is ever written. */
  method WriteFrame(written: Bytes, payload: Bytes, max: nat) returns (result: Result<(), FrameError>, after: Bytes)
    ensures result.Ok? <==> Framable(payload, max)
    ensures after == if Framable(payload, max) then written + Framed(payload) else written
  {
    if payload == [] || |payload| > max { return Err(InvalidLength(|payload|)), written; }
    if |payload| > U32_MAX { return Err(InvalidLength(|payload|)), written; }
    return Ok(()), written + BigEndian(|payload|) + payload;
  }

  /** `write_json_frame`: the limit of control frames. */
  method WriteControlFrame(written: Bytes, payload: Bytes) returns (result: Result<(), FrameError>, after: Bytes)
    ensures result.Ok? <==> 0 < |payload| <= 1024 * 1024
    ensures after == if result.Ok? then written + Framed(payload) else written
  {
    result, after := WriteFrame(written, payload, MAX_CONTROL_FRAME_BYTES);
  }

  lemma DecodedFirst(payload: Bytes, rest: Bytes, max: nat)
    requires Framable(payload, max)
    ensures Decoded(Framed(payload) + rest, max) == Ok(payload)
    ensures (Framed(payload) + rest)[4 + |payload|..] == rest
  {
    var stream := Framed(payload) + rest;
    assert stream[..4] == BigEndian(|payload|);
    BigEndianRoundTrip(|payload|);
    assert stream[4..4 + |payload|] == payload;
  }

  lemma DecodedCons(payload: Bytes, rest: Bytes, max: nat)
    requires Framable(payload, max)
    ensures DecodedAll(Framed(payload) + rest, max) == ([payload] + DecodedAll(rest, max).0, DecodedAll(rest, max).1)
  {
    DecodedFirst(payload, rest, max);
  }

  lemma ConsAppend(a: seq<Bytes>, b: seq<Bytes>)
    requires a != []
    ensures [a[0]] + (a[1..] + b) == a + b
  {
    assert [a[0]] + a[1..] == a;
    assert ([a[0]] + a[1..]) + b == [a[0]] + (a[1..] + b);
  }

  /** Decoding what was encoded gives the payloads back, followed by whatever comes after. */
  lemma {:induction false} RoundTrip(payloads: seq<Bytes>, tail: Bytes, max: nat)
    requires AllFramable(payloads, max)
    ensures DecodedAll(Encoded(payloads, max) + tail, max) == (payloads + DecodedAll(tail, max).0, DecodedAll(tail, max).1)
  {
    var after := DecodedAll(tail, max).0;
    if payloads == [] {
      assert Encoded(payloads, max) + tail == tail;
      assert payloads + after == after;
    } else {
      var first, others := payloads[0], payloads[1..];
      RoundTrip(others, tail, max);
      DecodedCons(first, Encoded(others, max) + tail, max);
      assert Encoded(payloads, max) + tail == Framed(first) + (Encoded(others, max) + tail);
      ConsAppend(payloads, after);
    }
  }

  /** A stream cut anywhere yields exactly its complete frames, then an error. */
  lemma TruncationYieldsCompleteFrames(payloads: seq<Bytes>, last: Bytes, cut: nat, max: nat)
    requires AllFramable(payloads, max) && Framable(last, max) && cut < |Framed(last)|
    ensures DecodedAll(Encoded(payloads, max) + Framed(last)[..cut], max) == (payloads, Truncated)
  {
    var tail := Framed(last)[..cut];
    RoundTrip(payloads, tail, max);
    if cut >= 4 {
      assert tail[..4] == BigEndian(|last|);
      BigEndianRoundTrip(|last|);
    }
    assert DecodedAll(tail, max) == ([], Truncated);
    assert payloads + [] == payloads;
  }

  /** No frame outside the limit is accepted. */
  lemma {:induction false} AcceptedFramesAreWithinLimit(rest: Bytes, max: nat)
    ensures AllFramable(DecodedAll(rest, max).0, max)
    decreases |rest|
  {
    match Decoded(rest, max)
    case Err(error) =>
    case Ok(payload) => AcceptedFramesAreWithinLimit(rest[4 + |payload|..], max);
  }

  /** A length outside the limit is reported before any of the payload is read. */
  lemma BadLengthIsReported(length: nat, tail: Bytes, max: nat)
    requires length <= U32_MAX && (length == 0 || length > max)
    ensures DecodedAll(BigEndian(length) + tail, max) == ([], InvalidLength(length))
  {
    BigEndianRoundTrip(length);
    assert (BigEndian(length) + tail)[..4] == BigEndian(length);
  }
}
