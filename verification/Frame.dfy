/** The length-prefixed TCP framing: what one frame looks like on the wire, what reading
    one frame off a finite byte stream yields, and what reading a whole stream yields. */
module Frame {

  type Byte = x: int | 0 <= x < 256
  type Bytes = seq<Byte>

  const HEADER_SIZE := 4
  const LEN_LIMIT := 0x1_0000_0000

  /** How a byte stream ends: the peer closes it, or the connection reports another error. */
  datatype Ending = Closed | Fault

  datatype ReadError = EndOfFile | UnexpectedEnd | TooLarge | IoFault

  /** The outcome of reading one frame, with the bytes left unread. */
  datatype ReadResult =
    | Payload(payload: Bytes, rest: Bytes)
    | Failed(error: ReadError, rest: Bytes)

  /** The outcome of reading frames until the first error. */
  datatype StreamResult = StreamResult(payloads: seq<Bytes>, error: ReadError, rest: Bytes)

  // ---------------------------------------------------------------- encoding

  /** The four big-endian bytes of a 32-bit value. */
  function Header(n: nat): (h: Bytes)
    requires n < LEN_LIMIT
    ensures |h| == HEADER_SIZE
  {
    [n / 0x100_0000, n / 0x1_0000 % 256, n / 256 % 256, n % 256]
  }

  function HeaderValue(h: Bytes): (n: nat)
    requires |h| == HEADER_SIZE
    ensures n < LEN_LIMIT
  {
    h[0] as int * 0x100_0000 + h[1] as int * 0x1_0000 + h[2] as int * 256 + h[3] as int
  }

  /** One frame. The length field is the payload length truncated to 32 bits. */
  function Encode(payload: Bytes): Bytes {
    Header(|payload| % LEN_LIMIT) + payload
  }

  function EncodeAll(payloads: seq<Bytes>): Bytes {
    if payloads == [] then [] else Encode(payloads[0]) + EncodeAll(payloads[1..])
  }

  // ---------------------------------------------------------------- decoding

  /** The error of a read that wanted more bytes than the stream still had. */
  function ShortRead(got: nat, ending: Ending): ReadError {
    if ending == Fault then IoFault else if got == 0 then EndOfFile else UnexpectedEnd
  }

  /** Reading one frame; a cap of zero means no cap. */
  function DecodeOne(input: Bytes, cap: nat, ending: Ending): ReadResult {
    if |input| < HEADER_SIZE then
      Failed(ShortRead(|input|, ending), [])
    else
      var n := HeaderValue(input[..HEADER_SIZE]);
      var body := input[HEADER_SIZE..];
      if cap != 0 && n > cap then Failed(TooLarge, body)
      else if n == 0 then Payload([], body)
      else if |body| < n then Failed(ShortRead(|body|, ending), [])
      else Payload(body[..n], body[n..])
  }

  function DecodeAll(input: Bytes, cap: nat, ending: Ending): StreamResult
    decreases |input|
  {
    match DecodeOne(input, cap, ending)
    case Failed(e, rest) => StreamResult([], e, rest)
    case Payload(p, rest) =>
      var tail := DecodeAll(rest, cap, ending);
      StreamResult([p] + tail.payloads, tail.error, tail.rest)
  }

  /** How the stream ends only decides which error ends the reading. */
  lemma EndingIsOnlyTheError(input: Bytes, cap: nat, ending: Ending)
    ensures var r, q := DecodeOne(input, cap, ending), DecodeOne(input, cap, Closed);
            (r.Payload? || q.Payload? ==> r == q) && r.rest == q.rest
  {
  }

  lemma DecodeNext(input: Bytes, cap: nat, ending: Ending)
    ensures var r, all := DecodeOne(input, cap, ending), DecodeAll(input, cap, ending);
            if r.Payload? then
              var tail := DecodeAll(r.rest, cap, ending);
              |r.rest| < |input| && all == StreamResult([r.payload] + tail.payloads, tail.error, tail.rest)
            else all == StreamResult([], r.error, r.rest)
  {
  }

  // ---------------------------------------------------------------- one frame

  /** A payload the reader's cap admits and the 32-bit length field can describe. */
  predicate Framable(payload: Bytes, cap: nat) {
    |payload| < LEN_LIMIT && (cap == 0 || |payload| <= cap)
  }

  lemma HeaderRoundTrip(n: nat)
    requires n < LEN_LIMIT
    ensures HeaderValue(Header(n)) == n
  {
    assert n / 0x1_0000 == n / 256 / 256 && n / 0x100_0000 == n / 256 / 256 / 256;
  }

  lemma HeaderUnique(h: Bytes)
    requires |h| == HEADER_SIZE
    ensures Header(HeaderValue(h)) == h
  {
    var n := HeaderValue(h);
    assert n / 256 == h[0] as int * 0x1_0000 + h[1] as int * 256 + h[2] as int;
    assert n / 0x1_0000 == h[0] as int * 256 + h[1] as int;
    assert n / 0x100_0000 == h[0] as int;
  }

  // ---------------------------------------------------------------- byte order

  /** The value of bytes as digits in base 256, the most significant first. */
  function BigEndian(bs: Bytes): nat {
    if bs == [] then 0 else 256 * BigEndian(bs[..|bs| - 1]) + bs[|bs| - 1]
  }

  /** A header reads as what its bytes mean in network byte order. */
  lemma HeaderIsBigEndian(h: Bytes)
    requires |h| == HEADER_SIZE
    ensures HeaderValue(h) == BigEndian(h)
  {
    assert h[..3][..2] == h[..2] && h[..2][..1] == h[..1] && h[..1][..0] == [];
    assert BigEndian(h[..1]) == h[0];
    assert BigEndian(h[..2]) == 256 * BigEndian(h[..1]) + h[1];
    assert BigEndian(h[..3]) == 256 * BigEndian(h[..2]) + h[2];
  }

  /** A frame is the payload's length in network byte order, modulo 2^32, and then the payload. */
  lemma FrameLayout(payload: Bytes)
    ensures var frame := Encode(payload);
            && |frame| == 4 + |payload| && frame[4..] == payload
            && BigEndian(frame[..4]) == |payload| % 0x1_0000_0000
            && (|payload| < 0x1_0000_0000 ==> BigEndian(frame[..4]) == |payload|)
  {
    var n := |payload| % LEN_LIMIT;
    assert Encode(payload)[..4] == Header(n);
    HeaderRoundTrip(n);
    HeaderIsBigEndian(Header(n));
    hide Header, HeaderValue, BigEndian;
  }

  /** What any input reads as, by the length that its first four bytes spell out: too large exactly
      when a cap is exceeded; the bytes after the header exactly when it is not and they are all
      there; and otherwise an error that tells a broken connection from a closed one, and a close
      with nothing after the header, or in its place, from one in the middle. */
  lemma ReadsByItsLength(input: Bytes, cap: nat, ending: Ending)
    ensures var r, n, size := DecodeOne(input, cap, ending), if |input| < 4 then 0 else BigEndian(input[..4]), |input|;
            && ((r.Failed? && r.error == TooLarge) <==> 4 <= size && 0 < cap < n)
            && (r.Payload? <==> 4 <= size && (cap == 0 || n <= cap) && 4 + n <= size)
            && (r.Payload? ==> |r.payload| == n && r.payload == input[4..4 + n] && r.rest == input[4 + n..])
            && (r.Failed? && r.error == TooLarge ==> r.rest == input[4..])
            && (r.Failed? && r.error != TooLarge ==>
                  && r.rest == []
                  && r.error == match ending
                                case Fault => IoFault
                                case Closed => if size == 0 || size == 4 then EndOfFile else UnexpectedEnd)
  {
    if |input| >= 4 {
      HeaderIsBigEndian(input[..4]);
    }
    hide HeaderValue, BigEndian;
  }

  // ---------------------------------------------------------------- round trips of one frame

  /** A frame followed by anything reads back as its payload and leaves the rest, exactly
      when the payload is framable. */
  lemma OneFrameRoundTrip(payload: Bytes, suffix: Bytes, cap: nat, ending: Ending)
    ensures DecodeOne(Encode(payload) + suffix, cap, ending) == Payload(payload, suffix)
            <==> Framable(payload, cap)
  {
    var input := Encode(payload) + suffix;
    var n := |payload| % LEN_LIMIT;
    assert input[..HEADER_SIZE] == Header(n);
    HeaderRoundTrip(n);
    assert input[HEADER_SIZE..] == payload + suffix;
    if Framable(payload, cap) {
      assert (payload + suffix)[..n] == payload && (payload + suffix)[n..] == suffix;
    } else if |payload| >= LEN_LIMIT {
      assert n < |payload|;
    }
  }

  /** The same for a stream: a framable payload comes off the front. */
  lemma FirstFrame(payload: Bytes, suffix: Bytes, cap: nat, ending: Ending)
    requires Framable(payload, cap)
    ensures var tail := DecodeAll(suffix, cap, ending);
            DecodeAll(Encode(payload) + suffix, cap, ending)
            == StreamResult([payload] + tail.payloads, tail.error, tail.rest)
  {
    OneFrameRoundTrip(payload, suffix, cap, ending);
  }

  /** A frame that is read off a stream is the encoding of its payload. */
  lemma OneFrameCanonical(input: Bytes, cap: nat, ending: Ending)
    requires DecodeOne(input, cap, ending).Payload?
    ensures var r := DecodeOne(input, cap, ending);
            input == Encode(r.payload) + r.rest && Framable(r.payload, cap)
  {
    var n := HeaderValue(input[..HEADER_SIZE]);
    HeaderUnique(input[..HEADER_SIZE]);
    hide Header, HeaderValue;
    ThreeParts(input, HEADER_SIZE, n);
    assert input[HEADER_SIZE..][..0] == [];
  }

  lemma ThreeParts(s: Bytes, i: nat, n: nat)
    requires i + n <= |s|
    ensures s == s[..i] + s[i..][..n] + s[i..][n..] && s[i..][0..] == s[i..]
  {
  }

  /** An over-cap frame consumes its four header bytes and nothing else. */
  lemma OverCapConsumesHeader(input: Bytes, cap: nat, ending: Ending)
    requires |input| >= HEADER_SIZE && cap != 0 && HeaderValue(input[..HEADER_SIZE]) > cap
    ensures DecodeAll(input, cap, ending) == StreamResult([], TooLarge, input[HEADER_SIZE..])
  {
  }

  // ---------------------------------------------------------------- whole streams

  predicate AllFramable(payloads: seq<Bytes>, cap: nat) {
    forall i :: 0 <= i < |payloads| ==> Framable(payloads[i], cap)
  }

  /** Decoding the concatenated frames yields exactly the payloads and then behaves as the
      suffix alone would. */
  lemma {:induction false} StreamRoundTrip(payloads: seq<Bytes>, suffix: Bytes, cap: nat, ending: Ending)
    requires AllFramable(payloads, cap)
    ensures var tail := DecodeAll(suffix, cap, ending);
            DecodeAll(EncodeAll(payloads) + suffix, cap, ending)
            == StreamResult(payloads + tail.payloads, tail.error, tail.rest)
  {
    hide Encode, DecodeOne;
    if payloads == [] {
      assert EncodeAll(payloads) + suffix == suffix;
      return;
    }
    var more := EncodeAll(payloads[1..]) + suffix;
    assert EncodeAll(payloads) + suffix == Encode(payloads[0]) + more;
    hide DecodeAll, EncodeAll;
    FirstFrame(payloads[0], more, cap, ending);
    StreamRoundTrip(payloads[1..], suffix, cap, ending);
    var tail := DecodeAll(suffix, cap, ending).payloads;
    assert [payloads[0]] + (payloads[1..] + tail) == payloads + tail;
  }

  /** Whatever a stream decodes to, the stream starts with the encoding of it. */
  lemma {:induction false} StreamCanonical(input: Bytes, cap: nat, ending: Ending)
    ensures AllFramable(DecodeAll(input, cap, ending).payloads, cap)
    ensures EncodeAll(DecodeAll(input, cap, ending).payloads) <= input
    decreases |input|
  {
    match DecodeOne(input, cap, ending) {
      case Failed(_, _) =>
      case Payload(p, rest) =>
        OneFrameCanonical(input, cap, ending);
        StreamCanonical(rest, cap, ending);
    }
  }

  /** A frame declared over the cap ends the stream there: the payloads before it are read, its
      four header bytes are consumed, and everything after them is left. */
  lemma OverCapStopsTheStream(payloads: seq<Bytes>, n: nat, rest: Bytes, cap: nat, ending: Ending)
    requires AllFramable(payloads, cap) && 0 < cap < n < LEN_LIMIT
    ensures DecodeAll(EncodeAll(payloads) + (Header(n) + rest), cap, ending) == StreamResult(payloads, TooLarge, rest)
  {
    HeaderRoundTrip(n);
    var bad := Header(n) + rest;
    assert bad[..HEADER_SIZE] == Header(n) && bad[HEADER_SIZE..] == rest;
    OverCapConsumesHeader(bad, cap, ending);
    StreamRoundTrip(payloads, bad, cap, ending);
    hide Header, HeaderValue, DecodeAll, EncodeAll;
    assert payloads + [] == payloads;
  }

  // ---------------------------------------------------------------- truncation

  /** How many of the payloads lie wholly within the first `cut` bytes of their encoding. */
  function WholeFrames(payloads: seq<Bytes>, cut: nat): (k: nat)
    ensures k <= |payloads|
    ensures |EncodeAll(payloads[..k])| <= cut
  {
    if payloads == [] || cut < |Encode(payloads[0])| then 0
    else
      var k := 1 + WholeFrames(payloads[1..], cut - |Encode(payloads[0])|);
      assert payloads[..k][1..] == payloads[1..][..k - 1];
      k
  }

  /** The count is the greatest one: the next frame does not fit. */
  lemma {:induction false} WholeFramesIsGreatest(payloads: seq<Bytes>, cut: nat)
    requires WholeFrames(payloads, cut) < |payloads|
    ensures cut < |EncodeAll(payloads[..WholeFrames(payloads, cut) + 1])|
  {
    if cut < |Encode(payloads[0])| {
      assert payloads[..1][1..] == [];
    } else {
      var k := WholeFrames(payloads, cut);
      WholeFramesIsGreatest(payloads[1..], cut - |Encode(payloads[0])|);
      assert payloads[..k + 1][1..] == payloads[1..][..k];
    }
  }

  /** The error at the end of a truncated stream: a cut on a frame boundary, and a cut right
      after a complete header, both look like a clean close. */
  function CutError(overhang: nat): ReadError {
    if overhang == 0 || overhang == HEADER_SIZE then EndOfFile else UnexpectedEnd
  }

  lemma CutFrame(payload: Bytes, cut: nat, cap: nat)
    requires Framable(payload, cap) && HEADER_SIZE <= cut < |Encode(payload)|
    ensures var input := Encode(payload)[..cut];
            HeaderValue(input[..HEADER_SIZE]) == |payload| && |input[HEADER_SIZE..]| == cut - HEADER_SIZE < |payload|
  {
    assert |payload| % LEN_LIMIT == |payload|;
    assert Encode(payload)[..cut][..HEADER_SIZE] == Header(|payload|);
    HeaderRoundTrip(|payload|);
  }

  lemma TruncatedFrame(payload: Bytes, cut: nat, cap: nat)
    requires Framable(payload, cap) && cut < |Encode(payload)|
    ensures DecodeAll(Encode(payload)[..cut], cap, Closed) == StreamResult([], CutError(cut), [])
  {
    if cut >= HEADER_SIZE {
      CutFrame(payload, cut, cap);
    }
    hide Encode, Header, HeaderValue;
    assert DecodeOne(Encode(payload)[..cut], cap, Closed) == Failed(CutError(cut), []);
  }

  lemma CutAfterFirstFrame(payloads: seq<Bytes>, cut: nat)
    requires payloads != [] && |Encode(payloads[0])| <= cut <= |EncodeAll(payloads)|
    ensures var first, more := Encode(payloads[0]), EncodeAll(payloads[1..]);
            var k, left := WholeFrames(payloads, cut), cut - |first|;
            && left <= |more| && k - 1 == WholeFrames(payloads[1..], left)
            && EncodeAll(payloads)[..cut] == first + more[..left]
            && |EncodeAll(payloads[..k])| == |first| + |EncodeAll(payloads[1..][..k - 1])|
  {
    hide Encode;
    var k := WholeFrames(payloads, cut);
    assert payloads[..k][1..] == payloads[1..][..k - 1];
  }

  predicate DecodesTruncated(payloads: seq<Bytes>, cut: nat, cap: nat)
    requires cut <= |EncodeAll(payloads)|
  {
    var k := WholeFrames(payloads, cut);
    DecodeAll(EncodeAll(payloads)[..cut], cap, Closed)
    == StreamResult(payloads[..k], CutError(cut - |EncodeAll(payloads[..k])|), [])
  }

  /** Every truncation decodes to the wholly contained payloads and then the error above. */
  lemma {:induction false} TruncatedStream(payloads: seq<Bytes>, cut: nat, cap: nat)
    requires AllFramable(payloads, cap) && cut <= |EncodeAll(payloads)|
    ensures DecodesTruncated(payloads, cut, cap)
  {
    hide Encode, DecodeOne, DecodesTruncated;
    if payloads == [] {
      EmptyStream(cap);
    } else if cut < |Encode(payloads[0])| {
      CutInFirstFrame(payloads, cut, cap);
    } else {
      TruncatedStream(payloads[1..], cut - |Encode(payloads[0])|, cap);
      CutLater(payloads, cut, cap);
    }
  }

  lemma EmptyStream(cap: nat)
    ensures DecodesTruncated([], 0, cap)
  {
  }

  lemma CutInFirstFrame(payloads: seq<Bytes>, cut: nat, cap: nat)
    requires payloads != [] && Framable(payloads[0], cap) && cut < |Encode(payloads[0])|
    ensures DecodesTruncated(payloads, cut, cap)
  {
    TruncatedFrame(payloads[0], cut, cap);
    hide Encode, DecodeOne, DecodeAll;
    assert EncodeAll(payloads)[..cut] == Encode(payloads[0])[..cut];
  }

  lemma CutLater(payloads: seq<Bytes>, cut: nat, cap: nat)
    requires payloads != [] && Framable(payloads[0], cap) && |Encode(payloads[0])| <= cut <= |EncodeAll(payloads)|
    requires DecodesTruncated(payloads[1..], cut - |Encode(payloads[0])|, cap)
    ensures DecodesTruncated(payloads, cut, cap)
  {
    CutAfterFirstFrame(payloads, cut);
    FrontOf(payloads, WholeFrames(payloads, cut));
    var first, more := Encode(payloads[0]), EncodeAll(payloads[1..]);
    var k, left := WholeFrames(payloads, cut), cut - |first|;
    hide DecodeAll, DecodeOne, EncodeAll, Encode, WholeFrames;
    FirstFrame(payloads[0], more[..left], cap, Closed);
  }

  lemma FrontOf(payloads: seq<Bytes>, k: nat)
    requires 0 < k <= |payloads|
    ensures [payloads[0]] + payloads[1..][..k - 1] == payloads[..k]
  {
  }

  /** A cut anywhere but on a frame boundary is meant to give an unexpected end of file. It does,
      exactly unless the cut comes right after a complete header. */
  lemma PromisedErrorExactlyWhen(payloads: seq<Bytes>, cut: nat, cap: nat)
    requires AllFramable(payloads, cap) && cut <= |EncodeAll(payloads)|
    requires cut != |EncodeAll(payloads[..WholeFrames(payloads, cut)])|
    ensures DecodeAll(EncodeAll(payloads)[..cut], cap, Closed).error == UnexpectedEnd
            <==> cut != |EncodeAll(payloads[..WholeFrames(payloads, cut)])| + HEADER_SIZE
  {
    TruncatedStream(payloads, cut, cap);
    hide DecodeAll, EncodeAll, WholeFrames;
  }

  /** The header of a one-byte frame, and then nothing, reads as a clean close. */
  lemma HeaderAloneLooksClosed()
    ensures DecodeAll([0, 0, 0, 1], 0, Closed) == StreamResult([], EndOfFile, [])
  {
    assert [0, 0, 0, 1][..HEADER_SIZE] == [0, 0, 0, 1];
  }
}
