/** Reading and writing frames over a connection that delivers and takes bytes in pieces. */
module FrameIO {
  import opened Frame

  /** The bytes that some pieces make up. */
  function Joined(chunks: seq<Bytes>): Bytes {
    if chunks == [] then [] else chunks[0] + Joined(chunks[1..])
  }

  /** The receiving end of a connection: the pieces that will arrive, and how it ends. */
  class Source {
    var chunks: seq<Bytes>
    const ending: Ending

    constructor (chunks: seq<Bytes>, ending: Ending)
      ensures this.chunks == chunks && this.ending == ending
    {
      this.chunks, this.ending := chunks, ending;
    }

    ghost function Remaining(): Bytes
      reads this
    {
      Joined(chunks)
    }

    /** One read into buf from off on: at most one piece, possibly nothing, never past the end
        of buf. */
    method Read(buf: array<Byte>, off: nat) returns (n: nat, done: bool)
      requires off <= buf.Length
      modifies this`chunks, buf
      ensures off + n <= buf.Length && buf[..off] == old(buf[..off])
      ensures buf[off..off + n] + Remaining() == old(Remaining())
      ensures done ==> n == 0 && old(chunks) == [] == chunks
      ensures !done ==> n > 0 || |chunks| < old(|chunks|) || off == buf.Length
      ensures |chunks| <= old(|chunks|)
    {
      if chunks == [] {
        return 0, true;
      }
      var first := chunks[0];
      n, done := if |first| <= buf.Length - off then |first| else buf.Length - off, false;
      forall i | 0 <= i < n {
        buf[off + i] := first[i];
      }
      assert buf[off..off + n] == first[..n];
      chunks := if n == |first| then chunks[1..] else [first[n..]] + chunks[1..];
      assert n < |first| ==> first[..n] + first[n..] == first;
    }

    /** Reading until buf is full. */
    method ReadFull(buf: array<Byte>) returns (ok: bool, error: ReadError)
      modifies this`chunks, buf
      ensures ok <==> |old(Remaining())| >= buf.Length
      ensures ok ==> buf[..] + Remaining() == old(Remaining())
      ensures !ok ==> Remaining() == [] && error == ShortRead(|old(Remaining())|, ending)
    {
      var got: nat, done := 0, false;
      error := EndOfFile;
      while got < buf.Length && !done
        invariant got <= buf.Length && buf[..got] + Remaining() == old(Remaining())
        invariant done ==> Remaining() == []
        decreases !done, |chunks|, buf.Length - got
      {
        var n;
        ghost var before := buf[..got];
        n, done := Read(buf, got);
        assert buf[..got + n] == before + buf[got..got + n];
        got := got + n;
      }
      ok := got >= buf.Length;
      assert buf[..got] == buf[..] || got < buf.Length;
      if !ok {
        error := ShortRead(got, ending);
      }
    }
  }

  /** Reads one frame: whatever pieces the bytes come in, the result and the bytes left are
      those of decoding the stream they make up. */
  method ReadFrame(src: Source, cap: nat) returns (ok: bool, payload: Bytes, error: ReadError)
    modifies src`chunks
    ensures match DecodeOne(old(src.Remaining()), cap, src.ending)
            case Payload(p, rest) => ok && payload == p && src.Remaining() == rest
            case Failed(e, rest) => !ok && error == e && src.Remaining() == rest
  {
    payload, error := [], EndOfFile;
    var header := new Byte[HEADER_SIZE](_ => 0);
    ok, error := src.ReadFull(header);
    if !ok {
      return;
    }
    ghost var input := old(src.Remaining());
    assert input[..HEADER_SIZE] == header[..] && input[HEADER_SIZE..] == src.Remaining();
    var n := HeaderValue(header[..]);
    if cap != 0 && n > cap {
      return false, [], TooLarge;
    }
    if n == 0 {
      return true, [], error;
    }
    ghost var body := src.Remaining();
    var buf := new Byte[n](_ => 0);
    ok, error := src.ReadFull(buf);
    if ok {
      payload := buf[..];
      assert body[..n] == payload && body[n..] == src.Remaining();
    }
  }

  lemma Joins(a: seq<Bytes>, b: seq<Bytes>, c: seq<Bytes>)
    ensures a + (b + c) == (a + b) + c && a + [] == a
  {
  }

  /** Reads frames until the first error, as a connection's reader does. */
  method ReadAll(src: Source, cap: nat) returns (payloads: seq<Bytes>, error: ReadError)
    modifies src`chunks
    ensures StreamResult(payloads, error, src.Remaining()) == DecodeAll(old(src.Remaining()), cap, src.ending)
  {
    payloads := [];
    ghost var input := src.Remaining();
    while true
      invariant var tail := DecodeAll(src.Remaining(), cap, src.ending);
                DecodeAll(input, cap, src.ending) == StreamResult(payloads + tail.payloads, tail.error, tail.rest)
      decreases |src.Remaining()|
    {
      DecodeNext(src.Remaining(), cap, src.ending);
      hide DecodeOne, DecodeAll;
      var ok, payload, e := ReadFrame(src, cap);
      if !ok {
        Joins(payloads, [], []);
        return payloads, e;
      }
      Joins(payloads, [payload], DecodeAll(src.Remaining(), cap, src.ending).payloads);
      payloads := payloads + [payload];
    }
  }

  /** The sending end of a connection, which may break after some more bytes. */
  class Sink {
    var sent: Bytes
    var room: nat
    const reliable: bool

    constructor (room: nat, reliable: bool)
      ensures sent == [] && this.room == room && this.reliable == reliable
    {
      this.sent, this.room, this.reliable := [], room, reliable;
    }

    method Write(bytes: Bytes) returns (ok: bool)
      modifies this
      ensures ok <==> reliable || |bytes| <= old(room)
      ensures ok ==> sent == old(sent) + bytes
      ensures !ok ==> exists k :: 0 <= k < |bytes| && sent == old(sent) + bytes[..k]
    {
      ok := reliable || |bytes| <= room;
      if ok {
        sent, room := sent + bytes, if |bytes| <= room then room - |bytes| else 0;
      } else {
        sent, room := sent + bytes[..room], 0;
      }
    }
  }

  /** Writes one frame: all of it, or a proper front of it and an error. */
  method WriteFrame(out: Sink, payload: Bytes) returns (ok: bool)
    modifies out
    ensures ok ==> out.sent == old(out.sent) + Encode(payload)
    ensures !ok ==> exists k :: 0 <= k < |Encode(payload)| && out.sent == old(out.sent) + Encode(payload)[..k]
    ensures out.reliable ==> ok
  {
    var header := Header(|payload| % LEN_LIMIT);
    ok := out.Write(header);
    if !ok {
      ghost var k :| 0 <= k < |header| && out.sent == old(out.sent) + header[..k];
      assert header[..k] == Encode(payload)[..k];
      return;
    }
    if |payload| == 0 {
      assert Encode(payload) == header;
      return;
    }
    ghost var before := out.sent;
    ok := out.Write(payload);
    if !ok {
      ghost var k :| 0 <= k < |payload| && out.sent == before + payload[..k];
      assert header + payload[..k] == Encode(payload)[..HEADER_SIZE + k];
    }
  }

  /** Writes frames until one fails, as a connection's writer does. */
  method WriteAll(out: Sink, payloads: seq<Bytes>) returns (done: nat)
    modifies out
    ensures done <= |payloads| && (out.reliable ==> done == |payloads|)
    ensures done == |payloads| ==> out.sent == old(out.sent) + EncodeAll(payloads)
    ensures done < |payloads| ==>
              exists k :: 0 <= k < |Encode(payloads[done])|
                          && out.sent == old(out.sent) + EncodeAll(payloads[..done]) + Encode(payloads[done])[..k]
  {
    done := 0;
    while done < |payloads|
      invariant done <= |payloads| && out.sent == old(out.sent) + EncodeAll(payloads[..done])
    {
      ghost var before := out.sent;
      var ok := WriteFrame(out, payloads[done]);
      if !ok {
        ghost var k :| 0 <= k < |Encode(payloads[done])| && out.sent == before + Encode(payloads[done])[..k];
        return;
      }
      EncodeAllAppend(payloads[..done], payloads[done]);
      assert payloads[..done] + [payloads[done]] == payloads[..done + 1];
      done := done + 1;
    }
    assert payloads[..done] == payloads;
  }

  lemma {:induction false} EncodeAllAppend(payloads: seq<Bytes>, last: Bytes)
    ensures EncodeAll(payloads + [last]) == EncodeAll(payloads) + Encode(last)
  {
    hide Encode;
    if payloads == [] {
      assert [last][1..] == [];
    } else {
      assert (payloads + [last])[1..] == payloads[1..] + [last];
      EncodeAllAppend(payloads[1..], last);
    }
  }

  /** What one end writes the other end reads, however the bytes are cut up on the way. */
  method Transfer(payloads: seq<Bytes>, cap: nat, cut: Bytes -> seq<Bytes>)
    returns (received: seq<Bytes>, error: ReadError)
    requires AllFramable(payloads, cap) && forall b :: Joined(cut(b)) == b
    ensures received == payloads && error == EndOfFile
  {
    var out := new Sink(0, true);
    var done := WriteAll(out, payloads);
    var src := new Source(cut(out.sent), Closed);
    StreamRoundTrip(payloads, [], cap, Closed);
    assert EncodeAll(payloads) + [] == [] + EncodeAll(payloads) == EncodeAll(payloads);
    received, error := ReadAll(src, cap);
  }
}
