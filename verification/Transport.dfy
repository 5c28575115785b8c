// Reassembly of frames from a byte stream that arrives in arbitrary pieces
// (Connection::read_frame in src/transport.rs).
module Transport {
  import opened ByteStrings
  import opened Wire

  const CHUNK: nat := 64 * 1024
  const MAX_BUFFER: nat := MAX_FRAME_PAYLOAD + HEADER_LEN + 1

  datatype ReadResult = Received(frame: Frame) | Broken(error: WireError) | Overflow | Eof

  function Flatten(chunks: seq<Bytes>): Bytes {
    if chunks == [] then [] else chunks[0] + Flatten(chunks[1..])
  }

  // Each read yields between one byte and a chunk.
  ghost predicate Legal(chunks: seq<Bytes>) {
    forall c :: c in chunks ==> 0 < |c| <= CHUNK
  }

  class Connection {
    var readBuf: Bytes
    var arriving: seq<Bytes>      // what the socket will deliver, read by read
    const crc: Bytes -> u32

    ghost predicate Valid()
      reads this
    {
      Legal(arriving) && |readBuf| < MAX_FRAME_PAYLOAD + HEADER_LEN + CHUNK
    }

    // Everything received and not yet handed out, and everything still to come.
    ghost function Stream(): Bytes
      reads this
    {
      readBuf + Flatten(arriving)
    }

    constructor (chunks: seq<Bytes>, checksum: Bytes -> u32)
      requires Legal(chunks)
      ensures Valid() && readBuf == [] && arriving == chunks && crc == checksum && Stream() == Flatten(chunks)
    {
      readBuf, arriving, crc := [], chunks, checksum;
    }

    // The outcome depends on the stream alone, never on how it was cut, and the
    // overflow error is never reported.
    method ReadFrame() returns (r: ReadResult)
      requires Valid()
      modifies this
      ensures Valid()
      ensures match Decode(old(Stream()), crc)
              case Got(frame, consumed) => r == Received(frame) && Stream() == old(Stream())[consumed..]
              case Bad(error) => r == Broken(error)
              case More => r == Eof && arriving == [] && readBuf == old(Stream())
    {
      ghost var stream := Stream();
      while true
        invariant Valid() && Stream() == stream
        decreases |arriving|
      {
        MoreIsBounded(readBuf, crc);
        DecodeIsMonotone(readBuf, Flatten(arriving), crc);
        match Decode(readBuf, crc) {
          case Got(frame, consumed) =>
            readBuf := readBuf[consumed..];
            assert Stream() == stream[consumed..];
            return Received(frame);
          case Bad(error) =>
            return Broken(error);
          case More =>
        }
        if |readBuf| > MAX_BUFFER {
          assert false;
        }
        if arriving == [] {
          assert readBuf == stream;
          return Eof;
        }
        var chunk := arriving[0];
        assert chunk in arriving;
        readBuf, arriving := readBuf + chunk, arriving[1..];
      }
    }

    // Reading until the connection ends returns exactly the frames that were sent, in
    // order, and leaves the buffer empty.
    method ReadAll(ghost sent: seq<Frame>) returns (frames: seq<Frame>, last: ReadResult)
      requires Valid() && Legals(sent) && Stream() == EncodedAll(sent, crc)
      modifies this
      ensures Valid() && frames == sent && last == Eof && readBuf == []
    {
      frames := [];
      while true
        invariant Valid() && |frames| <= |sent| && frames == sent[..|frames|]
        invariant Stream() == EncodedAll(sent[|frames|..], crc)
        decreases |sent| - |frames|
      {
        ghost var rest := sent[|frames|..];
        assert forall f :: f in rest ==> f in sent;
        StreamOfFrames(rest, crc);
        hide EncodedAll, Decode, Encoded;
        last := ReadFrame();
        if !last.Received? {
          assert rest == [];
          return;
        }
        assert rest != [] && rest[0] == sent[|frames|] && rest[1..] == sent[|frames| + 1..];
        frames := frames + [last.frame];
      }
    }
  }

  // ---------------- streams of whole frames ----------------

  function EncodedAll(frames: seq<Frame>, crc: Bytes -> u32): Bytes {
    if frames == [] then [] else Encoded(frames[0], crc) + EncodedAll(frames[1..], crc)
  }

  ghost predicate Legals(frames: seq<Frame>) {
    forall f :: f in frames ==> |f.payload| <= MAX_FRAME_PAYLOAD
  }

  // What decode finds at the head of a stream of frames.
  ghost predicate NextOf(stream: Bytes, frames: seq<Frame>, crc: Bytes -> u32) {
    if frames == [] then Decode(stream, crc) == More && stream == []
    else
      Decode(stream, crc).Got? && Decode(stream, crc).frame == frames[0] && Decode(stream, crc).consumed <= |stream|
      && stream[Decode(stream, crc).consumed..] == EncodedAll(frames[1..], crc)
  }

  lemma StreamOfFrames(frames: seq<Frame>, crc: Bytes -> u32)
    requires Legals(frames)
    ensures NextOf(EncodedAll(frames, crc), frames, crc)
  {
    if frames != [] {
      DecodeInvertsEncode(frames[0], crc, EncodedAll(frames[1..], crc));
    }
  }
}
