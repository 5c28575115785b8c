// The framed wire format: magic, version, op, flags, request id, payload length and a
// checksum over header and payload (src/protocol.rs).
module Wire {
  import opened Wrappers
  import opened ByteStrings

  newtype u32 = x: int | 0 <= x < 0x1_0000_0000
  newtype u64 = x: int | 0 <= x < 0x1_0000_0000_0000_0000

  const MAGIC: Bytes := [0x43, 0x46, 0x41, 0x42]
  const PROTOCOL_VERSION: byte := 1
  const MAX_FRAME_PAYLOAD: nat := 16 * 1024 * 1024
  const HEADER_LEN: nat := 24

  datatype Op =
    | Ping | Pong | Hello | HelloAck | WorkloadCreate | WorkloadInspect | WorkloadList | WorkloadFence
    | WorkloadLineage | WorkloadAttach | WorkloadDetach | Capture | CaptureStatus | CheckpointInspect
    | CheckpointList | CheckpointVerify | CheckpointProtect | CheckpointUnprotect | CheckpointRetire
    | CheckpointLineage | Restore | Rollback | Fork | Migrate | Compatibility | Audit | Recovery | Stats | NodeList
    | NodeInfo | CoordinatorShutdown | NodeRegister | NodeRegisterAck | NodeHeartbeat | NodeHeartbeatAck
    | NodeCaptureResult | NodeRestoreResult | NodeVerifyResult | NodeCleanupResult | NodeReplicateResult
    | NodeCaptureRequest | NodeRestoreRequest | NodeReplicateRequest | NodeCleanupRequest | NodeVerifyRequest
    | NodeDetachRequest | NodeAllowFetch | NodePromoteRequest | NodePromoteResult | NodeResumeRequest
    | NodeResumeResult | FetchManifest | FetchComponent | FetchChunkResponse | NodeProbeRequest | NodeProbeResult

  // op as u8
  function Code(op: Op): byte {
    match op
    case Ping => 1
    case Pong => 2
    case Hello => 3
    case HelloAck => 4
    case WorkloadCreate => 10
    case WorkloadInspect => 11
    case WorkloadList => 12
    case WorkloadFence => 13
    case WorkloadLineage => 14
    case WorkloadAttach => 15
    case WorkloadDetach => 16
    case Capture => 20
    case CaptureStatus => 21
    case CheckpointInspect => 22
    case CheckpointList => 23
    case CheckpointVerify => 24
    case CheckpointProtect => 25
    case CheckpointUnprotect => 26
    case CheckpointRetire => 27
    case CheckpointLineage => 28
    case Restore => 30
    case Rollback => 31
    case Fork => 32
    case Migrate => 33
    case Compatibility => 40
    case Audit => 41
    case Recovery => 42
    case Stats => 43
    case NodeList => 44
    case NodeInfo => 45
    case CoordinatorShutdown => 46
    case NodeRegister => 50
    case NodeRegisterAck => 51
    case NodeHeartbeat => 52
    case NodeHeartbeatAck => 53
    case NodeCaptureResult => 54
    case NodeRestoreResult => 55
    case NodeVerifyResult => 56
    case NodeCleanupResult => 57
    case NodeReplicateResult => 58
    case NodeCaptureRequest => 70
    case NodeRestoreRequest => 71
    case NodeReplicateRequest => 72
    case NodeCleanupRequest => 73
    case NodeVerifyRequest => 74
    case NodeDetachRequest => 75
    case NodeAllowFetch => 76
    case NodePromoteRequest => 77
    case NodePromoteResult => 78
    case NodeResumeRequest => 79
    case NodeResumeResult => 80
    case FetchManifest => 90
    case FetchComponent => 91
    case FetchChunkResponse => 92
    case NodeProbeRequest => 93
    case NodeProbeResult => 94
  }

  // Op::from_u8
  function FromCode(v: byte): Option<Op> {
    match v
    case 1 => Some(Ping)
    case 2 => Some(Pong)
    case 3 => Some(Hello)
    case 4 => Some(HelloAck)
    case 10 => Some(WorkloadCreate)
    case 11 => Some(WorkloadInspect)
    case 12 => Some(WorkloadList)
    case 13 => Some(WorkloadFence)
    case 14 => Some(WorkloadLineage)
    case 15 => Some(WorkloadAttach)
    case 16 => Some(WorkloadDetach)
    case 20 => Some(Capture)
    case 21 => Some(CaptureStatus)
    case 22 => Some(CheckpointInspect)
    case 23 => Some(CheckpointList)
    case 24 => Some(CheckpointVerify)
    case 25 => Some(CheckpointProtect)
    case 26 => Some(CheckpointUnprotect)
    case 27 => Some(CheckpointRetire)
    case 28 => Some(CheckpointLineage)
    case 30 => Some(Restore)
    case 31 => Some(Rollback)
    case 32 => Some(Fork)
    case 33 => Some(Migrate)
    case 40 => Some(Compatibility)
    case 41 => Some(Audit)
    case 42 => Some(Recovery)
    case 43 => Some(Stats)
    case 44 => Some(NodeList)
    case 45 => Some(NodeInfo)
    case 46 => Some(CoordinatorShutdown)
    case 50 => Some(NodeRegister)
    case 51 => Some(NodeRegisterAck)
    case 52 => Some(NodeHeartbeat)
    case 53 => Some(NodeHeartbeatAck)
    case 54 => Some(NodeCaptureResult)
    case 55 => Some(NodeRestoreResult)
    case 56 => Some(NodeVerifyResult)
    case 57 => Some(NodeCleanupResult)
    case 58 => Some(NodeReplicateResult)
    case 70 => Some(NodeCaptureRequest)
    case 71 => Some(NodeRestoreRequest)
    case 72 => Some(NodeReplicateRequest)
    case 73 => Some(NodeCleanupRequest)
    case 74 => Some(NodeVerifyRequest)
    case 75 => Some(NodeDetachRequest)
    case 76 => Some(NodeAllowFetch)
    case 77 => Some(NodePromoteRequest)
    case 78 => Some(NodePromoteResult)
    case 79 => Some(NodeResumeRequest)
    case 80 => Some(NodeResumeResult)
    case 90 => Some(FetchManifest)
    case 91 => Some(FetchComponent)
    case 92 => Some(FetchChunkResponse)
    case 93 => Some(NodeProbeRequest)
    case 94 => Some(NodeProbeResult)
    case _ => None
  }

  lemma CodeIsDecoded(op: Op)
    ensures FromCode(Code(op)) == Some(op)
  {
    if Code(op) < 40 { LowOps(op); } else { HighOps(op); }
    hide FromCode, Code;
  }

  lemma LowOps(op: Op)
    requires Code(op) < 40
    ensures FromCode(Code(op)) == Some(op)
  {}

  lemma HighOps(op: Op)
    requires Code(op) >= 40
    ensures FromCode(Code(op)) == Some(op)
  {}

  lemma DecodedIsCode(v: byte)
    ensures FromCode(v).Some? ==> Code(FromCode(v).value) == v
  {
    if v < 40 { LowCodes(v); } else { HighCodes(v); }
    hide FromCode, Code;
  }

  lemma LowCodes(v: byte)
    requires v < 40
    ensures FromCode(v).Some? ==> Code(FromCode(v).value) == v
  {}

  lemma HighCodes(v: byte)
    requires 40 <= v
    ensures FromCode(v).Some? ==> Code(FromCode(v).value) == v
  {}

  datatype Frame = Frame(op: Op, flags: byte, requestId: u64, payload: Bytes)

  // ---------------- big-endian integers ----------------

  function Power(k: nat): (n: nat)
    ensures n >= 1
  {
    if k == 0 then 1 else 256 * Power(k - 1)
  }

  // to_be_bytes of a k-byte integer
  function BigEndian(n: nat, k: nat): (b: Bytes)
    ensures |b| == k
  {
    if k == 0 then [] else BigEndian(n / 256, k - 1) + [(n % 256) as byte]
  }

  // from_be_bytes
  function FromBigEndian(b: Bytes): nat {
    if b == [] then 0 else FromBigEndian(b[..|b| - 1]) * 256 + b[|b| - 1] as nat
  }

  lemma {:induction false} IntegersSurvive(n: nat, k: nat)
    requires n < Power(k)
    ensures FromBigEndian(BigEndian(n, k)) == n
    decreases k
  {
    if k > 0 {
      IntegersSurvive(n / 256, k - 1);
      assert BigEndian(n, k)[..k - 1] == BigEndian(n / 256, k - 1);
    }
  }

  lemma {:induction false} BytesSurvive(b: Bytes)
    ensures FromBigEndian(b) < Power(|b|)
    ensures BigEndian(FromBigEndian(b), |b|) == b
    decreases |b|
  {
    if b != [] {
      BytesSurvive(b[..|b| - 1]);
      assert b == b[..|b| - 1] + [b[|b| - 1]];
    }
  }

  lemma Widths()
    ensures Power(4) == 0x1_0000_0000 && Power(8) == 0x1_0000_0000_0000_0000
  {
    assert Power(2) == 65536;
    assert Power(4) == 65536 * Power(2);
    assert Power(6) == 65536 * Power(4);
  }

  // ---------------- encoding ----------------

  // The bytes the checksum covers ahead of the payload.
  function Head(f: Frame): (b: Bytes)
    ensures |b| == 20
  {
    MAGIC + [PROTOCOL_VERSION, Code(f.op), f.flags, 0] + BigEndian(f.requestId as nat, 8) + BigEndian(|f.payload|, 4)
  }

  // The wire form of a frame that is not too long; crc is CRC-32C.
  function Encoded(f: Frame, crc: Bytes -> u32): (b: Bytes)
    ensures |b| == HEADER_LEN + |f.payload|
  {
    Head(f) + BigEndian(crc(Head(f) + f.payload) as nat, 4) + f.payload
  }

  datatype WireError = PayloadTooLong | BadMagic | BadVersion | UnknownOp | ChecksumMismatch

  method Encode(f: Frame, crc: Bytes -> u32) returns (r: Result<Bytes, WireError>)
    ensures r == if |f.payload| > MAX_FRAME_PAYLOAD then Err(PayloadTooLong) else Ok(Encoded(f, crc))
  {
    if |f.payload| > MAX_FRAME_PAYLOAD { return Err(PayloadTooLong); }
    var out: Bytes := MAGIC;
    out := out + [PROTOCOL_VERSION];
    out := out + [Code(f.op)];
    out := out + [f.flags];
    out := out + [0];
    out := out + BigEndian(f.requestId as nat, 8);
    out := out + BigEndian(|f.payload|, 4);
    assert out == Head(f);
    out := out + BigEndian(crc(out + f.payload) as nat, 4);
    out := out + f.payload;
    r := Ok(out);
  }

  // ---------------- decoding ----------------

  // What decode says of a buffer: not enough yet, a frame and how many bytes it took,
  // or a broken connection.
  datatype Decoded = More | Got(frame: Frame, consumed: nat) | Bad(error: WireError)

  function PayloadLength(buf: Bytes): nat
    requires |buf| >= HEADER_LEN
  {
    FromBigEndian(buf[16..20])
  }

  function RequestId(buf: Bytes): u64
    requires |buf| >= HEADER_LEN
  {
    BytesSurvive(buf[8..16]);
    Widths();
    FromBigEndian(buf[8..16]) as u64
  }

  function Decode(buf: Bytes, crc: Bytes -> u32): Decoded {
    if |buf| < HEADER_LEN then More
    else if buf[0..4] != MAGIC then Bad(BadMagic)
    else if buf[4] != PROTOCOL_VERSION then Bad(BadVersion)
    else if FromCode(buf[5]).None? then Bad(UnknownOp)
    else if PayloadLength(buf) > MAX_FRAME_PAYLOAD then Bad(PayloadTooLong)
    else
      var total := HEADER_LEN + PayloadLength(buf);
      if |buf| < total then More
      else if crc(buf[..20] + buf[24..total]) as nat != FromBigEndian(buf[20..24]) then Bad(ChecksumMismatch)
      else Got(Frame(FromCode(buf[5]).value, buf[6], RequestId(buf), buf[24..total]), total)
  }

  // ---------------- the codec laws ----------------

  // Where the fields of an encoded frame lie, whatever follows it.
  lemma Layout(f: Frame, crc: Bytes -> u32, rest: Bytes)
    ensures var e := Encoded(f, crc) + rest;
            && |e| >= HEADER_LEN && e[0..4] == MAGIC && e[4] == PROTOCOL_VERSION && e[5] == Code(f.op)
            && e[6] == f.flags && e[7] == 0
            && e[8..16] == BigEndian(f.requestId as nat, 8) && e[16..20] == BigEndian(|f.payload|, 4)
            && e[..20] == Head(f)
            && e[20..24] == BigEndian(crc(Head(f) + f.payload) as nat, 4)
            && e[24..24 + |f.payload|] == f.payload
  {}

  // decode inverts encode on any buffer that starts with a legal frame.
  lemma DecodeInvertsEncode(f: Frame, crc: Bytes -> u32, rest: Bytes)
    requires |f.payload| <= MAX_FRAME_PAYLOAD
    ensures Decode(Encoded(f, crc) + rest, crc) == Got(f, |Encoded(f, crc)|)
  {
    Layout(f, crc, rest);
    CodeIsDecoded(f.op);
    Widths();
    IntegersSurvive(f.requestId as nat, 8);
    IntegersSurvive(|f.payload|, 4);
    IntegersSurvive(crc(Head(f) + f.payload) as nat, 4);
    hide Encoded, Head, BigEndian, FromBigEndian, Code, FromCode, Power;
  }

  // An accepted frame is encoded as the very bytes it was read from, exactly when the
  // reserved byte, which decode does not look at, is zero.
  lemma DecodedBytesReencode(buf: Bytes, crc: Bytes -> u32)
    requires Decode(buf, crc).Got?
    ensures var Got(f, n) := Decode(buf, crc);
            n <= |buf| && |f.payload| <= MAX_FRAME_PAYLOAD && (Encoded(f, crc) == buf[..n] <==> buf[7] == 0)
  {
    var Got(f, n) := Decode(buf, crc);
    DecodedIsCode(buf[5]);
    BytesSurvive(buf[8..16]);
    BytesSurvive(buf[16..20]);
    BytesSurvive(buf[20..24]);
    Layout(f, crc, []);
    assert Encoded(f, crc) + [] == Encoded(f, crc);
    hide Encoded, BigEndian, FromBigEndian, Code, FromCode, Power, Decode;
    if buf[7] == 0 {
      HeadIsPrefix(buf, f);
      assert buf[..n] == buf[..20] + buf[20..24] + buf[24..n];
      EncodedParts(f, crc);
    }
  }

  lemma EncodedParts(f: Frame, crc: Bytes -> u32)
    ensures Encoded(f, crc) == Head(f) + BigEndian(crc(Head(f) + f.payload) as nat, 4) + f.payload
  {}

  lemma HeadIsPrefix(buf: Bytes, f: Frame)
    requires |buf| >= HEADER_LEN && buf[0..4] == MAGIC && buf[4] == PROTOCOL_VERSION && buf[5] == Code(f.op)
    requires buf[6] == f.flags && buf[7] == 0
    requires buf[8..16] == BigEndian(f.requestId as nat, 8) && buf[16..20] == BigEndian(|f.payload|, 4)
    ensures Head(f) == buf[..20]
  {
    hide BigEndian, Code;
    assert buf[..20] == buf[0..4] + [buf[4], buf[5], buf[6], buf[7]] + buf[8..16] + buf[16..20];
  }

  // What decode has settled, more bytes do not change.
  lemma DecodeIsMonotone(buf: Bytes, more: Bytes, crc: Bytes -> u32)
    ensures Decode(buf, crc).More? || Decode(buf + more, crc) == Decode(buf, crc)
  {
    if |buf| >= HEADER_LEN {
      var all := buf + more;
      assert all[0..4] == buf[0..4] && all[8..16] == buf[8..16] && all[16..20] == buf[16..20]
          && all[20..24] == buf[20..24] && all[..20] == buf[..20];
      if PayloadLength(buf) <= MAX_FRAME_PAYLOAD && |buf| >= HEADER_LEN + PayloadLength(buf) {
        var total := HEADER_LEN + PayloadLength(buf);
        assert all[24..total] == buf[24..total];
      }
    }
  }

  // A cut-off legal frame is neither a frame nor an error, and a buffer for which
  // decode asks for more is shorter than the longest frame.
  lemma PrefixesAskForMore(f: Frame, crc: Bytes -> u32, k: nat)
    requires |f.payload| <= MAX_FRAME_PAYLOAD && k < |Encoded(f, crc)|
    ensures Decode(Encoded(f, crc)[..k], crc) == More
  {
    var e := Encoded(f, crc);
    var buf := e[..k];
    DecodeInvertsEncode(f, crc, []);
    assert e + [] == e && buf + e[k..] == e;
    DecodeIsMonotone(buf, e[k..], crc);
    MoreIsBounded(buf, crc);
    hide Encoded, Decode;
  }

  lemma MoreIsBounded(buf: Bytes, crc: Bytes -> u32)
    ensures Decode(buf, crc) == More ==> |buf| < MAX_FRAME_PAYLOAD + HEADER_LEN
    ensures Decode(buf, crc).Got? ==> HEADER_LEN <= Decode(buf, crc).consumed <= |buf|
  {}
}
