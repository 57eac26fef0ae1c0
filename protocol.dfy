/**
 * The values that cross DcpChannel's boundary: inbound frames, outbound
 * requests and the control events handed to the environment's control event
 * handler, together with the Java integer widths the channel computes in.
 * Frames are modelled by the fields the channel reads, not by their bytes.
 */
module Protocol {
  import opened Bytes

  const MaxInt32: int := 0x7fff_ffff
  const MinInt32: int := -0x8000_0000

  /** A Java int. */
  type Int32 = x: int | MinInt32 <= x <= MaxInt32
  /** A Java short. */
  type Int16 = x: int | -0x8000 <= x < 0x8000
  /** A Java long. */
  type Int64 = x: int | -0x8000_0000_0000_0000 <= x < 0x8000_0000_0000_0000
  /** An unsigned 16-bit header field as it travels on the wire. */
  type Uint16 = x: int | 0 <= x < 0x1_0000

  /** Size of the per-partition open-stream table of one channel. */
  const MaxPartitions: nat := 1024

  /** Open-stream response statuses the dispatcher gives a meaning to. */
  const StatusSuccess: Uint16 := 0x00
  const StatusRollback: Uint16 := 0x23

  /** Whether vbid indexes a cell of the open-stream table. */
  predicate InRange(vbid: int) {
    0 <= vbid < MaxPartitions
  }

  /**
   * AtomicInteger.incrementAndGet on a Java int: two's-complement addition
   * of one, which wraps from the largest int to the smallest.
   */
  function Increment(x: Int32): (r: Int32)
    ensures x < MaxInt32 ==> r == x + 1
    ensures x == MaxInt32 ==> r == MinInt32
  {
    (x - MinInt32 + 1) % 0x1_0000_0000 + MinInt32
  }

  /** The Java short a 16-bit wire field is read into (two's complement). */
  function AsShort(u: Uint16): (v: Int16)
    ensures v % 0x1_0000 == u
    ensures 0 <= v <==> u < 0x8000
  {
    if u < 0x8000 then u else u - 0x1_0000
  }

  /** Inbound frames, by the kinds the dispatcher tells apart. */
  datatype Frame =
    | OpenStreamResponse(opaqueId: Int32, status: Uint16, vbucket: Uint16, content: seq<Byte>)
    | FailoverLogResponse(opaqueId: Int32, vbucket: Uint16, content: seq<Byte>)
    | StreamEnd(vbucket: Uint16, flag: Int32)
    | Other(bytes: seq<Byte>)

  /** Outbound requests, with the fields openStream and getFailoverLog set. */
  datatype Request =
    | OpenStreamRequest(opaqueId: Int32, vbucket: Int16, vbuuid: Int64, startSeqno: Int64,
                        endSeqno: Int64, snapshotStartSeqno: Int64, snapshotEndSeqno: Int64)
    | FailoverLogRequest(opaqueId: Int32, vbucket: Int16)

  /**
   * What the control event handler receives: a failover-log message the
   * dispatcher builds, a rollback message it builds, or an inbound frame it
   * passes through untouched.
   */
  datatype ControlEvent =
    | FailoverLog(vbucket: Uint16, content: seq<Byte>)
    | Rollback(vbid: Int16, seqno: nat)
    | Raw(frame: Frame)

  /**
   * Content of a derived failover-log message: the response content followed
   * by the partition id the request was registered for, written as a short.
   */
  function FailoverLogContent(content: seq<Byte>, vbid: Int16): (r: seq<Byte>)
    ensures |r| == |content| + 2
    ensures r[..|content|] == content
    ensures AsShort(FromBigEndian(r[|content|..])) == vbid
  {
    var tail := ShortBytes(vbid);
    assert (content + tail)[|content|..] == tail;
    content + tail
  }
}
