/**
 * Clients of DcpChannel that drive one partition through a request and its
 * response, and state what the caller and the control event handler see.
 */
module Scenarios {
  import opened Bytes
  import opened Protocol
  import opened Engine
  import opened Channel

  /** Open partition 5, answered with status 0x00. */
  method OpenAnsweredWithSuccess(content: seq<Byte>) returns (open: bool, outcome: Outcome)
    ensures open
    ensures outcome.Absorbed? && outcome.resolution.Some? && outcome.resolution.value.result == Success
    ensures outcome.emitted == [FailoverLog(5, content + [0, 5])]
  {
    var opaques := new OpaqueCounter();
    var channel := new DcpChannel(opaques);
    var request := channel.OpenStream(5, 0, 0, 100, 0, 0);
    outcome := channel.Dispatch(OpenStreamResponse(request.opaqueId, StatusSuccess, 5, content));
    open := channel.StreamIsOpen(5);
    assert ToBigEndian(5 / 256, 1) == [0];
    assert ShortBytes(5) == [0, 5];
  }

  /**
   * Open partition 5, answered with status 0x23 and rollback point 42: the
   * caller's completion succeeds, so the partition reads as open.
   */
  method OpenAnsweredWithRollback() returns (open: bool, outcome: Outcome)
    ensures open
    ensures outcome.Absorbed? && outcome.resolution.Some? && outcome.resolution.value.result == Success
    ensures outcome.emitted == [Rollback(5, 42)]
  {
    var opaques := new OpaqueCounter();
    var channel := new DcpChannel(opaques);
    var request := channel.OpenStream(5, 0, 0, 100, 0, 0);
    assert Pow256(8) == 0x1_0000_0000_0000_0000;
    var content := ToBigEndian(42, 8);
    FromToBigEndian(42, 8);
    assert content[..8] == content;
    outcome := channel.Dispatch(OpenStreamResponse(request.opaqueId, StatusRollback, 5, content));
    open := channel.StreamIsOpen(5);
  }

  /** Open partition 5, answered with status 0x01: the caller sees a failure naming 1. */
  method OpenAnsweredWithUnknownStatus() returns (open: bool, outcome: Outcome)
    ensures !open
    ensures outcome == Absorbed(Some(Resolution(1, PendingCall(OpenStreamCall, 5), Failure(1))), [])
  {
    var opaques := new OpaqueCounter();
    var channel := new DcpChannel(opaques);
    var request := channel.OpenStream(5, 0, 0, 100, 0, 0);
    outcome := channel.Dispatch(OpenStreamResponse(request.opaqueId, 0x01, 5, []));
    open := channel.StreamIsOpen(5);
  }

  /**
   * An open stream on partition 5 ended by the server: the partition reads
   * as closed and nothing else changes.
   */
  method OpenStreamEndedByServer() returns (openBefore: bool, openAfter: bool, outcome: Outcome)
    ensures openBefore && !openAfter
    ensures outcome == Absorbed(None, [])
  {
    var opaques := new OpaqueCounter();
    var channel := new DcpChannel(opaques);
    var request := channel.OpenStream(5, 0, 0, 100, 0, 0);
    var answer := channel.Dispatch(OpenStreamResponse(request.opaqueId, StatusSuccess, 5, []));
    openBefore := channel.StreamIsOpen(5);
    outcome := channel.Dispatch(StreamEnd(5, 1));
    openAfter := channel.StreamIsOpen(5);
  }

  /**
   * Two requests in a row on any channel whose counter has not wrapped and
   * will not wrap: each takes the next opaque, neither was pending before,
   * and the first stays pending beside the second.
   */
  method ConsecutiveRequests(channel: DcpChannel, vbid: Int16) returns (first: Request, second: Request)
    requires channel.Valid() && !channel.opaques.wrapped && channel.opaques.value < MaxInt32 - 1
    modifies channel, channel.opaques
    ensures channel.Valid() && !channel.opaques.wrapped
    ensures first.opaqueId == old(channel.opaques.value) + 1 && second.opaqueId == first.opaqueId + 1
    ensures first.opaqueId !in old(channel.outstandingResponses) && second.opaqueId !in old(channel.outstandingResponses)
    ensures channel.outstandingResponses.Keys == old(channel.outstandingResponses.Keys) + {first.opaqueId, second.opaqueId}
  {
    first := channel.OpenStream(vbid, 0, 0, 100, 0, 0);
    second := channel.GetFailoverLog(vbid);
  }
}
