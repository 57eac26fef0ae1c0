/**
 * DcpChannel as the object the source defines: two correlation maps and a
 * table of 1024 open-stream cells that its methods update in place, and the
 * process-wide opaque counter every channel draws from. Each method is
 * proved to do what the Engine state machine says.
 */
module Channel {
  import opened Bytes
  import opened Protocol
  import opened Engine

  /**
   * The static OPAQUE counter: one per process, shared by every channel,
   * starting at 0.
   */
  class OpaqueCounter {
    var value: Int32
    /** Whether the counter has ever wrapped from the largest int to the smallest. */
    ghost var wrapped: bool

    constructor ()
      ensures value == 0 && !wrapped
    {
      value := 0;
      wrapped := false;
    }

    /** incrementAndGet: the next opaque. */
    method IncrementAndGet() returns (next: Int32)
      modifies this
      ensures next == Increment(old(value)) && value == next
      ensures wrapped == (old(wrapped) || old(value) == MaxInt32)
    {
      wrapped := wrapped || value == MaxInt32;
      value := Increment(value);
      next := value;
    }
  }

  class DcpChannel {
    /** The shared counter the requests of this channel take their opaques from. */
    const opaques: OpaqueCounter
    var outstandingResponses: map<Int32, PendingCall>
    var outstandingVbucketInfos: map<Int32, Int16>
    const openStreams: array<int>
    /** Whether the dispatching subscription has ended because its filter threw. */
    var halted: bool
    /**
     * Every promise completed and every event handed to the control event
     * handler so far, in the order the dispatcher did them.
     */
    ghost var effects: seq<Effect>

    /** The channel's state as the Engine sees it. */
    ghost function View(): Engine.State
      reads this, openStreams
    {
      Engine.State(outstandingResponses, outstandingVbucketInfos, openStreams[..], halted)
    }

    /**
     * The Engine invariant, and: as long as the shared counter has not
     * wrapped, no pending key exceeds it, so the next opaque is not pending.
     */
    ghost predicate Valid()
      reads this, openStreams, opaques
    {
      && openStreams.Length == MaxPartitions
      && Engine.Valid(View())
      && (!opaques.wrapped ==> forall k | k in outstandingResponses :: k <= opaques.value)
    }

    constructor (opaques: OpaqueCounter)
      ensures Valid() && fresh(openStreams)
      ensures this.opaques == opaques && View() == Initial() && effects == []
    {
      this.opaques := opaques;
      outstandingResponses := map[];
      outstandingVbucketInfos := map[];
      openStreams := new int[MaxPartitions](_ => 0);
      halted := false;
      effects := [];
    }

    /**
     * openStream, as run when its Completable is subscribed: takes the next
     * opaque, registers the pending promise with its listener and the
     * partition under that opaque, and returns the request it writes.
     */
    method OpenStream(vbid: Int16, vbuuid: Int64, startSeqno: Int64, endSeqno: Int64,
                      snapshotStartSeqno: Int64, snapshotEndSeqno: Int64)
      returns (request: Request)
      requires Valid()
      modifies this, opaques
      ensures Valid()
      ensures opaques.value == Increment(old(opaques.value))
      ensures opaques.wrapped == (old(opaques.wrapped) || old(opaques.value) == MaxInt32)
      ensures request == OpenStreamRequest(opaques.value, vbid, vbuuid, startSeqno, endSeqno,
                                           snapshotStartSeqno, snapshotEndSeqno)
      ensures View() == Register(old(View()), request.opaqueId, PendingCall(OpenStreamCall, vbid))
      ensures !old(opaques.wrapped) && old(opaques.value) < MaxInt32 ==>
                request.opaqueId == old(opaques.value) + 1 && request.opaqueId !in old(outstandingResponses)
      ensures effects == old(effects)
    {
      if !opaques.wrapped && opaques.value < MaxInt32 {
        FreshKey(View(), opaques.value, PendingCall(OpenStreamCall, vbid));
      }
      var key := opaques.IncrementAndGet();
      request := OpenStreamRequest(key, vbid, vbuuid, startSeqno, endSeqno, snapshotStartSeqno, snapshotEndSeqno);
      outstandingResponses := outstandingResponses[key := PendingCall(OpenStreamCall, vbid)];
      outstandingVbucketInfos := outstandingVbucketInfos[key := vbid];
    }

    /**
     * getFailoverLog, as run when its Completable is subscribed: like
     * OpenStream, but with a listener that leaves the table alone.
     */
    method GetFailoverLog(vbid: Int16) returns (request: Request)
      requires Valid()
      modifies this, opaques
      ensures Valid()
      ensures opaques.value == Increment(old(opaques.value))
      ensures opaques.wrapped == (old(opaques.wrapped) || old(opaques.value) == MaxInt32)
      ensures request == FailoverLogRequest(opaques.value, vbid)
      ensures View() == Register(old(View()), request.opaqueId, PendingCall(FailoverLogCall, vbid))
      ensures !old(opaques.wrapped) && old(opaques.value) < MaxInt32 ==>
                request.opaqueId == old(opaques.value) + 1 && request.opaqueId !in old(outstandingResponses)
      ensures effects == old(effects)
    {
      if !opaques.wrapped && opaques.value < MaxInt32 {
        FreshKey(View(), opaques.value, PendingCall(FailoverLogCall, vbid));
      }
      var key := opaques.IncrementAndGet();
      request := FailoverLogRequest(key, vbid);
      outstandingResponses := outstandingResponses[key := PendingCall(FailoverLogCall, vbid)];
      outstandingVbucketInfos := outstandingVbucketInfos[key := vbid];
    }

    /** streamIsOpen: a read of the partition's cell. */
    function StreamIsOpen(vbid: Int16): (open: bool)
      reads this, openStreams, opaques
      requires Valid() && InRange(vbid)
      ensures open == IsOpen(View(), vbid)
    {
      openStreams[vbid] == 1
    }

    /**
     * The two removes of the dispatcher, one from each map, returning what
     * each held under the key.
     */
    method RemovePending(key: Int32) returns (promise: Option<PendingCall>, vbid: Option<Int16>)
      requires Valid()
      modifies this`outstandingResponses, this`outstandingVbucketInfos
      ensures Valid()
      ensures outstandingResponses == old(outstandingResponses) - {key}
      ensures outstandingVbucketInfos == old(outstandingVbucketInfos) - {key}
      ensures promise == (if key in old(outstandingResponses) then Some(old(outstandingResponses)[key]) else None)
      ensures vbid == (if key in old(outstandingVbucketInfos) then Some(old(outstandingVbucketInfos)[key]) else None)
    {
      promise := if key in outstandingResponses then Some(outstandingResponses[key]) else None;
      outstandingResponses := outstandingResponses - {key};
      vbid := if key in outstandingVbucketInfos then Some(outstandingVbucketInfos[key]) else None;
      outstandingVbucketInfos := outstandingVbucketInfos - {key};
    }

    /**
     * Completing a promise runs its listener at once on the dispatching
     * thread: an open-stream listener sets its cell to 1 on success and to 0
     * on failure; its write to a cell the table lacks throws, and the promise
     * logs and swallows the exception. Either listener then completes the
     * caller, which the trace records.
     */
    method Complete(key: Int32, call: PendingCall, result: CallResult)
      requires openStreams.Length == MaxPartitions
      modifies openStreams, this`effects
      ensures openStreams[..] == Listener(old(openStreams[..]), call, result)
      ensures effects == old(effects) + [Completed(Resolution(key, call, result))]
    {
      if call.kind == OpenStreamCall && 0 <= call.vbid < openStreams.Length {
        openStreams[call.vbid] := if result.Success? then 1 else 0;
      }
      effects := effects + [Completed(Resolution(key, call, result))];
    }

    /** Hands one event to the control event handler. */
    method Emit(event: ControlEvent)
      modifies this`effects
      ensures effects == old(effects) + [Emitted(event)]
    {
      effects := effects + [Emitted(event)];
    }

    /**
     * One inbound frame through the filter and the subscriber: resolves a
     * pending call, closes a stream, or forwards the frame; an exception in
     * the filter ends the subscription. The trace gains, in this order, the
     * completion of the resolved promise and then the events handed over.
     */
    method Dispatch(frame: Frame) returns (outcome: Outcome)
      requires Valid()
      modifies this, openStreams
      ensures Valid()
      ensures (View(), outcome) == Step(old(View()), frame)
      ensures effects == old(effects) + Effects(outcome)
    {
      if halted {
        EffectsOfUnresolved(frame, NoPendingCall(0));
        return Dropped;
      }
      match frame {
        case OpenStreamResponse(_, _, _, _) =>
          outcome := OnOpenStreamResponse(frame);
        case FailoverLogResponse(_, _, _) =>
          outcome := OnFailoverLogResponse(frame);
        case StreamEnd(vbucket, flag) =>
          var vbid := AsShort(vbucket);
          if !InRange(vbid) {
            halted := true;
            EffectsOfUnresolved(frame, PartitionOutOfRange(vbid));
            return Faulted(None, PartitionOutOfRange(vbid));
          }
          openStreams[vbid] := 0;
          EffectsOfUnresolved(frame, PartitionOutOfRange(vbid));
          outcome := Absorbed(None, []);
        case Other(_) =>
          Emit(Raw(frame));
          EffectsOfUnresolved(frame, PartitionOutOfRange(0));
          outcome := Forwarded(frame);
      }
    }

    /** The filter's open-stream branch: a switch on the response status. */
    method OnOpenStreamResponse(frame: Frame) returns (outcome: Outcome)
      requires Valid() && !halted && frame.OpenStreamResponse?
      modifies this, openStreams
      ensures Valid()
      ensures (View(), outcome) == Step(old(View()), frame)
      ensures effects == old(effects) + Effects(outcome)
    {
      var key, status, vbucket, content := frame.opaqueId, frame.status, frame.vbucket, frame.content;
      var promise, vbid := RemovePending(key);
      if vbid.None? {
        assert outstandingResponses == old(outstandingResponses);
        assert outstandingVbucketInfos == old(outstandingVbucketInfos);
        halted := true;
        EffectsOfUnresolved(frame, NoPendingCall(key));
        return Faulted(None, NoPendingCall(key));
      }
      var call := promise.value;
      if status == StatusSuccess {
        Complete(key, call, Success);
        var event := FailoverLog(vbucket, FailoverLogContent(content, vbid.value));
        Emit(event);
        EffectsOfResolvedEvent(Resolution(key, call, Success), event);
        outcome := Absorbed(Some(Resolution(key, call, Success)), [event]);
      } else if status == StatusRollback {
        Complete(key, call, Success);
        if |content| < 8 {
          halted := true;
          EffectsOfResolvedOnly(Resolution(key, call, Success), ShortRollbackContent(|content|));
          return Faulted(Some(Resolution(key, call, Success)), ShortRollbackContent(|content|));
        }
        var event := Rollback(vbid.value, LongAt0(content));
        Emit(event);
        EffectsOfResolvedEvent(Resolution(key, call, Success), event);
        outcome := Absorbed(Some(Resolution(key, call, Success)), [event]);
      } else {
        var result := Failure(AsShort(status));
        Complete(key, call, result);
        EffectsOfResolvedOnly(Resolution(key, call, result), ShortRollbackContent(0));
        outcome := Absorbed(Some(Resolution(key, call, result)), []);
      }
    }

    /** The filter's failover-log branch. */
    method OnFailoverLogResponse(frame: Frame) returns (outcome: Outcome)
      requires Valid() && !halted && frame.FailoverLogResponse?
      modifies this, openStreams
      ensures Valid()
      ensures (View(), outcome) == Step(old(View()), frame)
      ensures effects == old(effects) + Effects(outcome)
    {
      var key, vbucket, content := frame.opaqueId, frame.vbucket, frame.content;
      var promise, vbid := RemovePending(key);
      if vbid.None? {
        assert outstandingResponses == old(outstandingResponses);
        assert outstandingVbucketInfos == old(outstandingVbucketInfos);
        halted := true;
        EffectsOfUnresolved(frame, NoPendingCall(key));
        return Faulted(None, NoPendingCall(key));
      }
      var call := promise.value;
      Complete(key, call, Success);
      var event := FailoverLog(vbucket, FailoverLogContent(content, vbid.value));
      Emit(event);
      EffectsOfResolvedEvent(Resolution(key, call, Success), event);
      outcome := Absorbed(Some(Resolution(key, call, Success)), [event]);
    }
  }
}
