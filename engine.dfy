/**
 * The correlation and stream-state engine of DcpChannel as a pure state
 * machine: the two correlation maps, the open-stream table and the
 * dispatcher's classification of each inbound frame. The class in
 * channel.dfy is proved to behave exactly as this module says.
 */
module Engine {
  import opened Bytes
  import opened Protocol

  datatype Option<T> = None | Some(value: T)

  /** Which public call registered a pending promise. */
  datatype CallKind = OpenStreamCall | FailoverLogCall

  /**
   * A pending promise, identified by the completion listener attached to it:
   * the call that registered it and the partition id that listener captured.
   */
  datatype PendingCall = PendingCall(kind: CallKind, vbid: Int16)

  /**
   * How a promise is completed: setSuccess, or setFailure with an
   * IllegalStateException naming the status as a Java short.
   */
  datatype CallResult = Success | Failure(unhandledStatus: Int16)

  /** The promise a frame completed, the key it was stored under, and how. */
  datatype Resolution = Resolution(opaqueId: Int32, call: PendingCall, result: CallResult)

  /** An exception thrown inside the dispatcher's filter. */
  datatype Fault =
    | NoPendingCall(opaqueId: Int32)          // null unboxed: the key was not pending
    | ShortRollbackContent(length: nat)       // getLong(0) on fewer than eight bytes
    | PartitionOutOfRange(vbid: Int16)        // stream-end for a cell the table lacks

  /** What the dispatcher does with one inbound frame. */
  datatype Outcome =
    | Absorbed(resolution: Option<Resolution>, emitted: seq<ControlEvent>)
    | Forwarded(frame: Frame)
    | Faulted(resolution: Option<Resolution>, fault: Fault)
    | Dropped   // the subscription already ended after an earlier fault

  /**
   * The channel's state: outstandingResponses, outstandingVbucketInfos,
   * the openStreams table, and whether the dispatching subscription has
   * ended because its filter threw.
   */
  datatype State = State(
    responses: map<Int32, PendingCall>,
    vbucketInfos: map<Int32, Int16>,
    streams: seq<int>,
    halted: bool)

  /**
   * The invariant the channel keeps: both maps have the same keys and agree
   * on the partition, and every cell holds 0 or 1.
   */
  ghost predicate Valid(s: State) {
    && |s.streams| == MaxPartitions
    && (forall i | 0 <= i < |s.streams| :: s.streams[i] == 0 || s.streams[i] == 1)
    && s.responses.Keys == s.vbucketInfos.Keys
    && (forall k | k in s.responses :: s.vbucketInfos[k] == s.responses[k].vbid)
  }

  /** streamIsOpen: the partition's cell holds 1. */
  predicate IsOpen(s: State, vbid: int)
    requires 0 <= vbid < |s.streams|
  {
    s.streams[vbid] == 1
  }

  /** A freshly constructed channel: nothing pending, every stream closed. */
  function Initial(): (s: State)
    ensures Valid(s) && !s.halted
    ensures s.responses == map[] && s.vbucketInfos == map[]
    ensures forall vbid | InRange(vbid) :: !IsOpen(s, vbid)
  {
    State(map[], map[], seq(MaxPartitions, _ => 0), false)
  }

  /** The two puts of openStream and getFailoverLog under one key. */
  function Register(s: State, opaqueId: Int32, call: PendingCall): (r: State)
    requires Valid(s)
    ensures Valid(r)
    ensures r.responses.Keys == r.vbucketInfos.Keys == s.responses.Keys + {opaqueId}
    ensures r.responses[opaqueId] == call && r.vbucketInfos[opaqueId] == call.vbid
    ensures forall k | k in s.responses && k != opaqueId :: r.responses[k] == s.responses[k]
    ensures r.streams == s.streams && r.halted == s.halted
  {
    s.(responses := s.responses[opaqueId := call], vbucketInfos := s.vbucketInfos[opaqueId := call.vbid])
  }

  /** Whether the listener of a call writes a cell: an open-stream call for a partition the table has. */
  predicate WritesCell(call: PendingCall) {
    call.kind == OpenStreamCall && InRange(call.vbid)
  }

  /**
   * The completion listener of a pending call: an open-stream listener marks
   * its partition open on success and closed on failure; a failover-log
   * listener touches no cell. For a partition outside the table the
   * listener's write throws, and the promise swallows the exception.
   */
  function Listener(streams: seq<int>, call: PendingCall, result: CallResult): (r: seq<int>)
    requires |streams| == MaxPartitions
    ensures |r| == |streams|
    ensures WritesCell(call) ==> (r[call.vbid] == 1 <==> result.Success?) && r[call.vbid] in {0, 1}
    ensures forall i | 0 <= i < |r| && (i != call.vbid || !WritesCell(call)) :: r[i] == streams[i]
  {
    if WritesCell(call) then streams[call.vbid := if result.Success? then 1 else 0]
    else streams
  }

  /** Removes one key from both correlation maps. */
  function Forget(s: State, opaqueId: Int32): (r: State)
    requires Valid(s)
    ensures Valid(r)
    ensures opaqueId !in r.responses && r.responses.Keys == s.responses.Keys - {opaqueId}
    ensures forall k | k in r.responses :: r.responses[k] == s.responses[k]
    ensures r.streams == s.streams && r.halted == s.halted
  {
    s.(responses := s.responses - {opaqueId}, vbucketInfos := s.vbucketInfos - {opaqueId})
  }

  /** The resolution an outcome carries, if any. */
  function ResolutionOf(o: Outcome): Option<Resolution> {
    match o
    case Absorbed(res, _) => res
    case Faulted(res, _) => res
    case _ => None
  }

  /** The key a response frame is correlated by. */
  function KeyOf(f: Frame): Int32
    requires f.OpenStreamResponse? || f.FailoverLogResponse?
  {
    f.opaqueId
  }

  /**
   * The dispatcher's filter followed by the subscriber: classify the frame
   * as open-stream response, failover-log response, stream-end, or anything
   * else, in that order, and act on it.
   */
  function Step(s: State, f: Frame): (r: (State, Outcome))
    requires Valid(s)
    ensures Valid(r.0)
    ensures s.halted ==> r == (s, Dropped)
    ensures r.0.halted <==> s.halted || r.1.Faulted?
    ensures r.1.Forwarded? <==> !s.halted && f.Other?
    ensures r.1.Forwarded? ==> r.1.frame == f && r.0 == s
    ensures r.0.responses.Keys <= s.responses.Keys
    ensures ResolutionOf(r.1).Some? <==> !s.halted && !f.StreamEnd? && !f.Other? && KeyOf(f) in s.responses
    ensures ResolutionOf(r.1).Some? ==>
      var res := ResolutionOf(r.1).value;
      res.opaqueId == KeyOf(f) && res.call == s.responses[KeyOf(f)] &&
      r.0.responses == s.responses - {KeyOf(f)}
  {
    if s.halted then (s, Dropped)
    else match f
      case OpenStreamResponse(key, status, vbucket, content) =>
        if key !in s.responses then (s.(halted := true), Faulted(None, NoPendingCall(key)))
        else
          var call := s.responses[key];
          var vbid := s.vbucketInfos[key];
          var rest := Forget(s, key);
          if status == StatusSuccess then
            var res := Resolution(key, call, Success);
            (rest.(streams := Listener(rest.streams, call, Success)),
             Absorbed(Some(res), [FailoverLog(vbucket, FailoverLogContent(content, vbid))]))
          else if status == StatusRollback then
            var res := Resolution(key, call, Success);
            var after := rest.(streams := Listener(rest.streams, call, Success));
            if |content| < 8 then (after.(halted := true), Faulted(Some(res), ShortRollbackContent(|content|)))
            else (after, Absorbed(Some(res), [Rollback(vbid, LongAt0(content))]))
          else
            var res := Resolution(key, call, Failure(AsShort(status)));
            (rest.(streams := Listener(rest.streams, call, res.result)), Absorbed(Some(res), []))
      case FailoverLogResponse(key, vbucket, content) =>
        if key !in s.responses then (s.(halted := true), Faulted(None, NoPendingCall(key)))
        else
          var call := s.responses[key];
          var vbid := s.vbucketInfos[key];
          var rest := Forget(s, key);
          var res := Resolution(key, call, Success);
          (rest.(streams := Listener(rest.streams, call, Success)),
           Absorbed(Some(res), [FailoverLog(vbucket, FailoverLogContent(content, vbid))]))
      case StreamEnd(vbucket, flag) =>
        var vbid := AsShort(vbucket);
        if InRange(vbid) then (s.(streams := s.streams[vbid := 0]), Absorbed(None, []))
        else (s.(halted := true), Faulted(None, PartitionOutOfRange(vbid)))
      case Other(_) => (s, Forwarded(f))
  }

  /** What one dispatch hands to the control event handler, in order. */
  function Delivered(o: Outcome): seq<ControlEvent> {
    match o
    case Absorbed(_, emitted) => emitted
    case Forwarded(f) => [Raw(f)]
    case _ => []
  }

  /**
   * One observable effect of a dispatch: a promise completed (its listener
   * and the caller's completion run there and then), or an event handed to
   * the control event handler.
   */
  datatype Effect = Completed(resolution: Resolution) | Emitted(event: ControlEvent)

  /**
   * The effects of one dispatch laid out as a trace: a completion, when the
   * outcome resolves a call, followed by the events delivered. That the
   * dispatcher does them in this order is proved of Channel.DcpChannel.Dispatch.
   */
  function Effects(o: Outcome): seq<Effect>
  {
    (match ResolutionOf(o)
     case Some(res) => [Completed(res)]
     case None => []) + seq(|Delivered(o)|, i requires 0 <= i < |Delivered(o)| => Emitted(Delivered(o)[i]))
  }

  /** The trace of a dispatch that resolves a call and emits one event. */
  lemma EffectsOfResolvedEvent(res: Resolution, event: ControlEvent)
    ensures Effects(Absorbed(Some(res), [event])) == [Completed(res), Emitted(event)]
  {
  }

  /** The trace of a dispatch that resolves a call and emits nothing. */
  lemma EffectsOfResolvedOnly(res: Resolution, fault: Fault)
    ensures Effects(Absorbed(Some(res), [])) == [Completed(res)]
    ensures Effects(Faulted(Some(res), fault)) == [Completed(res)]
  {
  }

  /** The trace of a forwarded frame, and of dispatches that do nothing observable. */
  lemma EffectsOfUnresolved(frame: Frame, fault: Fault)
    ensures Effects(Forwarded(frame)) == [Emitted(Raw(frame))]
    ensures Effects(Absorbed(None, [])) == [] && Effects(Faulted(None, fault)) == [] && Effects(Dropped) == []
  {
  }

  /**
   * Dispatching a sequence of frames in arrival order: the final state and
   * everything the control event handler receives.
   */
  function Run(s: State, frames: seq<Frame>): (r: (State, seq<ControlEvent>))
    requires Valid(s)
    ensures Valid(r.0)
    ensures s.halted ==> r == (s, [])
    ensures r.0.halted ==> s.halted || exists i | 0 <= i < |frames| :: !frames[i].Other?
    decreases |frames|
  {
    if frames == [] then (s, [])
    else
      var step := Step(s, frames[0]);
      var rest := Run(step.0, frames[1..]);
      assert s.halted ==> Delivered(step.1) == [] && rest == (s, []) && Delivered(step.1) + rest.1 == [];
      (rest.0, Delivered(step.1) + rest.1)
  }

  /** The frames among events that were passed through untouched. */
  function Raws(events: seq<ControlEvent>): seq<Frame> {
    if events == [] then []
    else (if events[0].Raw? then [events[0].frame] else []) + Raws(events[1..])
  }

  /** The frames the dispatcher does not classify. */
  function Unclassified(frames: seq<Frame>): seq<Frame> {
    if frames == [] then []
    else (if frames[0].Other? then [frames[0]] else []) + Unclassified(frames[1..])
  }

  lemma {:induction false} RawsAppend(a: seq<ControlEvent>, b: seq<ControlEvent>)
    ensures Raws(a + b) == Raws(a) + Raws(b)
  {
    if a == [] {
      assert a + b == b;
    } else {
      assert (a + b)[0] == a[0] && (a + b)[1..] == a[1..] + b;
      RawsAppend(a[1..], b);
    }
  }

  /**
   * Unclassified frames reach the handler unchanged and in arrival order,
   * and nothing else reaches it as a raw frame, as long as the subscription
   * lives.
   */
  lemma {:induction false} ForwardedInOrder(s: State, frames: seq<Frame>)
    requires Valid(s) && !Run(s, frames).0.halted
    ensures Raws(Run(s, frames).1) == Unclassified(frames)
    decreases |frames|
  {
    if frames != [] {
      var (next, o) := Step(s, frames[0]);
      ForwardedInOrder(next, frames[1..]);
      RawsAppend(Delivered(o), Run(next, frames[1..]).1);
      assert Raws(Delivered(o)) == if frames[0].Other? then [frames[0]] else [] by {
        if o.Absorbed? {
          assert |o.emitted| <= 1 && forall e | e in o.emitted :: !e.Raw?;
        }
      }
    }
  }

  /**
   * Dispatching a + b is dispatching a and then, from where a left the
   * channel, dispatching b; the handler sees a's events before b's.
   */
  lemma {:induction false} RunAppend(s: State, a: seq<Frame>, b: seq<Frame>)
    requires Valid(s)
    ensures
      var first := Run(s, a);
      var second := Run(first.0, b);
      Run(s, a + b) == (second.0, first.1 + second.1)
    decreases |a|
  {
    if a == [] {
      assert a + b == b && Run(s, a) == (s, []);
      assert [] + Run(s, b).1 == Run(s, b).1;
    } else {
      assert (a + b)[0] == a[0] && (a + b)[1..] == a[1..] + b;
      var step := Step(s, a[0]);
      RunAppend(step.0, a[1..], b);
      var first := Run(step.0, a[1..]);
      var second := Run(first.0, b);
      assert Delivered(step.1) + (first.1 + second.1) == (Delivered(step.1) + first.1) + second.1;
    }
  }

  /**
   * Once the filter has thrown while dispatching a, nothing that arrives
   * afterwards changes the channel or reaches the handler.
   */
  lemma HaltedIsFinal(s: State, a: seq<Frame>, b: seq<Frame>)
    requires Valid(s) && Run(s, a).0.halted
    ensures Run(s, a + b) == Run(s, a)
  {
    RunAppend(s, a, b);
    assert Run(s, a).1 + [] == Run(s, a).1;
  }

  /** Dispatching frames never adds a pending key: only requests do. */
  lemma {:induction false} RunAddsNoKey(s: State, frames: seq<Frame>)
    requires Valid(s)
    ensures Run(s, frames).0.responses.Keys <= s.responses.Keys
    decreases |frames|
  {
    if frames != [] {
      RunAddsNoKey(Step(s, frames[0]).0, frames[1..]);
    }
  }

  /**
   * An open-stream response with status 0x00 completes exactly its own
   * pending call with success, marks an open-stream caller's partition open
   * (when the table has it),
   * leaves every other pending call and cell alone, and emits one
   * failover-log event carrying the response content and the stored
   * partition id.
   */
  lemma OpenStreamSucceeded(s: State, key: Int32, vbucket: Uint16, content: seq<Byte>)
    requires Valid(s) && !s.halted && key in s.responses
    ensures
      var call := s.responses[key];
      var (t, o) := Step(s, OpenStreamResponse(key, StatusSuccess, vbucket, content));
      && t.responses == s.responses - {key} && t.vbucketInfos == s.vbucketInfos - {key}
      && o == Absorbed(Some(Resolution(key, call, Success)), [FailoverLog(vbucket, FailoverLogContent(content, call.vbid))])
      && Effects(o) == [Completed(Resolution(key, call, Success)), Emitted(FailoverLog(vbucket, FailoverLogContent(content, call.vbid)))]
      && (WritesCell(call) ==> IsOpen(t, call.vbid))
      && (forall i | 0 <= i < MaxPartitions && (i != call.vbid || !WritesCell(call)) :: t.streams[i] == s.streams[i])
      && !t.halted
  {
  }

  /**
   * An open-stream response with status 0x23 completes its pending call with
   * success, so an open-stream caller's partition is marked open; with eight
   * content bytes it emits one rollback event for the stored partition id and
   * the big-endian long at offset 0, with fewer the filter throws after the
   * completion.
   */
  lemma OpenStreamRolledBack(s: State, key: Int32, vbucket: Uint16, content: seq<Byte>)
    requires Valid(s) && !s.halted && key in s.responses
    ensures
      var call := s.responses[key];
      var (t, o) := Step(s, OpenStreamResponse(key, StatusRollback, vbucket, content));
      && t.responses == s.responses - {key} && t.vbucketInfos == s.vbucketInfos - {key}
      && (WritesCell(call) ==> IsOpen(t, call.vbid))
      && (forall i | 0 <= i < MaxPartitions && (i != call.vbid || !WritesCell(call)) :: t.streams[i] == s.streams[i])
      && (|content| >= 8 ==>
            o == Absorbed(Some(Resolution(key, call, Success)), [Rollback(call.vbid, LongAt0(content))])
            && Effects(o) == [Completed(Resolution(key, call, Success)), Emitted(Rollback(call.vbid, LongAt0(content)))]
            && ToBigEndian(o.emitted[0].seqno, 8) == content[..8] && !t.halted)
      && (|content| < 8 ==>
            o == Faulted(Some(Resolution(key, call, Success)), ShortRollbackContent(|content|)) && t.halted)
  {
  }

  /**
   * An open-stream response with any other status completes its pending call
   * with a failure naming the status, marks an open-stream caller's partition
   * closed and emits nothing.
   */
  lemma OpenStreamFailed(s: State, key: Int32, status: Uint16, vbucket: Uint16, content: seq<Byte>)
    requires Valid(s) && !s.halted && key in s.responses
    requires status != StatusSuccess && status != StatusRollback
    ensures
      var call := s.responses[key];
      var (t, o) := Step(s, OpenStreamResponse(key, status, vbucket, content));
      && t.responses == s.responses - {key} && t.vbucketInfos == s.vbucketInfos - {key}
      && o == Absorbed(Some(Resolution(key, call, Failure(AsShort(status)))), [])
      && o.resolution.value.result.unhandledStatus % 0x1_0000 == status
      && (WritesCell(call) ==> !IsOpen(t, call.vbid))
      && (forall i | 0 <= i < MaxPartitions && (i != call.vbid || !WritesCell(call)) :: t.streams[i] == s.streams[i])
      && !t.halted
  {
  }

  /**
   * A failover-log response completes its pending call with success and emits
   * one failover-log event built like the one for a successful open; for a
   * getFailoverLog call the table is unchanged.
   */
  lemma FailoverLogAnswered(s: State, key: Int32, vbucket: Uint16, content: seq<Byte>)
    requires Valid(s) && !s.halted && key in s.responses
    ensures
      var call := s.responses[key];
      var (t, o) := Step(s, FailoverLogResponse(key, vbucket, content));
      && t.responses == s.responses - {key} && t.vbucketInfos == s.vbucketInfos - {key}
      && o == Absorbed(Some(Resolution(key, call, Success)), [FailoverLog(vbucket, FailoverLogContent(content, call.vbid))])
      && Effects(o) == [Completed(Resolution(key, call, Success)), Emitted(FailoverLog(vbucket, FailoverLogContent(content, call.vbid)))]
      && (!WritesCell(call) ==> t.streams == s.streams)
      && (WritesCell(call) ==> IsOpen(t, call.vbid))
      && !t.halted
  {
  }

  /** A response whose key is not pending makes the filter throw; nothing else changes. */
  lemma UnmatchedResponse(s: State, f: Frame)
    requires Valid(s) && !s.halted
    requires (f.OpenStreamResponse? || f.FailoverLogResponse?) && KeyOf(f) !in s.responses
    ensures Step(s, f) == (s.(halted := true), Faulted(None, NoPendingCall(KeyOf(f))))
  {
  }

  /**
   * A stream-end frame closes its partition whatever the cell held, touches
   * no pending call and emits nothing.
   */
  lemma StreamEnded(s: State, vbucket: Uint16, flag: Int32)
    requires Valid(s) && !s.halted
    ensures
      var (t, o) := Step(s, StreamEnd(vbucket, flag));
      && t.responses == s.responses && t.vbucketInfos == s.vbucketInfos
      && (vbucket < MaxPartitions ==>
            o == Absorbed(None, []) && !IsOpen(t, vbucket)
            && (forall i | 0 <= i < MaxPartitions && i != vbucket :: t.streams[i] == s.streams[i]))
      && (vbucket >= MaxPartitions ==> o.Faulted? && t.halted)
  {
  }

  /**
   * A pending call is completed at most once: once a response has resolved
   * its key, a later response under that key, after any frames in between,
   * resolves nothing; it faults, or is dropped if the subscription has ended.
   */
  lemma {:induction false} ResolvedOnce(s: State, f: Frame, between: seq<Frame>, g: Frame)
    requires Valid(s)
    requires (f.OpenStreamResponse? || f.FailoverLogResponse?) && (g.OpenStreamResponse? || g.FailoverLogResponse?)
    requires KeyOf(f) == KeyOf(g) && ResolutionOf(Step(s, f).1).Some?
    ensures
      var u := Run(Step(s, f).0, between).0;
      Step(u, g).1 == if u.halted then Dropped else Faulted(None, NoPendingCall(KeyOf(g)))
    ensures ResolutionOf(Step(Run(Step(s, f).0, between).0, g).1) == None
  {
    var t := Step(s, f).0;
    RunAddsNoKey(t, between);
    var u := Run(t, between).0;
    if !u.halted {
      UnmatchedResponse(u, g);
    }
  }

  /**
   * Registering under a key greater than every pending key adds a call
   * without displacing any other; this is why an opaque counter that has not
   * wrapped never overwrites a pending promise.
   */
  lemma FreshKey(s: State, bound: Int32, call: PendingCall)
    requires Valid(s) && bound < MaxInt32
    requires forall k | k in s.responses :: k <= bound
    ensures Increment(bound) !in s.responses
    ensures |Register(s, Increment(bound), call).responses| == |s.responses| + 1
  {
  }
}
