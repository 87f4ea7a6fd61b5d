/**
 * The log service: the HTTP handler that receives a batch of Lambda Logs API
 * messages, normalises it into `Log` entries and queues the batch for the
 * forwarders (logservice/logservice.go).
 *
 * JSON decoding is not modelled: the outer array decoder and the two inner
 * record decoders are the partial functions of a `Decoders` value. Times are
 * integer nanoseconds since the Unix epoch; records and metrics stay opaque bytes.
 */
module LogService {
  import opened Wrappers
  import opened Bytes
  import Channel

  const StatusOK := 200
  const StatusBadRequest := 400

  /** The message types the service recognises; every other type string is ignored. */
  datatype LogType = PlatformStart | PlatformReport | PlatformFault | PlatformLogsDropped | Function {
    /** The type string carried on the wire. */
    function Name(): string {
      match this
      case PlatformStart => "platform.start"
      case PlatformReport => "platform.report"
      case PlatformFault => "platform.fault"
      case PlatformLogsDropped => "platform.logsDropped"
      case Function => "function"
    }
  }

  /** The recognised type named by a message's type string, if any (the `switch LogType(msg.Type)`). */
  function Classify(s: string): (t: Option<LogType>)
    ensures t.Some? ==> t.value.Name() == s
  {
    if s == "platform.start" then Some(PlatformStart)
    else if s == "platform.report" then Some(PlatformReport)
    else if s == "platform.fault" then Some(PlatformFault)
    else if s == "platform.logsDropped" then Some(PlatformLogsDropped)
    else if s == "function" then Some(Function)
    else None
  }

  /** Every recognised type is recovered from its own type string. */
  lemma ClassifyName(t: LogType)
    ensures Classify(t.Name()) == Some(t)
  {
  }

  /** A normalised entry handed to the forwarders. */
  datatype Log = Log(time: int, typ: LogType, requestId: string, content: Raw)

  /** One element of the JSON array the Logs API posts. */
  datatype Message = Message(time: int, typ: string, record: Raw)

  datatype StartRecord = StartRecord(requestId: string)

  datatype ReportRecord = ReportRecord(requestId: string, metrics: Raw)

  /** The JSON decoders the handler relies on, each failing with None. */
  datatype Decoders = Decoders(
    messages: Raw -> Option<seq<Message>>,
    start: Raw -> Option<StartRecord>,
    report: Raw -> Option<ReportRecord>)

  /** A `platform.start` message whose record decodes: it sets the running request id. */
  predicate IsStart(m: Message, json: Decoders) {
    Classify(m.typ) == Some(PlatformStart) && json.start(m.record).Some?
  }

  /** Whether a message yields a `Log`, stated independently of how the entry is built. */
  predicate Emits(m: Message, enableReport: bool, json: Decoders) {
    match Classify(m.typ)
    case Some(PlatformStart) => false
    case Some(PlatformReport) => enableReport && json.report(m.record).Some?
    case Some(_) => true
    case None => false
  }

  /** The entry (zero or one) that message `m` yields when the running request id is `rid`. */
  function Emitted(m: Message, rid: string, enableReport: bool, json: Decoders): (r: seq<Log>)
    ensures |r| <= 1
    ensures |r| == 1 <==> Emits(m, enableReport, json)
    ensures |r| == 1 ==> r[0].time == m.time && r[0].typ.Name() == m.typ
    ensures |r| == 1 && r[0].typ != PlatformReport ==> r[0].requestId == rid && r[0].content == m.record
    ensures |r| == 1 && r[0].typ == PlatformReport ==>
              json.report(m.record) == Some(ReportRecord(r[0].requestId, r[0].content))
  {
    match Classify(m.typ)
    case Some(PlatformStart) => []
    case Some(PlatformReport) =>
      if !enableReport then []
      else (match json.report(m.record)
            case None => []
            case Some(rep) => [Log(m.time, PlatformReport, rep.requestId, rep.metrics)])
    case Some(t) => [Log(m.time, t, rid, m.record)]
    case None => []
  }

  /** The running request id after message `m`. */
  function NextRequestId(rid: string, m: Message, json: Decoders): string {
    if IsStart(m, json) then json.start(m.record).value.requestId else rid
  }

  /** The handler's loop state: the entries built so far and the running request id. */
  datatype WalkState = WalkState(logs: seq<Log>, requestId: string)

  /** The state after walking `msgs` in order from an empty batch and an empty request id. */
  function Normalize(msgs: seq<Message>, enableReport: bool, json: Decoders): WalkState
    decreases |msgs|
  {
    if msgs == [] then WalkState([], "")
    else
      var st := Normalize(msgs[..|msgs| - 1], enableReport, json);
      var m := msgs[|msgs| - 1];
      WalkState(st.logs + Emitted(m, st.requestId, enableReport, json),
                NextRequestId(st.requestId, m, json))
  }

  /** The positions of the messages that yield an entry, in ascending order. */
  function Origins(msgs: seq<Message>, enableReport: bool, json: Decoders): (o: seq<nat>)
    decreases |msgs|
    ensures forall i :: 0 <= i < |o| ==> o[i] < |msgs| && Emits(msgs[o[i]], enableReport, json)
    ensures forall i, j :: 0 <= i < j < |o| ==> o[i] < o[j]
    ensures forall k :: 0 <= k < |msgs| && Emits(msgs[k], enableReport, json) ==> k in o
  {
    if msgs == [] then []
    else
      var n := |msgs| - 1;
      var rest := Origins(msgs[..n], enableReport, json);
      assert forall k :: 0 <= k < n ==> msgs[..n][k] == msgs[k];
      rest + (if Emits(msgs[n], enableReport, json) then [n] else [])
  }

  /** The batch has exactly one entry per message that emits. */
  lemma {:induction false} NormalizeLength(msgs: seq<Message>, enableReport: bool, json: Decoders)
    ensures |Normalize(msgs, enableReport, json).logs| == |Origins(msgs, enableReport, json)|
    decreases |msgs|
  {
    if msgs != [] {
      NormalizeLength(msgs[..|msgs| - 1], enableReport, json);
    }
  }

  /**
   * The i-th entry of the batch is exactly what the i-th emitting message
   * yields, given the running request id reached just before that message.
   */
  lemma {:induction false} NormalizeEntry(msgs: seq<Message>, enableReport: bool, json: Decoders, i: nat)
    requires i < |Origins(msgs, enableReport, json)|
    ensures |Normalize(msgs, enableReport, json).logs| == |Origins(msgs, enableReport, json)|
    ensures var k := Origins(msgs, enableReport, json)[i];
            [Normalize(msgs, enableReport, json).logs[i]]
              == Emitted(msgs[k], Normalize(msgs[..k], enableReport, json).requestId, enableReport, json)
    decreases |msgs|
  {
    NormalizeLength(msgs, enableReport, json);
    var n := |msgs| - 1;
    var p := msgs[..n];
    var st := Normalize(p, enableReport, json);
    var op := Origins(p, enableReport, json);
    NormalizeLength(p, enableReport, json);
    var logs := Normalize(msgs, enableReport, json).logs;
    assert logs == st.logs + Emitted(msgs[n], st.requestId, enableReport, json);
    if i < |op| {
      NormalizeEntry(p, enableReport, json, i);
      var k := op[i];
      assert logs[i] == st.logs[i];
      assert msgs[..k] == p[..k];
      assert msgs[k] == p[k];
    } else {
      assert msgs[..n] == p;
    }
  }

  /** With no decodable start message, every non-report entry carries the empty request id. */
  lemma {:induction false} RunningIdWithoutStart(msgs: seq<Message>, enableReport: bool, json: Decoders)
    requires forall k :: 0 <= k < |msgs| ==> !IsStart(msgs[k], json)
    ensures Normalize(msgs, enableReport, json).requestId == ""
    decreases |msgs|
  {
    if msgs != [] {
      RunningIdWithoutStart(msgs[..|msgs| - 1], enableReport, json);
    }
  }

  /** The running request id is that of the last start message whose record decodes. */
  lemma {:induction false} RunningIdIsLastStart(msgs: seq<Message>, enableReport: bool, json: Decoders, j: nat)
    requires j < |msgs| && IsStart(msgs[j], json)
    requires forall k :: j < k < |msgs| ==> !IsStart(msgs[k], json)
    ensures Normalize(msgs, enableReport, json).requestId == json.start(msgs[j].record).value.requestId
    decreases |msgs|
  {
    if j < |msgs| - 1 {
      RunningIdIsLastStart(msgs[..|msgs| - 1], enableReport, json, j);
    }
  }

  /** No entry is ever a `platform.start`, and with reports disabled none is a `platform.report`. */
  lemma {:induction false} EntryTypes(msgs: seq<Message>, enableReport: bool, json: Decoders)
    ensures forall l :: l in Normalize(msgs, enableReport, json).logs ==> l.typ != PlatformStart
    ensures !enableReport ==> forall l :: l in Normalize(msgs, enableReport, json).logs ==> l.typ != PlatformReport
    decreases |msgs|
  {
    if msgs != [] {
      EntryTypes(msgs[..|msgs| - 1], enableReport, json);
    }
  }

  /** The parameters `New` copies into the service. */
  datatype ServiceParams = ServiceParams(
    logTypes: seq<string>,
    logsQueue: Channel.Chan<seq<Log>>,
    listenPort: int,
    maxItems: int,
    maxBytes: int,
    timeoutMS: int,
    enablePlatformReport: bool)

  class LogService {
    const logTypes: seq<string>
    const logsQueue: Channel.Chan<seq<Log>>
    const listenPort: int
    const maxItems: int
    const maxBytes: int
    const timeoutMS: int
    const enablePlatformReport: bool

    /** `New`: copies every parameter into the service. */
    constructor (params: ServiceParams)
      ensures logTypes == params.logTypes && logsQueue == params.logsQueue
      ensures listenPort == params.listenPort && maxItems == params.maxItems
      ensures maxBytes == params.maxBytes && timeoutMS == params.timeoutMS
      ensures enablePlatformReport == params.enablePlatformReport
    {
      logTypes := params.logTypes;
      logsQueue := params.logsQueue;
      listenPort := params.listenPort;
      maxItems := params.maxItems;
      maxBytes := params.maxBytes;
      timeoutMS := params.timeoutMS;
      enablePlatformReport := params.enablePlatformReport;
    }

    /**
     * `logHandler`: one POST from the Logs API. `body` is None when reading the
     * request body fails. The model covers handlers that run while the queue is
     * open; a handler still running when the queue is closed is not covered.
     */
    method LogHandler(body: Option<Raw>, json: Decoders) returns (status: int)
      requires !logsQueue.closed
      modifies logsQueue
      ensures logsQueue.closed == old(logsQueue.closed)
      ensures body.None? ==> status == StatusBadRequest && logsQueue.buffer == old(logsQueue.buffer)
      ensures body.Some? && json.messages(body.value).None? ==>
                status == StatusBadRequest && logsQueue.buffer == old(logsQueue.buffer)
      ensures body.Some? && json.messages(body.value).Some? ==>
                var logs := Normalize(json.messages(body.value).value, enablePlatformReport, json).logs;
                status == StatusOK &&
                logsQueue.buffer == if |logs| > 0 then old(logsQueue.buffer) + [logs] else old(logsQueue.buffer)
    {
      if body.None? {
        return StatusBadRequest;
      }
      var decoded := json.messages(body.value);
      if decoded.None? {
        return StatusBadRequest;
      }
      var messages := decoded.value;

      var logs: seq<Log> := [];
      var requestId := "";
      var i := 0;
      while i < |messages|
        invariant 0 <= i <= |messages|
        invariant Normalize(messages[..i], enablePlatformReport, json) == WalkState(logs, requestId)
      {
        var msg := messages[i];
        assert messages[..i + 1][..i] == messages[..i];
        match Classify(msg.typ) {
          case Some(PlatformStart) =>
            var start := json.start(msg.record);
            if start.Some? {
              requestId := start.value.requestId;
            }
          case Some(PlatformReport) =>
            if enablePlatformReport {
              var report := json.report(msg.record);
              if report.Some? {
                logs := logs + [Log(msg.time, PlatformReport, report.value.requestId, report.value.metrics)];
              }
            }
          case Some(t) =>
            logs := logs + [Log(msg.time, t, requestId, msg.record)];
          case None =>
        }
        i := i + 1;
      }
      assert messages[..i] == messages;

      if |logs| > 0 {
        logsQueue.Send(logs);
      }
      status := StatusOK;
    }

    /**
     * The shutdown step of `Run`: once the context is cancelled and the HTTP
     * server has shut down, the queue is closed (once) so the forwarders can drain it.
     */
    method CloseQueue()
      requires !logsQueue.closed
      modifies logsQueue
      ensures logsQueue.closed
      ensures logsQueue.buffer == old(logsQueue.buffer)
    {
      logsQueue.Close();
    }
  }

  // The six-message request of the handler's unit test.

  const SampleTime := 1597926692123000000  // 2020-08-20T12:31:32.123Z in Unix nanoseconds
  const SampleRequestId := "6f7f0961f83442118a7af6fe80b88d56"

  function SampleMessages(start: Raw, subscription: Raw, fn: Raw, dropped: Raw, end: Raw, report: Raw): seq<Message> {
    [ Message(SampleTime, "platform.start", start),
      Message(SampleTime, "platform.logsSubscription", subscription),
      Message(SampleTime, "function", fn),
      Message(SampleTime, "platform.logsDropped", dropped),
      Message(SampleTime, "platform.end", end),
      Message(SampleTime, "platform.report", report) ]
  }

  /**
   * The sample yields the function and logsDropped entries under the start's
   * request id, plus the report entry (metrics only) when reports are enabled.
   */
  lemma SampleBatch(start: Raw, subscription: Raw, fn: Raw, dropped: Raw, end: Raw, report: Raw, metrics: Raw,
                    json: Decoders)
    requires json.start(start) == Some(StartRecord(SampleRequestId))
    requires json.report(report) == Some(ReportRecord(SampleRequestId, metrics))
    ensures Normalize(SampleMessages(start, subscription, fn, dropped, end, report), true, json).logs
              == [ Log(SampleTime, Function, SampleRequestId, fn),
                   Log(SampleTime, PlatformLogsDropped, SampleRequestId, dropped),
                   Log(SampleTime, PlatformReport, SampleRequestId, metrics) ]
    ensures Normalize(SampleMessages(start, subscription, fn, dropped, end, report), false, json).logs
              == [ Log(SampleTime, Function, SampleRequestId, fn),
                   Log(SampleTime, PlatformLogsDropped, SampleRequestId, dropped) ]
  {
    var msgs := SampleMessages(start, subscription, fn, dropped, end, report);
    var fnLog := Log(SampleTime, Function, SampleRequestId, fn);
    var droppedLog := Log(SampleTime, PlatformLogsDropped, SampleRequestId, dropped);
    forall flag: bool
      ensures Normalize(msgs[..5], flag, json) == WalkState([fnLog, droppedLog], SampleRequestId)
    {
      assert msgs[..1][..0] == [];
      assert Normalize(msgs[..1], flag, json) == WalkState([], SampleRequestId);
      assert msgs[..2][..1] == msgs[..1];
      assert Normalize(msgs[..2], flag, json) == WalkState([], SampleRequestId);
      assert msgs[..3][..2] == msgs[..2];
      assert Normalize(msgs[..3], flag, json) == WalkState([fnLog], SampleRequestId);
      assert msgs[..4][..3] == msgs[..3];
      assert Normalize(msgs[..4], flag, json) == WalkState([fnLog, droppedLog], SampleRequestId);
      assert msgs[..5][..4] == msgs[..4];
    }
    assert msgs[..6] == msgs;
  }

  /**
   * The unit test's request end to end, with reports enabled: status 200 and
   * exactly one batch of three entries on a fresh queue.
   */
  method SampleRequest(body: Raw, start: Raw, subscription: Raw, fn: Raw, dropped: Raw, end: Raw, report: Raw,
                       metrics: Raw, json: Decoders)
    returns (status: int, queued: seq<seq<Log>>)
    requires json.messages(body) == Some(SampleMessages(start, subscription, fn, dropped, end, report))
    requires json.start(start) == Some(StartRecord(SampleRequestId))
    requires json.report(report) == Some(ReportRecord(SampleRequestId, metrics))
    ensures status == StatusOK
    ensures queued == [[ Log(SampleTime, Function, SampleRequestId, fn),
                         Log(SampleTime, PlatformLogsDropped, SampleRequestId, dropped),
                         Log(SampleTime, PlatformReport, SampleRequestId, metrics) ]]
  {
    var queue := new Channel.Chan<seq<Log>>();
    var service := new LogService(ServiceParams([], queue, 8080, 128, 128, 1000, true));
    SampleBatch(start, subscription, fn, dropped, end, report, metrics, json);
    status := service.LogHandler(Some(body), json);
    queued := queue.buffer;
  }
}
