/**
 * The forward service (forwardservice/forwardservice.go): drains the log
 * queue and offers each entry to every registered forwarder.
 *
 * This file is the older variant of the service: its queue carries single
 * entries (not batches), each with a `Metrics` field, and its forwarders expose
 * `SendLog` and `SendMetrics` per entry. It is modelled as written; its `Entry`
 * type is therefore separate from the log service's `Log`. The calls made on
 * the forwarders, and the wait group's `Done`, are recorded as a trace.
 */
module ForwardService {
  import opened Wrappers
  import opened Bytes
  import Channel

  /** `logservice.Metrics`, which this variant refers to, is not part of this model: kept opaque. */
  type Metrics = Raw

  /** A queued entry as this variant reads it. */
  datatype Entry = Entry(time: int, typ: string, requestId: string, content: Raw, metrics: Metrics)

  /** A registered forwarder as the dispatcher sees it: the answer of its `IsEnable()`. */
  datatype Forwarder = Forwarder(enabled: bool)

  /** What the service does that is visible outside: calls on forwarder number `forwarder`, and `wg.Done()`. */
  datatype Event =
    | SendLog(forwarder: nat, requestId: string, time: int, content: Raw)
    | SendMetrics(forwarder: nat, requestId: string, time: int, metrics: Metrics)
    | WaitGroupDone

  const ReportType := "platform.report"
  const FunctionType := "function"

  /** The entry types the dispatch switch has an arm for; it has no default arm. */
  predicate Routed(typ: string) {
    typ == ReportType || typ == FunctionType
  }

  /** The call forwarder `k` receives for a routed entry. */
  function Call(e: Entry, k: nat): Event
    requires Routed(e.typ)
  {
    if e.typ == ReportType then SendMetrics(k, e.requestId, e.time, e.metrics)
    else SendLog(k, e.requestId, e.time, e.content)
  }

  /** The calls entry `e` triggers, visiting `fwds` in list order. */
  function Offers(e: Entry, fwds: seq<Forwarder>): seq<Event>
    decreases |fwds|
  {
    if fwds == [] then []
    else
      var k := |fwds| - 1;
      Offers(e, fwds[..k]) + (if fwds[k].enabled && Routed(e.typ) then [Call(e, k)] else [])
  }

  /** The calls made while draining `entries` in queue order. */
  function Dispatch(entries: seq<Entry>, fwds: seq<Forwarder>): seq<Event>
    decreases |entries|
  {
    if entries == [] then []
    else Dispatch(entries[..|entries| - 1], fwds) + Offers(entries[|entries| - 1], fwds)
  }

  /** The positions of the enabled forwarders, in list order. */
  function EnabledIndices(fwds: seq<Forwarder>): (ks: seq<nat>)
    decreases |fwds|
    ensures forall i :: 0 <= i < |ks| ==> ks[i] < |fwds| && fwds[ks[i]].enabled
    ensures forall i, j :: 0 <= i < j < |ks| ==> ks[i] < ks[j]
    ensures forall k :: 0 <= k < |fwds| && fwds[k].enabled ==> k in ks
  {
    if fwds == [] then []
    else
      var n := |fwds| - 1;
      var rest := EnabledIndices(fwds[..n]);
      assert forall k :: 0 <= k < n ==> fwds[..n][k] == fwds[k];
      rest + (if fwds[n].enabled then [n] else [])
  }

  /**
   * An entry of a routed type reaches every enabled forwarder exactly once, in
   * list order, as `SendMetrics` for a report and `SendLog` for a function log;
   * an entry of any other type reaches none.
   */
  lemma {:induction false} OffersReachEnabled(e: Entry, fwds: seq<Forwarder>)
    ensures !Routed(e.typ) ==> Offers(e, fwds) == []
    ensures Routed(e.typ) ==> |Offers(e, fwds)| == |EnabledIndices(fwds)|
    ensures Routed(e.typ) ==> forall i :: 0 <= i < |Offers(e, fwds)| ==>
              Offers(e, fwds)[i] == Call(e, EnabledIndices(fwds)[i])
    decreases |fwds|
  {
    if fwds != [] {
      OffersReachEnabled(e, fwds[..|fwds| - 1]);
    }
  }

  /** A forwarder whose `IsEnable()` is false receives no call, whatever is queued. */
  lemma {:induction false} DisabledForwarderGetsNoCall(entries: seq<Entry>, fwds: seq<Forwarder>, k: nat)
    requires k < |fwds| && !fwds[k].enabled
    ensures forall ev :: ev in Dispatch(entries, fwds) && !ev.WaitGroupDone? ==> ev.forwarder != k
    decreases |entries|
  {
    if entries != [] {
      DisabledForwarderGetsNoCall(entries[..|entries| - 1], fwds, k);
      var e := entries[|entries| - 1];
      OffersReachEnabled(e, fwds);
      forall ev | ev in Offers(e, fwds) && !ev.WaitGroupDone?
        ensures ev.forwarder != k
      {
        var i :| 0 <= i < |Offers(e, fwds)| && Offers(e, fwds)[i] == ev;
        assert EnabledIndices(fwds)[i] != k;
      }
    }
  }

  /** Draining is queue-ordered: the calls for later entries all come after those for earlier ones. */
  lemma {:induction false} DispatchAppend(a: seq<Entry>, b: seq<Entry>, fwds: seq<Forwarder>)
    ensures Dispatch(a + b, fwds) == Dispatch(a, fwds) + Dispatch(b, fwds)
    decreases |b|
  {
    if b != [] {
      var n := |b| - 1;
      DispatchAppend(a, b[..n], fwds);
      assert (a + b)[..|a + b| - 1] == a + b[..n];
      assert (a + b)[|a + b| - 1] == b[n];
    } else {
      assert a + b == a;
    }
  }

  /** Draining never signals the wait group itself. */
  lemma {:induction false} DispatchIsCallsOnly(entries: seq<Entry>, fwds: seq<Forwarder>)
    ensures forall ev :: ev in Dispatch(entries, fwds) ==> !ev.WaitGroupDone?
    decreases |entries|
  {
    if entries != [] {
      DispatchIsCallsOnly(entries[..|entries| - 1], fwds);
      OffersAreCalls(entries[|entries| - 1], fwds);
    }
  }

  /** Offering one entry only calls forwarders. */
  lemma {:induction false} OffersAreCalls(e: Entry, fwds: seq<Forwarder>)
    ensures forall ev :: ev in Offers(e, fwds) ==> !ev.WaitGroupDone?
    decreases |fwds|
  {
    if fwds != [] {
      OffersAreCalls(e, fwds[..|fwds| - 1]);
    }
  }

  datatype ForwardServiceParams = ForwardServiceParams(logQueue: Channel.Chan<Entry>)

  class ForwardService {
    const logQueue: Channel.Chan<Entry>

    /** `New`: keeps the queue it will drain. */
    constructor (params: ForwardServiceParams)
      ensures logQueue == params.logQueue
    {
      logQueue := params.logQueue;
    }

    /**
     * `Run`: takes the queued entries in order and offers each to every enabled
     * forwarder of `forwarders` (the package-level list) before taking the next.
     * The wait group is signalled once the queue is closed and drained; if the
     * queue is still open, the loop is left waiting for more entries.
     */
    method Run(forwarders: seq<Forwarder>) returns (events: seq<Event>)
      modifies logQueue
      ensures logQueue.buffer == []
      ensures logQueue.closed == old(logQueue.closed)
      ensures events == Dispatch(old(logQueue.buffer), forwarders) + (if logQueue.closed then [WaitGroupDone] else [])
    {
      events := [];
      ghost var drained: seq<Entry> := [];
      while logQueue.buffer != []
        invariant old(logQueue.buffer) == drained + logQueue.buffer
        invariant logQueue.closed == old(logQueue.closed)
        invariant events == Dispatch(drained, forwarders)
        decreases |logQueue.buffer|
      {
        var received := logQueue.Receive();
        var log := received.value;
        for k := 0 to |forwarders|
          invariant events == Dispatch(drained, forwarders) + Offers(log, forwarders[..k])
        {
          assert forwarders[..k + 1][..k] == forwarders[..k];
          if forwarders[k].enabled {
            if log.typ == ReportType {
              events := events + [SendMetrics(k, log.requestId, log.time, log.metrics)];
            } else if log.typ == FunctionType {
              events := events + [SendLog(k, log.requestId, log.time, log.content)];
            }
          }
        }
        assert forwarders[..|forwarders|] == forwarders;
        assert (drained + [log])[..|drained|] == drained;
        drained := drained + [log];
      }
      assert drained == old(logQueue.buffer);
      if logQueue.closed {
        events := events + [WaitGroupDone];
      }
    }
  }
}
