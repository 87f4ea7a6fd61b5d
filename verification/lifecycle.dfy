/**
 * The extension's `main` (main.go): register with the Extensions API, start
 * the log service (which subscribes to the Logs API) and the forward service,
 * poll for events until a SHUTDOWN event or a termination signal, then cancel
 * the root context and wait, bounded, for the two services.
 *
 * The Extensions API, OS signals and the timer are not modelled: what they
 * deliver is the `Environment` parameter. The endless poll loop is observed on
 * a finite sequence of turns; when the turns run out the process is still polling.
 */
module Lifecycle {

  /** The result of one blocking `NextEvent` call. */
  datatype Poll = Invoke | Shutdown | PollError

  /**
   * One iteration of the loop: whether a termination signal is pending when
   * the select runs, and what `NextEvent` would return if it is called.
   */
  datatype Turn = Turn(signalled: bool, poll: Poll)

  datatype Environment = Environment(
    registerOk: bool,     // whether RegisterExtension succeeds
    subscribeOk: bool,    // whether SubscribeLogs, called inside the log service's Run, succeeds
    turns: seq<Turn>,
    servicesDoneInTime: bool)  // whether both services call Done before the 1950 ms timer fires

  /** The observable steps of `main`, in order. */
  datatype Action =
    | Register
    | CreateQueue
    | StartLogService
    | StartForwardService
    | NextEvent
    | CancelRoot
    | WaitServices(count: nat)

  datatype Cause = Signal | ShutdownEvent

  /** How `main` ends. */
  datatype Exit =
    | RegisterFailed               // fatal log: the process exits with status 1
    | SubscribeFailed              // fatal log inside the log service's Run: exit status 1
    | PollFailed                   // `return` from main
    | Closed(cause: Cause, clean: bool)  // after cancellation and the bounded wait
    | Polling                      // the observed turns ran out

  /** The number of services `main` adds to the wait group. */
  const ServiceCount := 2

  /** The steps taken once registration has succeeded, before the first poll. */
  const Startup := [Register, CreateQueue, StartLogService, StartForwardService]

  /** The process exit status. */
  function ExitStatus(exit: Exit): (status: int)
    ensures status != 0 <==> exit == RegisterFailed || exit == SubscribeFailed
  {
    if exit == RegisterFailed || exit == SubscribeFailed then 1 else 0
  }

  /** Whether a turn leaves the loop: a pending signal, or a poll that returns an error or SHUTDOWN. */
  predicate Stops(t: Turn) {
    t.signalled || t.poll != Invoke
  }

  /** The index of the first turn that leaves the loop, or the number of turns if none does. */
  function FirstStop(turns: seq<Turn>): (i: nat)
    ensures i <= |turns|
    ensures forall k :: 0 <= k < i ==> !Stops(turns[k])
    ensures i < |turns| ==> Stops(turns[i])
  {
    if turns == [] then 0
    else if Stops(turns[0]) then 0
    else 1 + FirstStop(turns[1..])
  }

  /** `n` consecutive `NextEvent` calls. */
  function Polls(n: nat): (r: seq<Action>)
    ensures |r| == n
    ensures forall a :: a in r ==> a == NextEvent
  {
    if n == 0 then [] else Polls(n - 1) + [NextEvent]
  }

  /**
   * `main` from registration to exit. A failed registration is fatal before
   * anything else starts; a failed log subscription is fatal once the queue and
   * the log service exist, before the forward service starts or any poll.
   * Invoke events keep the loop polling. The signal is looked at only between
   * polls. A poll error returns at once, without
   * cancelling or waiting. A signal or a SHUTDOWN event leaves the loop, and is
   * followed by the cancellation and then the bounded wait for both services.
   */
  method Run(env: Environment) returns (exit: Exit, trace: seq<Action>)
    ensures !env.registerOk ==> exit == RegisterFailed && trace == [Register]
    ensures env.registerOk && !env.subscribeOk ==>
              exit == SubscribeFailed && trace == [Register, CreateQueue, StartLogService]
    ensures env.registerOk && env.subscribeOk ==> |trace| >= |Startup| && trace[..|Startup|] == Startup
    ensures (CancelRoot in trace) <==> exit.Closed?
    ensures env.registerOk && env.subscribeOk ==>
              var i := FirstStop(env.turns);
              if i == |env.turns| then
                exit == Polling && trace == Startup + Polls(i)
              else if env.turns[i].signalled then
                exit == Closed(Signal, env.servicesDoneInTime)
                && trace == Startup + Polls(i) + [CancelRoot, WaitServices(ServiceCount)]
              else if env.turns[i].poll == PollError then
                exit == PollFailed && trace == Startup + Polls(i + 1)
              else
                exit == Closed(ShutdownEvent, env.servicesDoneInTime)
                && trace == Startup + Polls(i + 1) + [CancelRoot, WaitServices(ServiceCount)]
  {
    trace := [Register];
    if !env.registerOk {
      return RegisterFailed, trace;
    }
    trace := trace + [CreateQueue, StartLogService];
    if !env.subscribeOk {
      return SubscribeFailed, trace;
    }
    trace := trace + [StartForwardService];

    var turns := env.turns;
    var i := 0;
    var cause := Signal;
    while i < |turns|
      invariant 0 <= i <= |turns|
      invariant forall k :: 0 <= k < i ==> !Stops(turns[k])
      invariant trace == Startup + Polls(i)
    {
      if turns[i].signalled {
        break;
      }
      trace := trace + [NextEvent];
      if turns[i].poll == PollError {
        return PollFailed, trace;
      }
      if turns[i].poll == Shutdown {
        cause := ShutdownEvent;
        break;
      }
      i := i + 1;
    }
    if i == |turns| {
      return Polling, trace;
    }

    trace := trace + [CancelRoot, WaitServices(ServiceCount)];
    exit := Closed(cause, env.servicesDoneInTime);
  }
}
