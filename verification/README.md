# lambda-extension-log-shipper, modelled in Dafny

This project models the core of an AWS Lambda extension. The extension receives batches of Lambda Logs API messages on a local HTTP endpoint. It normalises them into `Log` entries and queues each batch. A forward service drains the queue and offers every entry to its forwarders. The forward service's own package-level list holds only the stdout forwarder (forwardservice/forwardservice.go:22-26); the New Relic forwarder is registered in `main.go`'s list (main.go:36), and its configuration, payload and delivery are modelled on their own. Meanwhile `main` registers with the Extensions API and polls for lifecycle events until shutdown.

Files and modules:

- `logservice.dfy` (module `LogService`): the `logHandler` walk, proved against `Normalize`. `Normalize` is the left fold of the walk over the message array. Beside it are lemmas on entry order, entry count, the running request id and the unit test's six-message request.
- `newrelic.dfy` (module `NewRelic`): the forwarder's configuration, `Init`, `IsEnable`, the loop that builds the New Relic payload, and the outcome of one delivery attempt.
- `forwardservice.dfy` (module `ForwardService`): the dispatch loop, proved against `Dispatch`. Lemmas cover FIFO order, the forwarder order, enablement and routing by type.
- `lifecycle.dfy` (module `Lifecycle`): `main`'s register, poll, cancel and wait sequence as a method that returns the exit and the trace of steps.
- `channel.dfy` (module `Channel`): a Go channel as a class with a buffer and a closed flag. `bytes.dfy` and `wrappers.dfy` hold the byte type and `Option`.

Abstractions used throughout:

- JSON decoding is three partial functions in a `Decoders` value: the outer array, start records and report records. Records and metrics stay opaque bytes.
- Time is an integer count of nanoseconds since the Unix epoch.
- The Extensions API, OS signals and the shutdown timer become the `Lifecycle.Environment` parameter.
- How far a New Relic HTTP delivery gets is the `NewRelic.Exchange` parameter.

Where the code and its description differ, the model follows the code:

- `platform.report` messages become entries only when `enablePlatformReport` is set (logservice/logservice.go:171-173). `main.go` never sets the flag (main.go:116-124), and neither does the handler test (logservice/logservice_test.go:201-209), yet the test expects the report entry. The flag is therefore a parameter. `LogService.SampleBatch` proves that the test's expected batch of three entries comes out with the flag on, and that only two entries come out with it off.
- A `NextEvent` error makes `main` `return` (main.go:149-153). That gives exit status 0, with no cancellation and no wait for the services. It does not lead to a non-zero exit or a shutdown sequence.
- The handler reads the whole body with no size limit. A send on a full queue blocks, and a cancellation cannot interrupt it. Nothing calls a shutdown hook on the forwarders.
- `forwardservice/forwardservice.go` is an older variant of the service. Its queue is a channel of single `Log` values that carry a `Metrics` field, and its forwarders are an unexported interface with `SendLog` and `SendMetrics` per entry. But `main.go:128-134` and `newrelic.go:21,62` use `ServiceParams{Forwarders, LogsQueue, LambdaName, AWSRegion}`, `Forwarder` and `ForwarderParams`, and the file does not define them. The file is modelled as written: `ForwardService.Entry` is its own type, and `NewRelic.ForwarderParams` is declared next to the New Relic forwarder.

## Model

| member | source | states |
|---|---|---|
| `Channel.Chan.constructor` | main.go:110-111 | the logs queue starts open and empty |
| `Channel.Chan.Send` | logservice/logservice.go:199-202 | sending appends the value at the back of the queue and needs the queue to be open |
| `Channel.Chan.Close` | logservice/logservice.go:112-113 | closing needs the queue to be open, keeps the buffered values and marks it closed |
| `Channel.Chan.Receive` | forwardservice/forwardservice.go:45 | a receive takes the oldest value first, and yields nothing only once the queue is closed and drained |
| `LogService.Classify` | logservice/logservice.go:23-31 | a recognised type string is exactly the wire name of the type it maps to |
| `LogService.ClassifyName` | logservice/logservice.go:25-31 | every recognised type is recovered from its own wire name |
| `LogService.Emitted` | logservice/logservice.go:161-195 | a message yields at most one entry, and exactly one iff it emits (function, fault or logsDropped; a report only if the flag is set and it decodes). The entry keeps the message's time and type. A non-report entry carries the running request id and the raw record verbatim. A report entry carries the report's own request id and its metrics only |
| `LogService.Origins` | logservice/logservice.go:160-197 | lists every emitting message position exactly once, in ascending order |
| `LogService.NormalizeLength` | logservice/logservice.go:160-197 | the batch has one entry per emitting message |
| `LogService.NormalizeEntry` | logservice/logservice.go:158-197 | the i-th entry is what the i-th emitting message yields under the request id reached just before it |
| `LogService.RunningIdWithoutStart` | logservice/logservice.go:158-168 | without a decodable start message the running request id stays empty |
| `LogService.RunningIdIsLastStart` | logservice/logservice.go:162-168 | the running request id is that of the last start message whose record decodes. Starts that fail to decode and all other types leave it unchanged |
| `LogService.EntryTypes` | logservice/logservice.go:162-173 | no entry is ever a platform.start, and with the report flag off no entry is a platform.report |
| `LogService.LogService.constructor` | logservice/logservice.go:77-88 | `New` copies every modelled parameter into the service (all but the Logs API client) |
| `LogService.LogService.LogHandler` | logservice/logservice.go:140-203 | an unreadable body or an undecodable array answers 400 and leaves the queue unchanged. Otherwise it answers 200, and the queue gains exactly one batch, equal to the normalised entries, iff that batch is non-empty |
| `LogService.LogService.CloseQueue` | logservice/logservice.go:102-118 | after shutdown the queue is closed once and its buffered batches are kept |
| `LogService.SampleBatch` | logservice/logservice_test.go:113-185 | the six-message sample yields function, logsDropped and report entries, all under request id 6f7f…8d56, with the report's content being its metrics; with the flag off the report entry is absent |
| `LogService.SampleRequest` | logservice/logservice_test.go:201-224 | posting the sample with reports enabled answers 200 and queues exactly one batch of those three entries |
| `NewRelic.UnixMillis` | forwardservice/forwarders/newrelic/newrelic.go:82 | the timestamp is the nanosecond time divided by 10^6, truncated toward zero |
| `NewRelic.Newrelic.constructor` | forwardservice/forwarders/newrelic/newrelic.go:44-60 | the forwarder starts with its parsed configuration and no identity yet |
| `NewRelic.Newrelic.Init` | forwardservice/forwarders/newrelic/newrelic.go:62-65 | `Init` stores the identity and leaves the configuration alone |
| `NewRelic.Newrelic.BuildPayload` | forwardservice/forwarders/newrelic/newrelic.go:71-95 | the common attributes are service = tag = lambda name, the plugin name and the region. There is one entry per log, in order, with a millisecond timestamp and the request id and type attributes. A report's message is the literal "aws lambda report" and its content goes under `aws`. Any other log's message is its content verbatim |
| `NewRelic.Newrelic.SendLog` | forwardservice/forwarders/newrelic/newrelic.go:71-137 | a send counts as delivered iff the response is 202 Accepted. A failure at any step ends the attempt. At most one request is ever issued, and none if marshal, compress or request building fails. An issued request carries a one-element array whose payload has the common attributes of the stored identity and one rendered entry per log, in order; nothing is sent iff no request is issued |
| `ForwardService.EnabledIndices` | forwardservice/forwardservice.go:47-48 | lists every enabled forwarder position exactly once, in list order |
| `ForwardService.DisabledForwarderGetsNoCall` | forwardservice/forwardservice.go:47-48 | a forwarder whose `IsEnable()` is false receives no call, whatever is queued |
| `ForwardService.OffersReachEnabled` | forwardservice/forwardservice.go:47-56 | a report reaches each enabled forwarder exactly once, in list order, as `SendMetrics(requestId, time, metrics)`. A function log does the same as `SendLog(requestId, time, content)`. Any other type reaches no forwarder, and disabled forwarders get no call |
| `ForwardService.DispatchAppend` | forwardservice/forwardservice.go:45-57 | the calls for a queue are those of its first part followed by those of the rest: entries are served in FIFO order, each entry fully before the next |
| `ForwardService.DispatchIsCallsOnly` | forwardservice/forwardservice.go:45-57 | draining the queue only calls forwarders; it never signals the wait group |
| `ForwardService.OffersAreCalls` | forwardservice/forwardservice.go:47-56 | offering one entry only calls forwarders |
| `ForwardService.ForwardService.constructor` | forwardservice/forwardservice.go:36-40 | `New` keeps the queue to drain |
| `ForwardService.ForwardService.Run` | forwardservice/forwardservice.go:42-63 | the queue is drained and the calls are exactly the dispatch of its old contents. `wg.Done` comes once, last, and only if the queue is closed |
| `Lifecycle.ExitStatus` | main.go:105-108 | the exit status is non-zero exactly for a failed registration or a failed log subscription, both fatal |
| `Lifecycle.FirstStop` | main.go:141-161 | finds the first turn that leaves the loop: every earlier turn is an Invoke poll with no pending signal |
| `Lifecycle.Run` | main.go:104-177 | a failed registration is fatal before the queue or either service exists. A failed Logs API subscription (logservice/logservice.go:129-137, reached through main.go:125) is fatal after the queue and the log service exist, before the forward service starts or any poll. Invoke keeps polling. A pending signal, checked only between polls, leaves the loop before the next poll. A poll error returns at once without cancelling or waiting. A signal or SHUTDOWN leaves the loop and is followed by the cancellation and then a wait on the two services, ending clean or timed out |

## Left out

- `LogService.LogService.LogHandler`: the queue is unbounded in the model. The capacity of 8 batches and the blocking send on a full queue are not modelled. The handler is modelled only while the queue is open: when the one-second server shutdown expires while a handler is blocked on a full queue, the queue is closed under it, the send panics, net/http recovers, the batch is lost and no 200 is written. That loss is not captured.
- `ForwardService.ForwardService.Run`: the service runs concurrently with the handler. The model drains what is queued at the moment of the call; if the queue is still open, the loop is left where it would block.
- `Lifecycle.Run`: the poll loop never ends on its own, so the model observes a finite sequence of turns and reports `Polling` when they run out. Whether the services finish within 1950 ms is an input.
- `LogService.Run`: starting the HTTP server, the subscription call to the Logs API and the one-second server shutdown are I/O and goroutines. Only the final step, closing the queue, is modelled (`CloseQueue`); the subscription's outcome is the `subscribeOk` input of `Lifecycle.Run`. The fatal exit when `ListenAndServe` fails (logservice/logservice.go:122-124) happens on its own goroutine at an unknown point of `main` and is not modelled.
- `LogService.LogService.constructor`: the Logs API client (`LogAPIClient`) is not a field of the model, because only `Run`'s subscription uses it.
- JSON encoding and decoding are abstract. This includes the float metric values, the marshalling of the New Relic payload and the `interface{}` attribute values, which are modelled as strings or raw JSON.
- The gzip compression and its empty-input guard (utils/compress.go), the HTTP request headers, the license key and reading the response body are abstract. They appear only as the step at which a New Relic delivery can fail.
- `SetupConfigs` flag parsing, zerolog logging, OS signal delivery, timers and goroutine scheduling are not modelled.
- `time.Time.UnixNano` is undefined outside the int64 range (years 1678 to 2262). The model uses unbounded integers.
- The stdout forwarder, the extension HTTP client (extension/), the unused eventservice/eventservice.go and examples/hello-lambda-extension.go are not part of this model.
