/**
 * The New Relic forwarder (forwardservice/forwarders/newrelic/newrelic.go):
 * its configuration, the per-log mapping onto the New Relic Logs API payload,
 * and the outcome of one delivery attempt. JSON marshalling, gzip and HTTP are
 * not modelled: how far a delivery attempt gets is the `Exchange` parameter.
 */
module NewRelic {
  import opened Bytes
  import opened LogService

  const StatusAccepted := 202

  const Plugin := "lambda-extension-log-shipper"
  const NanosPerMilli := 1000000

  /** The JSON string literal `"aws lambda report"`, quotes included, that replaces a report's message. */
  const ReportMessage: Raw := [34, 97, 119, 115, 32, 108, 97, 109, 98, 100, 97, 32, 114, 101, 112, 111, 114, 116, 34]

  // Attribute keys.
  const KeyService := "service"
  const KeyTag := "tag"
  const KeyPlugin := "plugin"
  const KeyRegion := "aws.region"
  const KeyRequestId := "aws.lambdaRequestId"
  const KeyLogType := "aws.lambdaExtLogType"
  const KeyReport := "aws"

  /** The forwarder's command-line configuration. */
  datatype Config = Config(enable: bool, licenseKey: string)

  /** The identity handed to every forwarder at `Init`. */
  datatype ForwarderParams = ForwarderParams(lambdaName: string, awsRegion: string)

  /** An attribute value: a string, or a JSON fragment embedded verbatim. */
  datatype Attr = Text(s: string) | RawJson(raw: Raw)

  datatype NRLog = NRLog(timestamp: int, message: Raw, attributes: map<string, Attr>)

  datatype NRDetailedLog = NRDetailedLog(common: map<string, Attr>, logs: seq<NRLog>)

  /** The steps of a delivery that can fail before a response status is known. */
  datatype Stage = Marshal | Compress | BuildRequest | Transport | ReadResponse

  /** How far one delivery attempt got: failed at a step, or answered with a status. */
  datatype Exchange = FailedAt(stage: Stage) | Responded(status: int)

  datatype SendResult = Delivered | Dropped(reason: Exchange)

  /**
   * `t.UnixNano() / 1e6`: Go's integer division truncates toward zero, so
   * times before the epoch round up to the next millisecond.
   */
  function UnixMillis(nanos: int): (ms: int)
    ensures nanos >= 0 ==> 0 <= ms * NanosPerMilli <= nanos < ms * NanosPerMilli + NanosPerMilli
    ensures nanos < 0 ==> ms * NanosPerMilli - NanosPerMilli < nanos <= ms * NanosPerMilli <= 0
  {
    if nanos >= 0 then nanos / NanosPerMilli else -((-nanos) / NanosPerMilli)
  }

  /** The attributes shared by every entry of a payload. */
  function CommonAttributes(params: ForwarderParams): map<string, Attr> {
    map[KeyService := Text(params.lambdaName),
        KeyTag := Text(params.lambdaName),
        KeyPlugin := Text(Plugin),
        KeyRegion := Text(params.awsRegion)]
  }

  /** Whether `nr` is the New Relic rendering of `log`. */
  predicate Renders(nr: NRLog, log: Log) {
    && nr.timestamp == UnixMillis(log.time)
    && KeyRequestId in nr.attributes && nr.attributes[KeyRequestId] == Text(log.requestId)
    && KeyLogType in nr.attributes && nr.attributes[KeyLogType] == Text(log.typ.Name())
    && (log.typ == PlatformReport ==>
          && nr.message == ReportMessage
          && nr.attributes.Keys == {KeyRequestId, KeyLogType, KeyReport}
          && nr.attributes[KeyReport] == RawJson(log.content))
    && (log.typ != PlatformReport ==>
          && nr.message == log.content
          && nr.attributes.Keys == {KeyRequestId, KeyLogType})
  }

  class Newrelic {
    var cfg: Config
    var params: ForwarderParams

    /** `New` followed by flag parsing: the configuration is fixed, the identity not yet set. */
    constructor (cfg: Config)
      ensures this.cfg == cfg
      ensures params == ForwarderParams("", "")
    {
      this.cfg := cfg;
      params := ForwarderParams("", "");
    }

    /** `Init`: stores the identity used in every later payload. */
    method Init(params: ForwarderParams)
      modifies this
      ensures this.params == params
      ensures cfg == old(cfg)
    {
      this.params := params;
    }

    /** `IsEnable`: the `newrelic-enable` flag. */
    function IsEnable(): bool
      reads this
    {
      cfg.enable
    }

    /**
     * The payload `SendLog` builds: the common attributes from the stored
     * identity, and one rendered entry per log, in order.
     */
    method BuildPayload(logs: seq<Log>) returns (payload: NRDetailedLog)
      ensures payload.common == CommonAttributes(params)
      ensures |payload.logs| == |logs|
      ensures forall i :: 0 <= i < |logs| ==> Renders(payload.logs[i], logs[i])
    {
      payload := NRDetailedLog(CommonAttributes(params), []);
      for i := 0 to |logs|
        invariant payload.common == CommonAttributes(params)
        invariant |payload.logs| == i
        invariant forall j :: 0 <= j < i ==> Renders(payload.logs[j], logs[j])
      {
        var log := logs[i];
        var nrlog := NRLog(UnixMillis(log.time), log.content,
                           map[KeyRequestId := Text(log.requestId), KeyLogType := Text(log.typ.Name())]);
        if log.typ == PlatformReport {
          nrlog := nrlog.(message := ReportMessage,
                          attributes := nrlog.attributes[KeyReport := RawJson(log.content)]);
        }
        payload := payload.(logs := payload.logs + [nrlog]);
      }
    }

    /**
     * `SendLog`: builds the payload and makes one delivery attempt. The request
     * body is the marshalled one-element array holding the payload; `sent` is
     * that array when the request is issued. Any failed step ends the attempt;
     * only a 202 Accepted response counts as delivered, and at most one request
     * is ever issued (no retry).
     */
    method SendLog(logs: seq<Log>, exchange: Exchange) returns (result: SendResult, requests: nat, sent: seq<NRDetailedLog>)
      ensures result == Delivered <==> exchange == Responded(StatusAccepted)
      ensures result != Delivered ==> result == Dropped(exchange)
      ensures requests <= 1
      ensures requests == 1 <==> !(exchange in {FailedAt(Marshal), FailedAt(Compress), FailedAt(BuildRequest)})
      ensures requests == 0 <==> sent == []
      ensures requests == 1 ==>
                && |sent| == 1
                && sent[0].common == CommonAttributes(params)
                && |sent[0].logs| == |logs|
                && forall i :: 0 <= i < |logs| ==> Renders(sent[0].logs[i], logs[i])
    {
      var payload := BuildPayload(logs);
      requests, sent := 0, [];
      match exchange {
        case FailedAt(stage) =>
          if stage == Transport || stage == ReadResponse {
            requests, sent := 1, [payload];
          }
          return Dropped(exchange), requests, sent;
        case Responded(status) =>
          requests, sent := 1, [payload];
          if status != StatusAccepted {
            return Dropped(exchange), requests, sent;
          }
      }
      result := Delivered;
    }
  }
}
