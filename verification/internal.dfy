/**
 * Configuration checks and the set processor: `parseConfig`'s required
 * fields, `RunSet` (read, dry-run preview or write, event-log consumption and
 * the bounded drain), the event-log consumer and the longest set name.
 *
 * The channel and its consumer goroutine are collapsed into a synchronous
 * pass over the events `Write` emitted; alert e-mails are returned as the
 * messages they would carry.
 */
module Internal {
  import opened Wrappers
  import opened Types
  import RestApi
  import Aws

  const SourceTypeRestApi := "RestAPI"
  const DestinationTypeS3 := "S3"

  const MissingSource := "configuration appears to be missing a Source configuration"
  const MissingDestination := "configuration appears to be missing a Destination configuration"

  // ---------------------------------------------------------------- configuration

  /**
   * `parseConfig` after decoding: a decoding error passes through, an empty
   * source type is refused before an empty destination type is, and anything
   * else is the decoded configuration unchanged.
   */
  function ParseConfig(decoded: Result<AppConfig, string>): (r: Result<AppConfig, string>)
    ensures r.Success? <==>
      decoded.Success? && decoded.value.source.adapterType != "" && decoded.value.destination.adapterType != ""
    ensures r.Success? ==> r == decoded
    ensures decoded.Failure? ==> r == decoded
    ensures decoded.Success? && decoded.value.source.adapterType == "" ==> r == Failure(MissingSource)
    ensures decoded.Success? && decoded.value.source.adapterType != "" && decoded.value.destination.adapterType == "" ==>
      r == Failure(MissingDestination)
  {
    match decoded
    case Failure(e) => Failure(e)
    case Success(config) =>
      if config.source.adapterType == "" then Failure(MissingSource)
      else if config.destination.adapterType == "" then Failure(MissingDestination)
      else Success(config)
  }

  /** The longest set name, 0 when there are no sets; used to pad log prefixes. */
  method MaxSetNameLength(config: AppConfig) returns (maxLength: nat)
    ensures forall i :: 0 <= i < |config.sets| ==> |config.sets[i].name| <= maxLength
    ensures config.sets == [] ==> maxLength == 0
    ensures config.sets != [] ==> exists i :: 0 <= i < |config.sets| && |config.sets[i].name| == maxLength
  {
    maxLength := 0;
    for n := 0 to |config.sets|
      invariant forall i :: 0 <= i < n ==> |config.sets[i].name| <= maxLength
      invariant n == 0 ==> maxLength == 0
      invariant n > 0 ==> exists i :: 0 <= i < n && |config.sets[i].name| == maxLength
    {
      if maxLength < |config.sets[n].name| {
        maxLength := |config.sets[n].name|;
      }
    }
  }

  // ---------------------------------------------------------------- dry run

  const PreviewLimit := 500
  const PreviewHeader := "response:\n"
  const TruncatedMarker := "...(truncated)"

  /** The dry-run printout: a response over 500 bytes is cut to its first 500 and marked as truncated. */
  function Preview(response: Bytes): (text: string)
    ensures |PreviewHeader| <= |text| && text[..|PreviewHeader|] == PreviewHeader
    ensures |text| <= |PreviewHeader| + PreviewLimit + |TruncatedMarker|
    ensures |response| > PreviewLimit ==>
      text == PreviewHeader + AsText(response[..PreviewLimit]) + TruncatedMarker
    ensures |response| <= PreviewLimit ==> text == PreviewHeader + AsText(response) + "\n"
  {
    if |response| > PreviewLimit then PreviewHeader + AsText(response[..PreviewLimit]) + TruncatedMarker
    else PreviewHeader + AsText(response) + "\n"
  }

  // ---------------------------------------------------------------- event log

  /** Only alert and emergency items are mailed. */
  predicate Escalates(level: Priority)
  {
    level == LogAlert || level == LogEmerg
  }

  /** The line logged for each item, in order. */
  function Rendered(items: seq<EventLogItem>): (lines: seq<string>)
    ensures |lines| == |items|
    ensures forall i :: 0 <= i < |items| ==> lines[i] == items[i].String()
  {
    seq(|items|, i requires 0 <= i < |items| => items[i].String())
  }

  /** The positions of the alert- and emergency-level items. */
  ghost function EscalatingPositions(items: seq<EventLogItem>): set<int>
  {
    set i | 0 <= i < |items| && Escalates(items[i].level)
  }

  /** How many of `items` are alert- or emergency-level. */
  function CountEscalating(items: seq<EventLogItem>): (n: nat)
    ensures n == |EscalatingPositions(items)|
    ensures n <= |items|
  {
    if items == [] then
      assert EscalatingPositions(items) == {};
      0
    else
      var init, last := items[..|items| - 1], |items| - 1;
      assert EscalatingPositions(items)
          == EscalatingPositions(init) + (if Escalates(items[last].level) then {last} else {}) by {
        assert forall i :: 0 <= i < |init| ==> init[i] == items[i];
      }
      CountEscalating(init) + (if Escalates(items[last].level) then 1 else 0)
  }

  /** The alert messages the consumer sends for `items`, in order. */
  function Escalations(items: seq<EventLogItem>): (alerts: seq<string>)
    ensures |alerts| == CountEscalating(items)
    ensures alerts == [] <==> forall i :: 0 <= i < |items| ==> !Escalates(items[i].level)
  {
    if items == [] then []
    else
      var last := items[|items| - 1];
      Escalations(items[..|items| - 1]) + (if Escalates(last.level) then [last.String()] else [])
  }

  /** Every alert sent is the rendering of an alert- or emergency-level item. */
  lemma {:induction false} EscalationsAreEscalated(items: seq<EventLogItem>, k: nat)
    requires k < |Escalations(items)|
    ensures exists i :: 0 <= i < |items| && Escalates(items[i].level) && Escalations(items)[k] == items[i].String()
  {
    var init := items[..|items| - 1];
    var last := items[|items| - 1];
    if k < |Escalations(init)| {
      EscalationsAreEscalated(init, k);
      var i :| 0 <= i < |init| && Escalates(init[i].level) && Escalations(init)[k] == init[i].String();
      assert items[i] == init[i];
    } else {
      assert Escalates(last.level) && Escalations(items)[k] == last.String();
    }
  }

  /**
   * Every alert- or emergency-level item is mailed, once, at the position fixed
   * by the escalating items before it: so in order, and none is skipped.
   */
  lemma {:induction false} EscalationsComplete(items: seq<EventLogItem>, i: nat)
    requires i < |items| && Escalates(items[i].level)
    ensures CountEscalating(items[..i]) < |Escalations(items)|
    ensures Escalations(items)[CountEscalating(items[..i])] == items[i].String()
  {
    var init := items[..|items| - 1];
    if i < |init| {
      assert init[i] == items[i];
      assert init[..i] == items[..i];
      EscalationsComplete(init, i);
    } else {
      assert items[..i] == init;
    }
  }

  /** Consuming one more item logs it and, if it escalates, mails it. */
  lemma ConsumedOneMore(items: seq<EventLogItem>, n: nat)
    requires n < |items|
    ensures Rendered(items[..n + 1]) == Rendered(items[..n]) + [items[n].String()]
    ensures Escalations(items[..n + 1])
         == Escalations(items[..n]) + (if Escalates(items[n].level) then [items[n].String()] else [])
  {
    assert items[..n + 1][..n] == items[..n];
  }

  /** The consumer: logs every item and mails the alert- and emergency-level ones. */
  method ProcessEventLog(eventLog: seq<EventLogItem>) returns (logged: seq<string>, alerts: seq<string>)
    ensures logged == Rendered(eventLog)
    ensures alerts == Escalations(eventLog)
  {
    logged, alerts := [], [];
    for n := 0 to |eventLog|
      invariant logged == Rendered(eventLog[..n])
      invariant alerts == Escalations(eventLog[..n])
    {
      var msg := eventLog[n];
      ConsumedOneMore(eventLog, n);
      logged := logged + [msg.String()];
      if msg.level == LogAlert || msg.level == LogEmerg {
        alerts := alerts + [msg.String()];
      }
    }
    assert eventLog[..|eventLog|] == eventLog;
  }

  const DrainPolls := 1000

  /**
   * The wait after `Write`: polls the channel length (`backlog(i)` at poll
   * `i`) and stops at the first empty reading or after 1000 polls, whichever
   * comes first; the channel is closed afterwards either way.
   */
  method Drain(backlog: nat -> nat) returns (polls: nat)
    ensures polls <= DrainPolls
    ensures forall i :: 0 <= i < polls ==> backlog(i) != 0
    ensures polls < DrainPolls ==> backlog(polls) == 0
  {
    polls := 0;
    while polls < DrainPolls
      invariant polls <= DrainPolls
      invariant forall i :: 0 <= i < polls ==> backlog(i) != 0
    {
      if backlog(polls) == 0 {
        break;
      }
      polls := polls + 1;
    }
  }

  // ---------------------------------------------------------------- one set

  /**
   * What one `RunSet` call does: the error it returns, the dry-run preview it
   * prints, the uploads its calls of `Write` hand to the object store, the
   * event-log lines it logs and the alert messages the consumer sends.
   */
  datatype SetOutcome = SetOutcome(
    error: Option<string>,
    preview: Option<string>,
    uploads: seq<Aws.Upload>,
    logged: seq<string>,
    alerts: seq<string>)

  /**
   * `RunSet` for the adapters' current configuration. A read error aborts the
   * set and is returned; a dry run previews and writes nothing; otherwise the
   * payload is written exactly once and a failed write is reported through the
   * event log only, never as the set's error.
   */
  function SetResult(
    source: RestApi.Settings, sourceSet: RestApi.SetConfig,
    destination: Aws.S3Config, destinationSet: Aws.S3Set,
    dryRun: bool,
    transport: RestApi.Request -> RestApi.Transport,
    store: Aws.Upload -> Aws.SaveOutcome,
    now: nat): (r: SetOutcome)
    ensures var read := RestApi.ReadResult(transport(RestApi.ReadRequest(source, sourceSet)));
      && r.error == read.ErrorOption()
      && (read.Failure? ==> r.uploads == [] && r.logged == [] && r.alerts == [] && r.preview.None?)
      && (dryRun ==> r.uploads == [] && r.logged == [] && r.alerts == [])
      && (read.Success? && dryRun ==> r.preview == Some(Preview(read.value)))
      && (read.Success? && !dryRun ==>
            var written := Aws.Written(destination, destinationSet, read.value, now, store);
            && r.uploads == [Aws.UploadOf(destination, destinationSet, read.value, now)]
            && r.uploads[0].data == read.value
            && r.preview.None?
            && r.logged == [written.events[0].String()]
            && (r.alerts != [] <==> written.error.Some?)
            && (written.error.Some? ==> r.alerts == ["Alert: error saving to S3: " + written.error.value]))
  {
    var read := RestApi.ReadResult(transport(RestApi.ReadRequest(source, sourceSet)));
    match read
    case Failure(e) => SetOutcome(Some(e), None, [], [], [])
    case Success(data) =>
      if dryRun then SetOutcome(None, Some(Preview(data)), [], [], [])
      else
        var written := Aws.Written(destination, destinationSet, data, now, store);
        var events := written.events;
        assert written.error.Some? ==> Escalations(events) == ["Alert: error saving to S3: " + written.error.value] by {
          if written.error.Some? {
            SaveAlertRendering(written.error.value);
          }
        }
        SetOutcome(None, None, [Aws.UploadOf(destination, destinationSet, data, now)], Rendered(events), Escalations(events))
  }

  /** How the consumer renders the alert `Write` sends when a save fails. */
  lemma SaveAlertRendering(e: string)
    ensures EventLogItem("error saving to S3: " + e, LogAlert).String() == "Alert: error saving to S3: " + e
  {
    assert LevelName(LogAlert) == "Alert";
    assert "Alert" + ": " + ("error saving to S3: " + e) == "Alert: error saving to S3: " + e;
  }

  /** Reads from the source and, unless in dry-run mode, writes to the destination. */
  method RunSet(
    source: RestApi.RestApi, destination: Aws.S3Adapter, config: AppConfig,
    transport: RestApi.Request -> RestApi.Transport,
    store: Aws.Upload -> Aws.SaveOutcome,
    now: nat,
    backlog: nat -> nat) returns (outcome: SetOutcome)
    modifies destination
    ensures outcome == SetResult(source.Config(), source.setConfig, destination.s3Config, destination.s3Set,
                                 config.runtime.dryRunMode, transport, store, now)
    ensures destination.uploads == old(destination.uploads) + outcome.uploads
    ensures destination.destinationConfig == old(destination.destinationConfig)
    ensures destination.s3Config == old(destination.s3Config) && destination.s3Set == old(destination.s3Set)
  {
    var sourceData := source.Read(transport);
    if sourceData.Failure? {
      return SetOutcome(Some(sourceData.error), None, [], [], []);
    }
    if config.runtime.dryRunMode {
      return SetOutcome(None, Some(Preview(sourceData.value)), [], [], []);
    }
    var writeErr, eventLog := destination.Write(sourceData.value, now, store);
    var logged, alerts := ProcessEventLog(eventLog);
    var _ := Drain(backlog);
    return SetOutcome(None, None, [Aws.UploadOf(destination.s3Config, destination.s3Set, sourceData.value, now)],
                      logged, alerts);
  }
}
