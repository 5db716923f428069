/**
 * The run orchestrator: load the configuration, build the one source and the
 * one destination its types name, process every set in order while collecting
 * error messages, and send one summary alert if any were collected. The run
 * itself always succeeds; failures are reported only through alerts.
 */
module Archiver {
  import opened Wrappers
  import opened Types
  import RestApi
  import Aws
  import Internal

  /**
   * Everything outside the core, as fixed answers: JSON decoding into each
   * adapter type, the token exchange, and, per set index, the REST server's
   * answer, the object store's answer, the clock and the channel backlog the
   * drain observes.
   */
  datatype Env = Env(
    decodeSource: Bytes -> Result<RestApi.Settings, string>,
    exchange: RestApi.TokenRequest -> Result<RestApi.TokenResponse, string>,
    decodeSourceSet: Bytes -> Result<RestApi.SetConfig, string>,
    decodeDestination: Bytes -> Result<Aws.S3Config, string>,
    decodeDestinationSet: Bytes -> Result<Aws.S3Set, string>,
    transport: nat -> RestApi.Request -> RestApi.Transport,
    store: nat -> Aws.Upload -> Aws.SaveOutcome,
    clock: nat -> nat,
    backlog: nat -> nat -> nat)

  // ---------------------------------------------------------------- start-up

  /** A configuration and the settings of the two adapters built from it. */
  datatype Started = Started(config: AppConfig, source: RestApi.Settings, destination: Aws.S3Config)

  function LoadFailedMessage(err: string): string
  {
    "Unable to load config, error: " + err
  }

  function SourceFailedMessage(adapterType: string, err: string): string
  {
    "Unable to initialize " + adapterType + " source, error: " + err
  }

  function DestinationFailedMessage(adapterType: string, err: string): string
  {
    "Unable to initialize " + adapterType + " destination, error: " + err
  }

  const UnrecognizedSource := "unrecognized source type"
  const UnrecognizedDestination := "unrecognized destination type"

  /**
   * Loading, then source selection, then destination selection; the first
   * failure is the text of the one alert the run sends. Only the `RestAPI`
   * source type and the `S3` destination type are accepted.
   */
  function Startup(decoded: Result<AppConfig, string>, env: Env): (r: Result<Started, string>)
    ensures r.Success? ==>
      && Internal.ParseConfig(decoded) == Success(r.value.config)
      && r.value.config.source.adapterType == Internal.SourceTypeRestApi
      && r.value.config.destination.adapterType == Internal.DestinationTypeS3
      && RestApi.Constructed(r.value.config.source, env.decodeSource, env.exchange) == Success(r.value.source)
      && Aws.Validated(r.value.config.destination, env.decodeDestination) == Success(r.value.destination)
    ensures Internal.ParseConfig(decoded).Failure? ==>
      r == Failure(LoadFailedMessage(Internal.ParseConfig(decoded).error))
    ensures Internal.ParseConfig(decoded).Success? ==> var config := Internal.ParseConfig(decoded).value;
      && (config.source.adapterType != Internal.SourceTypeRestApi ==>
            r == Failure(SourceFailedMessage(config.source.adapterType, UnrecognizedSource)))
      && (config.source.adapterType == Internal.SourceTypeRestApi
          && RestApi.Constructed(config.source, env.decodeSource, env.exchange).Failure? ==>
            r == Failure(SourceFailedMessage(config.source.adapterType,
                                             RestApi.Constructed(config.source, env.decodeSource, env.exchange).error)))
      && (config.source.adapterType == Internal.SourceTypeRestApi
          && config.destination.adapterType != Internal.DestinationTypeS3
          && RestApi.Constructed(config.source, env.decodeSource, env.exchange).Success? ==>
            r == Failure(DestinationFailedMessage(config.destination.adapterType, UnrecognizedDestination)))
      && (config.source.adapterType == Internal.SourceTypeRestApi
          && config.destination.adapterType == Internal.DestinationTypeS3
          && RestApi.Constructed(config.source, env.decodeSource, env.exchange).Success?
          && Aws.Validated(config.destination, env.decodeDestination).Failure? ==>
            r == Failure(DestinationFailedMessage(config.destination.adapterType,
                                                  Aws.Validated(config.destination, env.decodeDestination).error)))
    ensures r.Success? <==>
      && Internal.ParseConfig(decoded).Success?
      && Internal.ParseConfig(decoded).value.source.adapterType == Internal.SourceTypeRestApi
      && Internal.ParseConfig(decoded).value.destination.adapterType == Internal.DestinationTypeS3
      && RestApi.Constructed(Internal.ParseConfig(decoded).value.source, env.decodeSource, env.exchange).Success?
      && Aws.Validated(Internal.ParseConfig(decoded).value.destination, env.decodeDestination).Success?
  {
    match Internal.ParseConfig(decoded)
    case Failure(e) => Failure(LoadFailedMessage(e))
    case Success(config) =>
      var source :=
        if config.source.adapterType == Internal.SourceTypeRestApi
        then RestApi.Constructed(config.source, env.decodeSource, env.exchange)
        else Failure(UnrecognizedSource);
      if source.Failure? then
        Failure(SourceFailedMessage(config.source.adapterType, source.error))
      else
        var destination :=
          if config.destination.adapterType == Internal.DestinationTypeS3
          then Aws.Validated(config.destination, env.decodeDestination)
          else Failure(UnrecognizedDestination);
        if destination.Failure? then
          Failure(DestinationFailedMessage(config.destination.adapterType, destination.error))
        else
          Success(Started(config, source.value, destination.value))
  }

  // ---------------------------------------------------------------- per-set state

  /** The source's per-set configuration after `ForSet` was applied for each of `sets`: a failure keeps the previous one. */
  function SourceSetAfter(sets: seq<ArchiveSet>, decode: Bytes -> Result<RestApi.SetConfig, string>)
    : (c: RestApi.SetConfig)
    ensures c.path == "" <==> forall i :: 0 <= i < |sets| ==> RestApi.ApplySet(sets[i].name, decode(sets[i].source)).Failure?
  {
    if sets == [] then RestApi.SetConfig("")
    else
      var last := sets[|sets| - 1];
      match RestApi.ApplySet(last.name, decode(last.source))
      case Success(c) => c
      case Failure(_) =>
        assert forall i :: 0 <= i < |sets| - 1 ==> sets[..|sets| - 1][i] == sets[i];
        SourceSetAfter(sets[..|sets| - 1], decode)
  }

  /** The destination's per-set configuration after `ForSet` was applied for each of `sets`. */
  function DestinationSetAfter(sets: seq<ArchiveSet>, decode: Bytes -> Result<Aws.S3Set, string>)
    : (c: Aws.S3Set)
    ensures c.objectNamePrefix == "" <==>
      forall i :: 0 <= i < |sets| ==> Aws.ApplySet(sets[i].name, decode(sets[i].destination)).Failure?
  {
    if sets == [] then Aws.S3Set("")
    else
      var last := sets[|sets| - 1];
      match Aws.ApplySet(last.name, decode(last.destination))
      case Success(c) => c
      case Failure(_) =>
        assert forall i :: 0 <= i < |sets| - 1 ==> sets[..|sets| - 1][i] == sets[i];
        DestinationSetAfter(sets[..|sets| - 1], decode)
  }

  /** The path a set is read from is either unset (no `ForSet` has succeeded yet) or starts with `/`. */
  lemma {:induction false} SourcePathRootedOrUnset(sets: seq<ArchiveSet>, decode: Bytes -> Result<RestApi.SetConfig, string>)
    ensures var path := SourceSetAfter(sets, decode).path; path == "" || RestApi.Rooted(path)
  {
    if sets != [] {
      SourcePathRootedOrUnset(sets[..|sets| - 1], decode);
    }
  }

  /** The prefix a set is written under is either unset or non-empty and named by some `ForSet`. */
  lemma {:induction false} DestinationPrefixChosen(sets: seq<ArchiveSet>, decode: Bytes -> Result<Aws.S3Set, string>)
    ensures var prefix := DestinationSetAfter(sets, decode).objectNamePrefix;
      prefix == "" || exists i :: 0 <= i < |sets| && Aws.ApplySet(sets[i].name, decode(sets[i].destination)) == Success(Aws.S3Set(prefix))
  {
    if sets != [] {
      var init := sets[..|sets| - 1];
      DestinationPrefixChosen(init, decode);
      var prefix := DestinationSetAfter(init, decode).objectNamePrefix;
      if prefix != "" && DestinationSetAfter(sets, decode) == DestinationSetAfter(init, decode) {
        var i :| 0 <= i < |init| && Aws.ApplySet(init[i].name, decode(init[i].destination)) == Success(Aws.S3Set(prefix));
        assert sets[i] == init[i];
      }
    }
  }

  // ---------------------------------------------------------------- per-set messages

  const NoNameMessage := "configuration contains a set with no name"

  /** A message about the named set: `<what> "<name>": <err>`, which names the set in quotes and carries the error. */
  function SetMessage(what: string, name: string, err: string): (m: string)
    ensures |what| <= |m| && m[..|what|] == what
    ensures Mentions(m, Quoted(name)) && Mentions(m, err)
  {
    MentionsEach(what, Quoted(name), ": ", err);
    what + Quoted(name) + ": " + err
  }

  function Quoted(name: string): string
  {
    "\"" + name + "\""
  }

  const SourceForSetFailed := "Error setting source set on set "
  const DestinationForSetFailed := "Error setting destination set on set "
  const ArchiveFailed := "Archive failed with error on set "

  /** The message for a failure, if there was one. */
  function MessageFor(what: string, name: string, err: Option<string>): (m: seq<string>)
    ensures |m| == (if err.Some? then 1 else 0)
    ensures forall k :: 0 <= k < |m| ==> Mentions(m[k], Quoted(name))
  {
    if err.Some? then [SetMessage(what, name, err.value)] else []
  }

  function Flag(b: bool): nat
  {
    if b then 1 else 0
  }

  /**
   * The messages one set adds to the run's error list: one per failure, at most
   * four, in the order the failures happen (missing name, source `ForSet`,
   * destination `ForSet`, `RunSet`), each carrying its error.
   */
  function SetMessages(name: string, sourceErr: Option<string>, destinationErr: Option<string>,
                       archiveErr: Option<string>): (m: seq<string>)
    ensures |m| == Flag(name == "") + Flag(sourceErr.Some?) + Flag(destinationErr.Some?) + Flag(archiveErr.Some?)
    ensures m == [] <==> name != "" && sourceErr.None? && destinationErr.None? && archiveErr.None?
    ensures name == "" ==> m[0] == NoNameMessage
    ensures sourceErr.Some? ==>
      m[Flag(name == "")] == SetMessage(SourceForSetFailed, name, sourceErr.value)
    ensures destinationErr.Some? ==>
      m[Flag(name == "") + Flag(sourceErr.Some?)] == SetMessage(DestinationForSetFailed, name, destinationErr.value)
    ensures archiveErr.Some? ==>
      m[|m| - 1] == SetMessage(ArchiveFailed, name, archiveErr.value)
  {
    (if name == "" then [NoNameMessage] else [])
    + MessageFor(SourceForSetFailed, name, sourceErr)
    + MessageFor(DestinationForSetFailed, name, destinationErr)
    + MessageFor(ArchiveFailed, name, archiveErr)
  }

  /** Every message a set adds, except the missing-name notice, names the set. */
  lemma SetMessagesNameTheSet(name: string, sourceErr: Option<string>, destinationErr: Option<string>,
                              archiveErr: Option<string>, k: nat)
    requires k < |SetMessages(name, sourceErr, destinationErr, archiveErr)|
    ensures var m := SetMessages(name, sourceErr, destinationErr, archiveErr);
      m[k] == NoNameMessage || Mentions(m[k], Quoted(name))
  {
    var first := if name == "" then [NoNameMessage] else [];
    var src := MessageFor(SourceForSetFailed, name, sourceErr);
    var dst := MessageFor(DestinationForSetFailed, name, destinationErr);
    var arc := MessageFor(ArchiveFailed, name, archiveErr);
    var m := SetMessages(name, sourceErr, destinationErr, archiveErr);
    if k < |first| {
    } else if k < |first| + |src| {
      assert m[k] == src[k - |first|];
    } else if k < |first| + |src| + |dst| {
      assert m[k] == dst[k - |first| - |src|];
    } else {
      assert m[k] == arc[k - |first| - |src| - |dst|];
    }
  }

  /** What the run did for one set: its name, the messages it added and what `RunSet` did. */
  datatype SetReport = SetReport(name: string, messages: seq<string>, outcome: Internal.SetOutcome)

  /**
   * The report of the set at index `i`: `ForSet` on both adapters (whose errors
   * do not stop the set), then `RunSet` with whatever per-set configuration is
   * in effect after those calls.
   */
  function ExpectedReport(sets: seq<ArchiveSet>, i: nat, started: Started, env: Env): (r: SetReport)
    requires i < |sets|
    ensures r.name == sets[i].name
  {
    var archiveSet := sets[i];
    var sourceErr := RestApi.ApplySet(archiveSet.name, env.decodeSourceSet(archiveSet.source)).ErrorOption();
    var destinationErr := Aws.ApplySet(archiveSet.name, env.decodeDestinationSet(archiveSet.destination)).ErrorOption();
    var outcome := Internal.SetResult(
      started.source, SourceSetAfter(sets[..i + 1], env.decodeSourceSet),
      started.destination, DestinationSetAfter(sets[..i + 1], env.decodeDestinationSet),
      started.config.runtime.dryRunMode, env.transport(i), env.store(i), env.clock(i));
    SetReport(archiveSet.name, SetMessages(archiveSet.name, sourceErr, destinationErr, outcome.error), outcome)
  }

  /**
   * A set that reached `Write` contributes no archive-failure message, even when
   * the write failed: `RunSet` returns nil after a write, so that failure reaches
   * only the consumer's alert, never the closing summary.
   */
  lemma WrittenSetAddsNoArchiveError(sets: seq<ArchiveSet>, i: nat, started: Started, env: Env)
    requires i < |sets|
    ensures var r := ExpectedReport(sets, i, started, env);
      r.outcome.uploads != [] ==> r.outcome.error.None? && |r.messages| <= 3
  {
  }

  /** The reports of the first `n` sets, in order. */
  function ExpectedReports(sets: seq<ArchiveSet>, n: nat, started: Started, env: Env): (r: seq<SetReport>)
    requires n <= |sets|
    ensures |r| == n
    ensures forall i :: 0 <= i < n ==> r[i] == ExpectedReport(sets, i, started, env)
  {
    seq(n, i requires 0 <= i < n => ExpectedReport(sets, i, started, env))
  }

  /** One more set appends its report. */
  lemma ExpectedReportsGrow(sets: seq<ArchiveSet>, n: nat, started: Started, env: Env)
    requires n < |sets|
    ensures ExpectedReports(sets, n + 1, started, env)
         == ExpectedReports(sets, n, started, env) + [ExpectedReport(sets, n, started, env)]
  {
    var shorter := ExpectedReports(sets, n, started, env);
    var longer := ExpectedReports(sets, n + 1, started, env);
    Appended(longer, shorter, ExpectedReport(sets, n, started, env));
  }

  /** A sequence that extends `shorter` by exactly `x` is `shorter + [x]`. */
  lemma Appended<T>(longer: seq<T>, shorter: seq<T>, x: T)
    requires |longer| == |shorter| + 1 && longer[|shorter|] == x
    requires forall i :: 0 <= i < |shorter| ==> longer[i] == shorter[i]
    ensures longer == shorter + [x]
  {
  }

  /** A set whose source document is rejected is still read, from the path the previous sets left behind. */
  lemma FailedSourceForSetKeepsPreviousPath(sets: seq<ArchiveSet>, i: nat, decode: Bytes -> Result<RestApi.SetConfig, string>)
    requires i < |sets|
    requires RestApi.ApplySet(sets[i].name, decode(sets[i].source)).Failure?
    ensures SourceSetAfter(sets[..i + 1], decode) == SourceSetAfter(sets[..i], decode)
  {
    assert sets[..i + 1][..i] == sets[..i];
  }

  // ---------------------------------------------------------------- collecting and summarizing

  /** The run's error list: every set's messages, set by set. */
  function Errors(reports: seq<SetReport>): (errors: seq<string>)
    ensures errors == [] <==> forall i :: 0 <= i < |reports| ==> reports[i].messages == []
  {
    if reports == [] then []
    else
      assert forall i :: 0 <= i < |reports| - 1 ==> reports[..|reports| - 1][i] == reports[i];
      Errors(reports[..|reports| - 1]) + reports[|reports| - 1].messages
  }

  /** The alerts the event-log consumer sent while the sets ran, set by set. */
  function ConsumerAlerts(reports: seq<SetReport>): (alerts: seq<string>)
    ensures alerts == [] <==> forall i :: 0 <= i < |reports| ==> reports[i].outcome.alerts == []
  {
    if reports == [] then []
    else
      assert forall i :: 0 <= i < |reports| - 1 ==> reports[..|reports| - 1][i] == reports[i];
      ConsumerAlerts(reports[..|reports| - 1]) + reports[|reports| - 1].outcome.alerts
  }

  /** Every upload the run handed to the object store, set by set. */
  function Uploads(reports: seq<SetReport>): (uploads: seq<Aws.Upload>)
    ensures uploads == [] <==> forall i :: 0 <= i < |reports| ==> reports[i].outcome.uploads == []
  {
    if reports == [] then []
    else
      assert forall i :: 0 <= i < |reports| - 1 ==> reports[..|reports| - 1][i] == reports[i];
      Uploads(reports[..|reports| - 1]) + reports[|reports| - 1].outcome.uploads
  }

  /** The collections grow by what one more set contributes. */
  lemma CollectedAfter(reports: seq<SetReport>, report: SetReport)
    ensures Errors(reports + [report]) == Errors(reports) + report.messages
    ensures ConsumerAlerts(reports + [report]) == ConsumerAlerts(reports) + report.outcome.alerts
    ensures Uploads(reports + [report]) == Uploads(reports) + report.outcome.uploads
  {
    assert (reports + [report])[..|reports|] == reports;
  }

  /** A dry run uploads nothing, whatever the sets and the source answer. */
  lemma DryRunUploadsNothing(started: Started, env: Env)
    requires started.config.runtime.dryRunMode
    ensures Uploads(ExpectedReports(started.config.sets, |started.config.sets|, started, env)) == []
  {
  }

  /** Every message a set added is in the run's error list. */
  lemma {:induction false} ErrorsCollectEveryMessage(reports: seq<SetReport>, i: nat, k: nat)
    requires i < |reports| && k < |reports[i].messages|
    ensures reports[i].messages[k] in Errors(reports)
  {
    var init := reports[..|reports| - 1];
    if i < |init| {
      assert init[i] == reports[i];
      ErrorsCollectEveryMessage(init, i, k);
    } else {
      assert Errors(reports)[|Errors(init)| + k] == reports[i].messages[k];
    }
  }

  /** Go's `strings.Join`: the parts in order, `sep` between neighbours. */
  function Join(parts: seq<string>, sep: string): (joined: string)
    ensures parts == [] ==> joined == ""
    ensures |parts| == 1 ==> joined == parts[0]
    ensures parts != [] ==> |parts[0]| <= |joined| && joined[..|parts[0]|] == parts[0]
    ensures parts != [] ==> var last := parts[|parts| - 1];
      |last| <= |joined| && joined[|joined| - |last|..] == last
  {
    if parts == [] then ""
    else if |parts| == 1 then parts[0]
    else parts[0] + sep + Join(parts[1..], sep)
  }

  /**
   * Joining one more part appends the separator and that part: with the
   * one-part case above, this pins the joined text without Join's own recursion.
   */
  lemma {:induction false} JoinAppend(parts: seq<string>, p: string, sep: string)
    requires parts != []
    ensures Join(parts + [p], sep) == Join(parts, sep) + sep + p
  {
    var all := parts + [p];
    if |parts| == 1 {
      assert all[1..] == [p];
    } else {
      var tail := parts[1..];
      assert all[1..] == tail + [p];
      JoinAppend(tail, p, sep);
      var rest := Join(tail, sep);
      assert Join(all, sep) == parts[0] + sep + (rest + sep + p);
      assert Join(parts, sep) == parts[0] + sep + rest;
      assert parts[0] + sep + (rest + sep + p) == parts[0] + sep + rest + sep + p;
    }
  }

  /** Every part appears in the joined text. */
  lemma {:induction false} JoinMentionsEveryPart(parts: seq<string>, sep: string, k: nat)
    requires k < |parts|
    ensures Mentions(Join(parts, sep), parts[k])
  {
    var joined := Join(parts, sep);
    if k == 0 {
      assert joined[0..|parts[0]|] == parts[0];
      assert OccursAt(joined, parts[0], 0);
    } else {
      var rest := Join(parts[1..], sep);
      var pre := parts[0] + sep;
      assert joined == pre + rest;
      JoinMentionsEveryPart(parts[1..], sep, k - 1);
      assert parts[1..][k - 1] == parts[k];
      var j: nat :| OccursAt(rest, parts[k], j);
      assert (pre + rest)[|pre| + j..|pre| + j + |parts[k]|] == rest[j..j + |parts[k]|];
      assert OccursAt(joined, parts[k], |pre| + j);
    }
  }

  const SummaryHeader := "Sync error(s):\n"

  /** The closing alert: none when nothing went wrong, otherwise one listing every message. */
  function Summary(errors: seq<string>): (alerts: seq<string>)
    ensures |alerts| <= 1
    ensures alerts != [] <==> errors != []
    ensures alerts != [] ==> |SummaryHeader| <= |alerts[0]| && alerts[0][..|SummaryHeader|] == SummaryHeader
    ensures alerts != [] ==> alerts[0][|SummaryHeader|..] == Join(errors, "\n")
  {
    if errors == [] then [] else [SummaryHeader + Join(errors, "\n")]
  }

  /** The closing alert mentions every collected message. */
  lemma SummaryMentionsEveryError(errors: seq<string>, k: nat)
    requires k < |errors|
    ensures |Summary(errors)| == 1 && Mentions(Summary(errors)[0], errors[k])
  {
    var joined := Join(errors, "\n");
    JoinMentionsEveryPart(errors, "\n", k);
    var j: nat :| OccursAt(joined, errors[k], j);
    var text := SummaryHeader + joined;
    assert text[|SummaryHeader| + j..|SummaryHeader| + j + |errors[k]|] == joined[j..j + |errors[k]|];
    assert OccursAt(text, errors[k], |SummaryHeader| + j);
  }

  // ---------------------------------------------------------------- the run

  /** The body of the run loop for the set at index `i`. */
  method ProcessSet(source: RestApi.RestApi, destination: Aws.S3Adapter, started: Started, i: nat, env: Env)
    returns (report: SetReport)
    requires i < |started.config.sets|
    requires source.Config() == started.source && destination.s3Config == started.destination
    requires source.setConfig == SourceSetAfter(started.config.sets[..i], env.decodeSourceSet)
    requires destination.s3Set == DestinationSetAfter(started.config.sets[..i], env.decodeDestinationSet)
    modifies source, destination
    ensures source.Config() == started.source && destination.s3Config == started.destination
    ensures destination.destinationConfig == old(destination.destinationConfig)
    ensures source.setConfig == SourceSetAfter(started.config.sets[..i + 1], env.decodeSourceSet)
    ensures destination.s3Set == DestinationSetAfter(started.config.sets[..i + 1], env.decodeDestinationSet)
    ensures report == ExpectedReport(started.config.sets, i, started, env)
    ensures destination.uploads == old(destination.uploads) + report.outcome.uploads
  {
    var sets := started.config.sets;
    var archiveSet := sets[i];
    assert sets[..i + 1][..i] == sets[..i];
    assert sets[..i + 1][i] == archiveSet;
    var sourceErr := source.ForSet(archiveSet.name, archiveSet.source, env.decodeSourceSet);
    var destinationErr := destination.ForSet(archiveSet.name, archiveSet.destination, env.decodeDestinationSet);
    ghost var sourceSet := SourceSetAfter(sets[..i + 1], env.decodeSourceSet);
    ghost var destinationSet := DestinationSetAfter(sets[..i + 1], env.decodeDestinationSet);
    assert source.setConfig == sourceSet && destination.s3Set == destinationSet;
    var outcome := Internal.RunSet(source, destination, started.config, env.transport(i), env.store(i), env.clock(i), env.backlog(i));
    assert outcome == Internal.SetResult(started.source, sourceSet, started.destination, destinationSet,
                                         started.config.runtime.dryRunMode, env.transport(i), env.store(i), env.clock(i));
    var messages := SetMessages(archiveSet.name, sourceErr, destinationErr, outcome.error);
    report := SetReport(archiveSet.name, messages, outcome);
  }

  /**
   * The set loop and the closing summary, with both adapters freshly built
   * from `started`: each set's report, the consumer's alerts and, when any
   * set added a message, one alert listing them all.
   */
  method ProcessSets(source: RestApi.RestApi, destination: Aws.S3Adapter, started: Started, env: Env)
    returns (alerts: seq<string>, reports: seq<SetReport>)
    requires source.Config() == started.source && destination.s3Config == started.destination
    requires source.setConfig == RestApi.SetConfig("") && destination.s3Set == Aws.S3Set("")
    requires destination.uploads == []
    modifies source, destination
    ensures reports == ExpectedReports(started.config.sets, |started.config.sets|, started, env)
    ensures alerts == ConsumerAlerts(reports) + Summary(Errors(reports))
    ensures destination.uploads == Uploads(reports)
  {
    var sets := started.config.sets;
    var errors: seq<string> := [];
    alerts, reports := [], [];
    for i := 0 to |sets|
      invariant source.Config() == started.source && destination.s3Config == started.destination
      invariant source.setConfig == SourceSetAfter(sets[..i], env.decodeSourceSet)
      invariant destination.s3Set == DestinationSetAfter(sets[..i], env.decodeDestinationSet)
      invariant reports == ExpectedReports(sets, i, started, env)
      invariant errors == Errors(reports)
      invariant alerts == ConsumerAlerts(reports)
      invariant destination.uploads == Uploads(reports)
    {
      var report := ProcessSet(source, destination, started, i, env);
      CollectedAfter(reports, report);
      ExpectedReportsGrow(sets, i, started, env);
      reports := reports + [report];
      errors := errors + report.messages;
      alerts := alerts + report.outcome.alerts;
    }

    if |errors| > 0 {
      alerts := alerts + [SummaryHeader + Join(errors, "\n")];
    }
  }

  /**
   * One archive run. `decoded` is the configuration document as read and
   * decoded; `alerts` are the alert messages sent, in order; `reports` say what
   * happened to each set. The run's own error return is always nil.
   */
  method Run(decoded: Result<AppConfig, string>, env: Env)
    returns (err: Option<string>, alerts: seq<string>, reports: seq<SetReport>, ghost uploads: seq<Aws.Upload>)
    ensures err == None
    ensures Startup(decoded, env).Failure? ==>
      alerts == [Startup(decoded, env).error] && reports == [] && uploads == []
    ensures Startup(decoded, env).Success? ==> var started := Startup(decoded, env).value;
      && |reports| == |started.config.sets|
      && (forall i :: 0 <= i < |reports| ==> reports[i] == ExpectedReport(started.config.sets, i, started, env))
      && alerts == ConsumerAlerts(reports) + Summary(Errors(reports))
      && uploads == Uploads(reports)
  {
    err, uploads := None, [];
    var loaded := Internal.ParseConfig(decoded);
    if loaded.Failure? {
      return None, [LoadFailedMessage(loaded.error)], [], [];
    }
    var appConfig := loaded.value;

    var source: RestApi.RestApi;
    var built: Result<RestApi.RestApi, string>;
    if appConfig.source.adapterType == Internal.SourceTypeRestApi {
      built := RestApi.NewRestApiSource(appConfig.source, env.decodeSource, env.exchange);
    } else {
      built := Failure(UnrecognizedSource);
    }
    if built.Failure? {
      return None, [SourceFailedMessage(appConfig.source.adapterType, built.error)], [], [];
    }
    source := built.value;

    var destination: Aws.S3Adapter;
    var made: Result<Aws.S3Adapter, string>;
    if appConfig.destination.adapterType == Internal.DestinationTypeS3 {
      made := Aws.NewS3Destination(appConfig.destination, env.decodeDestination);
    } else {
      made := Failure(UnrecognizedDestination);
    }
    if made.Failure? {
      return None, [DestinationFailedMessage(appConfig.destination.adapterType, made.error)], [], [];
    }
    destination := made.value;

    var started := Started(appConfig, source.Config(), destination.s3Config);
    assert Startup(decoded, env) == Success(started);
    var maxNameLength := Internal.MaxSetNameLength(appConfig);
    alerts, reports := ProcessSets(source, destination, started, env);
    uploads := destination.uploads;
  }
}
