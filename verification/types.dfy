/**
 * The shared types of the archiver: the application configuration, one archive
 * set, and the leveled event-log record a destination emits while writing.
 */
module Types {

  type Byte = b: int | 0 <= b < 256
  type Bytes = seq<Byte>

  /** Raw bytes printed with `%s`: one character per byte. */
  function AsText(b: Bytes): (s: string)
    ensures |s| == |b|
    ensures forall i :: 0 <= i < |b| ==> s[i] as int == b[i]
  {
    seq(|b|, i requires 0 <= i < |b| => b[i] as char)
  }

  /** `s` occurs inside `text` starting at position `k`. */
  ghost predicate OccursAt(text: string, s: string, k: nat)
  {
    k + |s| <= |text| && text[k..k + |s|] == s
  }

  /** `s` occurs somewhere inside `text`. */
  ghost predicate Mentions(text: string, s: string)
  {
    exists k: nat :: OccursAt(text, s, k)
  }

  /** A text mentions its own suffix. */
  lemma MentionsSuffix(pre: string, s: string)
    ensures Mentions(pre + s, s)
  {
    assert (pre + s)[|pre|..|pre| + |s|] == s;
    assert OccursAt(pre + s, s, |pre|);
  }

  /** A text mentions itself. */
  lemma MentionsItself(s: string)
    ensures Mentions(s, s)
  {
    assert s[0..|s|] == s;
    assert OccursAt(s, s, 0);
  }

  /** A message built as `a + s + b + t` mentions both of the parts it interpolates. */
  lemma MentionsEach(a: string, s: string, b: string, t: string)
    ensures Mentions(a + s + b + t, s) && Mentions(a + s + b + t, t)
  {
    var text := a + s + b + t;
    assert text[|a|..|a| + |s|] == s;
    assert OccursAt(text, s, |a|);
    MentionsSuffix(a + s + b, t);
  }

  // ---------------------------------------------------------------- configuration

  datatype RuntimeConfig = RuntimeConfig(dryRunMode: bool)

  /** The `Source` section: the adapter type and its undecoded adapter configuration. */
  datatype SourceConfig = SourceConfig(adapterType: string, adapterConfig: Bytes)

  /** The `Destination` section, shaped like the `Source` one. */
  datatype DestinationConfig = DestinationConfig(adapterType: string, adapterConfig: Bytes)

  /** One unit of work: a name and the per-set source and destination documents, undecoded. */
  datatype ArchiveSet = ArchiveSet(name: string, source: Bytes, destination: Bytes)

  /** The decoded configuration document. The `Alert` section is passed through untouched and is not modelled. */
  datatype AppConfig = AppConfig(
    runtime: RuntimeConfig,
    source: SourceConfig,
    destination: DestinationConfig,
    sets: seq<ArchiveSet>)

  // ---------------------------------------------------------------- event log

  /** A syslog priority: `LOG_EMERG` is 0, `LOG_DEBUG` is 7. */
  type Priority = int

  const LogEmerg: Priority := 0
  const LogAlert: Priority := 1
  const LogCrit: Priority := 2
  const LogErr: Priority := 3
  const LogWarning: Priority := 4
  const LogNotice: Priority := 5
  const LogInfo: Priority := 6
  const LogDebug: Priority := 7

  /** The display name of each priority. */
  const LogLevels: map<Priority, string> := map[
    LogEmerg := "Emerg",
    LogAlert := "Alert",
    LogCrit := "Critical",
    LogErr := "Error",
    LogWarning := "Warning",
    LogNotice := "Notice",
    LogInfo := "Info",
    LogDebug := "Debug"]

  /** Looking a priority up in `LogLevels`; a missing one reads as Go's zero value, the empty string. */
  function LevelName(level: Priority): (name: string)
    ensures name != "" <==> LogEmerg <= level <= LogDebug
  {
    if level in LogLevels then LogLevels[level] else ""
  }

  /** The table covers exactly the eight syslog priorities, under eight different names. */
  lemma LogLevelsNamesEveryPriority()
    ensures forall p :: p in LogLevels <==> LogEmerg <= p <= LogDebug
    ensures forall p, q :: p in LogLevels && q in LogLevels && p != q ==> LogLevels[p] != LogLevels[q]
  {
    assert LogLevels.Keys == {0, 1, 2, 3, 4, 5, 6, 7};
    forall p, q | p in LogLevels && q in LogLevels && p != q
      ensures LogLevels[p] != LogLevels[q]
    {
      var a, b := LogLevels[p], LogLevels[q];
      assert |a| != |b| || a[0] != b[0] || a[1] != b[1];
    }
  }

  datatype EventLogItem = EventLogItem(message: string, level: Priority) {

    /** How an item is printed and mailed: the level name, a colon and a space, then the message. */
    function String(): (s: string)
      ensures |s| == |LevelName(level)| + 2 + |message|
      ensures s[..|LevelName(level)|] == LevelName(level)
      ensures s[|s| - |message|..] == message
      ensures s[|LevelName(level)|..|LevelName(level)| + 2] == ": "
      ensures level == LogAlert ==> s[..7] == "Alert: "
      ensures level == LogEmerg ==> s[..7] == "Emerg: "
      ensures level == LogInfo ==> s[..6] == "Info: "
      ensures level !in LogLevels ==> s == ": " + message
    {
      LevelName(level) + ": " + message
    }
  }
}
