/** The severity scale of the logger and its level-to-label table. */
module Levels {

  datatype Option<+T> = None | Some(value: T)

  /** A severity level. In Go it is slog.Level, a plain int; levels are only compared. */
  type Level = int

  // The four levels log/slog itself defines.
  const SlogDebug: Level := -4
  const SlogInfo: Level := 0
  const SlogWarn: Level := 4
  const SlogError: Level := 8

  // The logger's scale: slog's four levels widened by ALL, TRACE, FATAL and OFF.
  const LevelAll: Level := -6
  const LevelTrace: Level := -5
  const LevelDebug: Level := SlogDebug
  const LevelInfo: Level := SlogInfo
  const LevelWarn: Level := SlogWarn
  const LevelError: Level := SlogError
  const LevelFatal: Level := 9
  const LevelOff: Level := 10

  /** The eight named points of the scale, from the most verbose to the silent one. */
  function Scale(): (s: seq<Level>)
    ensures |s| == 8
    ensures s[0] == LevelAll && s[1] == LevelTrace && s[2] == LevelDebug && s[3] == LevelInfo
    ensures s[4] == LevelWarn && s[5] == LevelError && s[6] == LevelFatal && s[7] == LevelOff
    ensures forall i, j :: 0 <= i < j < |s| ==> s[i] < s[j]
  {
    [LevelAll, LevelTrace, LevelDebug, LevelInfo, LevelWarn, LevelError, LevelFatal, LevelOff]
  }

  /** The LevelMap table: a label for every named level and for nothing else. */
  function LevelMap(): (m: map<Level, string>)
    ensures forall l :: l in m <==> l in Scale()
    ensures forall l :: l in m ==> |m[l]| > 0
    ensures m[LevelTrace] == "TRACE" && m[LevelFatal] == "FATAL"
  {
    map[
      LevelAll := "ALL",
      LevelTrace := "TRACE",
      LevelDebug := "DEBUG",
      LevelInfo := "INFO",
      LevelWarn := "WARN",
      LevelError := "ERROR",
      LevelFatal := "FATAL",
      LevelOff := "OFF"
    ]
  }

  /** Reading a label back to its level: the inverse of LevelMap. */
  function LevelOfLabel(name: string): (r: Option<Level>)
    ensures r.Some? ==> r.value in LevelMap() && LevelMap()[r.value] == name
  {
    if name == "ALL" then Some(LevelAll)
    else if name == "TRACE" then Some(LevelTrace)
    else if name == "DEBUG" then Some(LevelDebug)
    else if name == "INFO" then Some(LevelInfo)
    else if name == "WARN" then Some(LevelWarn)
    else if name == "ERROR" then Some(LevelError)
    else if name == "FATAL" then Some(LevelFatal)
    else if name == "OFF" then Some(LevelOff)
    else None
  }

  /** Every label of the table reads back to the level it labels, so LevelMap is a bijection
      between the eight levels and the eight labels. */
  lemma LabelRoundTrip(l: Level)
    requires l in LevelMap()
    ensures LevelOfLabel(LevelMap()[l]) == Some(l)
  {
  }

  /** No two levels share a label. */
  lemma LevelMapInjective(l1: Level, l2: Level)
    requires l1 in LevelMap() && l2 in LevelMap()
    requires LevelMap()[l1] == LevelMap()[l2]
    ensures l1 == l2
  {
    LabelRoundTrip(l1);
    LabelRoundTrip(l2);
  }

  /** A label that is no level's label is rejected. */
  lemma UnknownLabelRejected(name: string)
    requires forall l :: l in LevelMap() ==> LevelMap()[l] != name
    ensures LevelOfLabel(name) == None
  {
  }
}
