/** Logger: a leveled log with a minimum-level gate in front of `logInternal`. */
module Logging {
  import opened Wrappers
  import opened Text

  /** The level names, least severe first; a level's rank is its index. */
  const Levels: seq<string> := ["trace", "debug", "information", "warning", "error", "critical"]

  /** `array_search`: the first index holding `x`. */
  function IndexOf(s: seq<string>, x: string): (r: Option<nat>)
    ensures r.Some? ==> r.value < |s| && s[r.value] == x && forall j :: 0 <= j < r.value ==> s[j] != x
    ensures r.None? ==> x !in s
  {
    if s == [] then None
    else if s[0] == x then Some(0)
    else match IndexOf(s[1..], x)
      case Some(i) => Some(i + 1)
      case None => None
  }

  /**
   * `getLevel`: null means "error"; any other name is lower-cased and looked
   * up, and a name that is not a level becomes 0 through `(int) false`.
   */
  function GetLevel(levelName: Option<string>): (r: nat)
    ensures r < |Levels|
    ensures levelName.None? ==> r == 4
    ensures levelName.Some? && ToLower(levelName.value) in Levels ==> Levels[r] == ToLower(levelName.value)
    ensures levelName.Some? && ToLower(levelName.value) !in Levels ==> r == 0
  {
    var name := if levelName.None? then "error" else ToLower(levelName.value);
    match IndexOf(Levels, name)
    case Some(i) => i
    case None => 0
  }

  /** Each level name ranks at its own index: trace < debug < ... < critical. */
  lemma LevelRanks()
    ensures forall i :: 0 <= i < |Levels| ==> GetLevel(Some(Levels[i])) == i
  {
    forall i | 0 <= i < |Levels|
      ensures GetLevel(Some(Levels[i])) == i
    {
      ToLowerIdempotent(Levels[i]);
      assert ToLower(Levels[i]) == Levels[i];
    }
  }

  /** Level names match whatever their case. */
  lemma GetLevelIgnoresCase(name: string)
    ensures GetLevel(Some(name)) == GetLevel(Some(ToLower(name)))
  {
    ToLowerIdempotent(name);
  }

  /** 'info' is not a level name: it ranks like 'trace', below the default minimum. */
  lemma InfoRanksAsTrace()
    ensures GetLevel(Some("info")) == GetLevel(Some("trace")) == 0
    ensures GetLevel(Some("info")) < GetLevel(None)
  {
    assert ToLower("info") == "info";
    assert ToLower("trace") == "trace";
    assert "info" != Levels[0] && "info" != Levels[1] && "info" != Levels[2];
  }

  /** What `log` hands to `logInternal` (the timestamp is not modelled). */
  datatype LogRecord = LogRecord(level: string, message: string)

  /** The records `level`-messages produce behind a gate at `minLevel`. */
  function Gate(minLevel: nat, level: string, messages: seq<string>): seq<LogRecord> {
    if GetLevel(Some(level)) >= minLevel then
      seq(|messages|, i requires 0 <= i < |messages| => LogRecord(level, messages[i]))
    else []
  }

  lemma GateAppend(minLevel: nat, level: string, a: seq<string>, b: seq<string>)
    ensures Gate(minLevel, level, a + b) == Gate(minLevel, level, a) + Gate(minLevel, level, b)
  {
    var pass := GetLevel(Some(level)) >= minLevel;
    var l, r := Gate(minLevel, level, a + b), Gate(minLevel, level, a) + Gate(minLevel, level, b);
    if pass {
      assert |l| == |r|;
      forall i | 0 <= i < |l| ensures l[i] == r[i] {
        if i < |a| {
          assert r[i] == Gate(minLevel, level, a)[i];
        } else {
          assert r[i] == Gate(minLevel, level, b)[i - |a|];
        }
      }
    }
  }

  /** Records gated one batch after another extend what was delivered before. */
  lemma GateExtend(minLevel: nat, level: string, before: seq<LogRecord>, a: seq<string>, b: seq<string>)
    ensures before + Gate(minLevel, level, a) + Gate(minLevel, level, b) == before + Gate(minLevel, level, a + b)
  {
    GateAppend(minLevel, level, a, b);
  }

  class Logger {
    /** Rank below which messages are dropped; fixed by the constructor. */
    const minLevel: nat
    /** Every record passed to `logInternal`, oldest first. */
    var delivered: seq<LogRecord>

    constructor (level: Option<string>)
      ensures minLevel == GetLevel(level)
      ensures delivered == []
    {
      minLevel := GetLevel(level);
      delivered := [];
    }

    /** Whether a message at `level` reaches `logInternal`. */
    predicate Passes(level: string)
    {
      GetLevel(Some(level)) >= minLevel
    }

    /** `log`: the record is delivered if and only if its level passes the gate. */
    method Log(level: string, message: string)
      modifies this
      ensures delivered == old(delivered) + Gate(minLevel, level, [message])
      ensures Passes(level) ==> delivered == old(delivered) + [LogRecord(level, message)]
      ensures !Passes(level) ==> delivered == old(delivered)
    {
      if GetLevel(Some(level)) >= minLevel {
        delivered := delivered + [LogRecord(level, message)];
      }
    }
  }
}
