/** The default logger's level filter (src/utils/logger.ts): a message is
    written iff the rank of its level is at least the configured rank. */
module Logger {
  import opened Base

  datatype Level = Debug | Info | Warn | Error | Off

  /** The `LogLevel` enum values. */
  function Rank(l: Level): (r: nat)
    ensures r <= 4
  {
    match l
    case Debug => 0
    case Info => 1
    case Warn => 2
    case Error => 3
    case Off => 4
  }

  /** `LOG_LEVEL_MAP[name]`: a name outside the map reads as `undefined`. */
  function RankOfName(name: string): (r: Option<nat>)
    ensures r.Some? <==> name in ["debug", "info", "warn", "error", "off"]
    ensures name == "off" ==> r == Some(Rank(Off))
  {
    if name == "debug" then Some(Rank(Debug))
    else if name == "info" then Some(Rank(Info))
    else if name == "warn" then Some(Rank(Warn))
    else if name == "error" then Some(Rank(Error))
    else if name == "off" then Some(Rank(Off))
    else None
  }

  /** `level >= this.level`; a comparison with `undefined` is false. */
  predicate Passes(threshold: Option<nat>, l: Level) {
    threshold.Some? && Rank(l) >= threshold.value
  }

  /** The ranks are strictly ordered debug < info < warn < error < off, so the
      filter is a threshold: a level passes iff every higher level passes. */
  lemma {:induction false} RanksOrdered()
    ensures Rank(Debug) < Rank(Info) < Rank(Warn) < Rank(Error) < Rank(Off)
    ensures forall a: Level, b: Level :: Rank(a) == Rank(b) ==> a == b
  {
    forall a: Level, b: Level | Rank(a) == Rank(b) ensures a == b {
      match a
      case Debug =>
      case Info =>
      case Warn =>
      case Error =>
      case Off =>
    }
  }

  lemma PassesUpward(threshold: Option<nat>, l: Level, m: Level)
    requires Passes(threshold, l) && Rank(l) <= Rank(m)
    ensures Passes(threshold, m)
  {
  }

  /** 'off' suppresses debug, info, warn and error alike. */
  lemma OffSuppressesEverything(l: Level)
    requires l != Off
    ensures !Passes(RankOfName("off"), l)
  {
  }

  class DefaultLogger {
    var level: Option<nat>
    /** What reached the console, by level. */
    ghost var output: seq<(Level, string)>

    constructor(name: string := "info")
      ensures level == RankOfName(name) && output == []
    {
      level := RankOfName(name);
      output := [];
    }

    /** Changes the filter for later messages only. */
    method SetLevel(name: string)
      modifies this
      ensures level == RankOfName(name) && output == old(output)
    {
      level := RankOfName(name);
    }

    /** `shouldLog(level)`: a threshold, so a level that is written lets
        every higher level be written; under 'off' only `Off` itself would
        pass, and no logging method uses it. */
    predicate ShouldLog(l: Level)
      reads this
      ensures ShouldLog(l) ==> forall m :: Rank(l) <= Rank(m) ==> Passes(level, m)
      ensures level == RankOfName("off") ==> (ShouldLog(l) <==> l == Off)
    {
      Passes(level, l)
    }

    /** `debug`, `info`, `warn` and `error`: each writes iff its level passes. */
    method Log(l: Level, message: string)
      requires l != Off
      modifies this
      ensures level == old(level)
      ensures output == old(output) + if ShouldLog(l) then [(l, message)] else []
    {
      if ShouldLog(l) {
        output := output + [(l, message)];
      }
    }
  }
}
