/** The log level the `--quiet`, `--verbose` and `--debug` flags select
    before every command (`internal/commands/root.go`). */
module LogLevel {

  /** The four `log/slog` levels the program uses. */
  datatype Level = Debug | Info | Warn | Error

  /** The numeric value `log/slog` gives each level. */
  function Value(l: Level): int {
    match l
    case Debug => -4
    case Info => 0
    case Warn => 4
    case Error => 8
  }

  /** A logger set to `threshold` writes a record at level `l`. */
  predicate Shows(threshold: Level, l: Level) {
    Value(l) >= Value(threshold)
  }

  /** The flags as parsed; at most one of them may be set. */
  predicate AtMostOneFlag(quiet: bool, verbose: bool, debug: bool) {
    !(quiet && verbose) && !(quiet && debug) && !(verbose && debug)
  }

  /** `PersistentPreRun`: Warn by default; `quiet` wins, then `verbose`,
      then `debug`. */
  function SelectLevel(quiet: bool, verbose: bool, debug: bool): (l: Level)
    ensures !quiet && !verbose && !debug ==> l == Warn
    ensures quiet ==> l == Error
    ensures !quiet && verbose ==> l == Info
    ensures !quiet && !verbose && debug ==> l == Debug
  {
    if quiet then Error
    else if verbose then Info
    else if debug then Debug
    else Warn
  }

  /** With the flags mutually exclusive, each level comes from exactly one
      flag setting: the level tells which flag, if any, was given. */
  lemma LevelDeterminesFlags(q1: bool, v1: bool, d1: bool, q2: bool, v2: bool, d2: bool)
    requires AtMostOneFlag(q1, v1, d1) && AtMostOneFlag(q2, v2, d2)
    ensures SelectLevel(q1, v1, d1) == SelectLevel(q2, v2, d2) <==> q1 == q2 && v1 == v2 && d1 == d2
  {
  }

  /** What each setting lets through: by default INFO is suppressed and
      warnings shown; `quiet` shows only errors; `verbose` adds INFO;
      `debug` shows everything. */
  lemma WhatEachSettingShows(l: Level)
    ensures Shows(SelectLevel(false, false, false), l) <==> l == Warn || l == Error
    ensures Shows(SelectLevel(true, false, false), l) <==> l == Error
    ensures Shows(SelectLevel(false, true, false), l) <==> l != Debug
    ensures Shows(SelectLevel(false, false, true), l)
  {
  }

  /** More verbose settings show more: every record `quiet` shows the
      default shows, every one the default shows `verbose` shows, and every
      one `verbose` shows `debug` shows. */
  lemma SettingsNested(l: Level)
    ensures Shows(Error, l) ==> Shows(Warn, l)
    ensures Shows(Warn, l) ==> Shows(Info, l)
    ensures Shows(Info, l) ==> Shows(Debug, l)
  {
  }
}
