/** Translation of the configured level name into a logger severity (xlogneve/processor.go, transLevel). */
module Levels {
  import opened Ascii

  /** The six severities of the logger, from least to most severe. */
  datatype Severity = Debug | Info | Warn | Error | Panic | Fatal

  /** The recognised configuration spelling of each severity (upper case). */
  function Name(v: Severity): (n: string)
  {
    match v
    case Debug => "DEBUG"
    case Info => "INFO"
    case Warn => "WARN"
    case Error => "ERROR"
    case Panic => "PANIC"
    case Fatal => "FATAL"
  }

  /**
   * The logger's integer level of a severity, in declaration order from 0.
   * Every code is a valid level, so none equals the processor's "unset" sentinel -1.
   */
  function Code(v: Severity): (c: int)
    ensures 0 <= c <= 5
  {
    match v
    case Debug => 0
    case Info => 1
    case Warn => 2
    case Error => 3
    case Panic => 4
    case Fatal => 5
  }

  /**
   * transLevel: the severity named by `s` after upper-casing, with `true`;
   * for an empty or unrecognised name, INFO with `false`.
   */
  function TransLevel(s: string): (r: (Severity, bool))
    ensures forall v :: Upper(s) == Name(v) ==> r == (v, true)
    ensures r.1 ==> Upper(s) == Name(r.0)
    ensures !r.1 ==> r.0 == Info
  {
    if |s| > 0 then
      var u := Upper(s);
      if u == "DEBUG" then (Debug, true)
      else if u == "INFO" then (Info, true)
      else if u == "WARN" then (Warn, true)
      else if u == "ERROR" then (Error, true)
      else if u == "PANIC" then (Panic, true)
      else if u == "FATAL" then (Fatal, true)
      else (Info, false)
    else (Info, false)
  }

  /** The empty name is never recognised and gives the INFO default. */
  lemma TransLevelEmpty()
    ensures TransLevel("") == (Info, false)
  {
  }

  /** Every severity's own name, in upper or lower case, is recognised as that severity. */
  lemma TransLevelRoundTrip(v: Severity)
    ensures TransLevel(Name(v)) == (v, true)
    ensures TransLevel(Lower(Name(v))) == (v, true)
  {
    UpperOfUpperCase(Name(v));
    UpperOfLower(Name(v));
  }

  /**
   * Level names are case-insensitive: two spellings that agree after
   * lower-casing ("warn", "Warn", "WARN") translate alike.
   */
  lemma TransLevelIgnoresCase(s: string, t: string)
    requires Lower(s) == Lower(t)
    ensures TransLevel(s) == TransLevel(t)
  {
    SameUpperIffSameLower(s, t);
  }
}
