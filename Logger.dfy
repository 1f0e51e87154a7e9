/** The leveled logger of `Logger.hpp`: level names, the threshold filter of
    the `H_LOG` macro, and fan-out of one formatted line to every sink.
    A sink is modelled by the sequence of lines written to it. */
module Logging {

  datatype LogLevel = Trace | Debug | Info | Warning | Error | Critical | Off

  /** The enumerators' underlying values, which `>=` on the enum compares. */
  function Rank(l: LogLevel): nat
  {
    match l
    case Trace => 0
    case Debug => 1
    case Info => 2
    case Warning => 3
    case Error => 4
    case Critical => 5
    case Off => 6
  }

  predicate AtLeast(a: LogLevel, b: LogLevel)
  {
    Rank(a) >= Rank(b)
  }

  function ToString(l: LogLevel): string
  {
    match l
    case Trace => "TRACE"
    case Debug => "DEBUG"
    case Info => "INFO"
    case Warning => "WARNING"
    case Error => "ERROR"
    case Critical => "CRITICAL"
    case Off => "OFF"
  }

  /** Exact, case-sensitive comparison against the six names; anything else is Off. */
  function FromString(s: string): (l: LogLevel)
    ensures l != Off ==> ToString(l) == s
    ensures (forall k: LogLevel :: k != Off ==> ToString(k) != s) ==> l == Off
  {
    if s == "TRACE" then Trace
    else if s == "DEBUG" then Debug
    else if s == "INFO" then Info
    else if s == "WARNING" then Warning
    else if s == "ERROR" then Error
    else if s == "CRITICAL" then Critical
    else Off
  }

  /** The log line `"[LEVEL] [context] message"`. */
  function Format(level: LogLevel, context: string, message: string): string
  {
    "[" + ToString(level) + "] [" + context + "] " + message
  }

  /** Level names round-trip. */
  lemma FromToString(l: LogLevel)
    ensures FromString(ToString(l)) == l
  {
  }

  /** The configuration default "Warning" is not upper case, so it reads as Off. */
  lemma ConfigDefaultIsOff()
    ensures FromString("Warning") == Off
    ensures FromString("warning") == Off && FromString("") == Off
  {
  }

  /** `>=` on levels is a total order with Trace least and Off greatest. */
  lemma LevelOrder(a: LogLevel, b: LogLevel, c: LogLevel)
    ensures AtLeast(a, a) && AtLeast(a, Trace) && AtLeast(Off, a)
    ensures AtLeast(a, b) || AtLeast(b, a)
    ensures AtLeast(a, b) && AtLeast(b, a) ==> a == b
    ensures AtLeast(a, b) && AtLeast(b, c) ==> AtLeast(a, c)
  {
  }

  /** The process-wide logger: the level (a static atomic in the source) and the
      sinks in the order they were added. */
  class Logger {
    var level: LogLevel
    var sinks: seq<seq<string>>

    /** The singleton starts at level Info with no sinks. */
    constructor ()
      ensures level == Info && sinks == []
    {
      level := Info;
      sinks := [];
    }

    function GetLevel(): LogLevel
      reads this
    {
      level
    }

    method SetLevel(l: LogLevel)
      modifies this
      ensures level == l && sinks == old(sinks)
    {
      level := l;
    }

    /** `add_sink`: appended after the existing sinks; `written` is what the sink
        already holds. */
    method AddSink(written: seq<string>)
      modifies this
      ensures sinks == old(sinks) + [written] && level == old(level)
    {
      sinks := sinks + [written];
    }

    /** `log`: unconditional; formats once and writes that line to every sink in order. */
    method Log(l: LogLevel, context: string, message: string)
      modifies this
      ensures level == old(level) && |sinks| == |old(sinks)|
      ensures forall i :: 0 <= i < |sinks| ==> sinks[i] == old(sinks)[i] + [Format(l, context, message)]
    {
      var formatted := Format(l, context, message);
      var i := 0;
      while i < |sinks|
        invariant 0 <= i <= |sinks| == |old(sinks)|
        invariant level == old(level)
        invariant forall j :: 0 <= j < i ==> sinks[j] == old(sinks)[j] + [formatted]
        invariant forall j :: i <= j < |sinks| ==> sinks[j] == old(sinks)[j]
      {
        sinks := sinks[i := sinks[i] + [formatted]];
        i := i + 1;
      }
    }

    /** The `H_LOG` macro: log only when the level reaches the current threshold. */
    method HLog(l: LogLevel, context: string, message: string) returns (emitted: bool)
      modifies this
      ensures emitted <==> AtLeast(l, old(level))
      ensures level == old(level) && |sinks| == |old(sinks)|
      ensures forall i :: 0 <= i < |sinks| ==>
        sinks[i] == old(sinks)[i] + (if emitted then [Format(l, context, message)] else [])
    {
      emitted := AtLeast(l, GetLevel());
      if emitted {
        Log(l, context, message);
      }
    }
  }
}
