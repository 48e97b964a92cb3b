/**
 * The leveled logger: a process-wide threshold chosen by `Init` from a level
 * name, and four emitters that append a level-tagged line when their level is
 * at or above the threshold. ERROR lines go to the error stream, all others to
 * the standard output stream. Timestamps and format-verb expansion are not
 * modelled: a line is its level and its already formatted message.
 */
module Logging {
  import opened Text

  /** Declared in this order, so DEBUG < INFO < WARN < ERROR. */
  datatype Level = DEBUG | INFO | WARN | ERROR

  /** The numeric value Go's `iota` gives each level. */
  function Rank(l: Level): nat
  {
    match l
    case DEBUG => 0
    case INFO => 1
    case WARN => 2
    case ERROR => 3
  }

  lemma LevelsStrictlyOrdered()
    ensures Rank(DEBUG) < Rank(INFO) < Rank(WARN) < Rank(ERROR)
    ensures forall a: Level, b: Level :: Rank(a) == Rank(b) ==> a == b
  {
  }

  /** A call at `level` is emitted when `threshold <= level`. */
  predicate Enabled(threshold: Level, level: Level)
  {
    Rank(threshold) <= Rank(level)
  }

  /** The lower-case name `Init` recognises for each level. */
  function Name(l: Level): string
  {
    match l
    case DEBUG => "debug"
    case INFO => "info"
    case WARN => "warn"
    case ERROR => "error"
  }

  /** The threshold `Init` selects: the level whose name matches case-insensitively, INFO for any other name. */
  function ParseLevel(name: string): (l: Level)
    ensures l == INFO || ToLower(name) == Name(l)
  {
    match ToLower(name)
    case "debug" => DEBUG
    case "info" => INFO
    case "warn" => WARN
    case "error" => ERROR
    case _ => INFO
  }

  /** Every level is selected by its name in any mix of cases. */
  lemma ParseLevelName(name: string, l: Level)
    requires ToLower(name) == Name(l)
    ensures ParseLevel(name) == l
  {
  }

  /** A name that is none of the four selects INFO. */
  lemma ParseLevelDefault(name: string)
    requires forall l: Level :: ToLower(name) != Name(l)
    ensures ParseLevel(name) == INFO
  {
    assert ToLower(name) != Name(DEBUG) && ToLower(name) != Name(WARN) && ToLower(name) != Name(ERROR);
  }

  lemma ParseLevelExamples()
    ensures ParseLevel("WARN") == WARN && ParseLevel("Debug") == DEBUG && ParseLevel("trace") == INFO
  {
    assert ToLower("WARN") == Name(WARN);
    ParseLevelName("WARN", WARN);
    assert ToLower("Debug") == Name(DEBUG);
    ParseLevelName("Debug", DEBUG);
    assert ToLower("trace") == "trace";
    ParseLevelDefault("trace");
  }

  datatype Line = Line(level: Level, message: string)

  /** ERROR lines are written to the error stream; the other three levels to standard output. */
  predicate ToStderr(level: Level) { level == ERROR }

  /** The lines of `calls` that reach standard output under `threshold`, in order. */
  function Stdout(threshold: Level, calls: seq<Line>): (out: seq<Line>)
    ensures |out| <= |calls|
  {
    if calls == [] then []
    else
      var line := calls[0];
      (if Enabled(threshold, line.level) && !ToStderr(line.level) then [line] else []) + Stdout(threshold, calls[1..])
  }

  /** The lines of `calls` that reach the error stream under `threshold`, in order. */
  function Stderr(threshold: Level, calls: seq<Line>): (out: seq<Line>)
    ensures |out| <= |calls|
  {
    if calls == [] then []
    else
      var line := calls[0];
      (if Enabled(threshold, line.level) && ToStderr(line.level) then [line] else []) + Stderr(threshold, calls[1..])
  }

  /** Standard output receives exactly the enabled non-ERROR lines of the calls. */
  lemma {:induction false} StdoutMembers(threshold: Level, calls: seq<Line>)
    ensures forall line :: line in Stdout(threshold, calls) <==>
      line in calls && Enabled(threshold, line.level) && !ToStderr(line.level)
  {
    if calls != [] {
      StdoutMembers(threshold, calls[1..]);
      assert calls == [calls[0]] + calls[1..];
    }
  }

  /** The error stream receives exactly the ERROR lines of the calls, whatever the threshold. */
  lemma {:induction false} StderrMembers(threshold: Level, calls: seq<Line>)
    ensures forall line :: line in Stderr(threshold, calls) <==> line in calls && line.level == ERROR
  {
    if calls != [] {
      StderrMembers(threshold, calls[1..]);
      assert calls == [calls[0]] + calls[1..];
    }
  }

  lemma {:induction false} StdoutAppend(threshold: Level, a: seq<Line>, b: seq<Line>)
    ensures Stdout(threshold, a + b) == Stdout(threshold, a) + Stdout(threshold, b)
  {
    if a == [] {
      assert a + b == b;
    } else {
      var head := if Enabled(threshold, a[0].level) && !ToStderr(a[0].level) then [a[0]] else [];
      assert (a + b)[0] == a[0];
      assert (a + b)[1..] == a[1..] + b;
      StdoutAppend(threshold, a[1..], b);
      assert head + (Stdout(threshold, a[1..]) + Stdout(threshold, b)) == (head + Stdout(threshold, a[1..])) + Stdout(threshold, b);
    }
  }

  lemma {:induction false} StderrAppend(threshold: Level, a: seq<Line>, b: seq<Line>)
    ensures Stderr(threshold, a + b) == Stderr(threshold, a) + Stderr(threshold, b)
  {
    if a == [] {
      assert a + b == b;
    } else {
      var head := if Enabled(threshold, a[0].level) && ToStderr(a[0].level) then [a[0]] else [];
      assert (a + b)[0] == a[0];
      assert (a + b)[1..] == a[1..] + b;
      StderrAppend(threshold, a[1..], b);
      assert head + (Stderr(threshold, a[1..]) + Stderr(threshold, b)) == (head + Stderr(threshold, a[1..])) + Stderr(threshold, b);
    }
  }

  /** One call produces exactly one line, on the stream of its level, when its level is enabled, and nothing otherwise. */
  lemma OneCall(threshold: Level, line: Line)
    ensures |Stdout(threshold, [line])| + |Stderr(threshold, [line])| == if Enabled(threshold, line.level) then 1 else 0
    ensures Enabled(threshold, line.level) ==>
      (if ToStderr(line.level) then Stderr(threshold, [line]) else Stdout(threshold, [line])) == [line]
  {
  }

  /** ERROR lines are emitted whatever the threshold. */
  lemma ErrorAlwaysEmitted(threshold: Level, message: string)
    ensures Stderr(threshold, [Line(ERROR, message)]) == [Line(ERROR, message)]
    ensures Stdout(threshold, [Line(ERROR, message)]) == []
  {
  }

  /**
   * The logger's package state. `ready` records that `Init` has created the
   * four output handles; an emitter called before that dereferences a nil
   * handle, so the emitters require it.
   */
  class Logger {
    var ready: bool
    var currentLevel: Level
    var stdout: seq<Line>
    var stderr: seq<Line>

    /** The state before `Init`: Go's zero values, so the threshold is DEBUG. */
    constructor ()
      ensures !ready && currentLevel == DEBUG && stdout == [] && stderr == []
    {
      ready, currentLevel, stdout, stderr := false, DEBUG, [], [];
    }

    method Init(level: string)
      modifies this
      ensures ready && currentLevel == ParseLevel(level)
      ensures stdout == old(stdout) && stderr == old(stderr)
    {
      ready := true;
      var name := ToLower(level);
      if name == "debug" {
        currentLevel := DEBUG;
      } else if name == "info" {
        currentLevel := INFO;
      } else if name == "warn" {
        currentLevel := WARN;
      } else if name == "error" {
        currentLevel := ERROR;
      } else {
        currentLevel := INFO;
      }
    }

    method Debug(message: string)
      requires ready
      modifies this`stdout
      ensures stdout == old(stdout) + Stdout(currentLevel, [Line(DEBUG, message)])
    {
      if Rank(currentLevel) <= Rank(DEBUG) {
        stdout := stdout + [Line(DEBUG, message)];
      }
    }

    method Info(message: string)
      requires ready
      modifies this`stdout
      ensures stdout == old(stdout) + Stdout(currentLevel, [Line(INFO, message)])
    {
      if Rank(currentLevel) <= Rank(INFO) {
        stdout := stdout + [Line(INFO, message)];
      }
    }

    method Warn(message: string)
      requires ready
      modifies this`stdout
      ensures stdout == old(stdout) + Stdout(currentLevel, [Line(WARN, message)])
    {
      if Rank(currentLevel) <= Rank(WARN) {
        stdout := stdout + [Line(WARN, message)];
      }
    }

    method Error(message: string)
      requires ready
      modifies this`stderr
      ensures stderr == old(stderr) + Stderr(currentLevel, [Line(ERROR, message)])
    {
      if Rank(currentLevel) <= Rank(ERROR) {
        stderr := stderr + [Line(ERROR, message)];
      }
    }
  }
}
