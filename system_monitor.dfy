/**
 * `SystemMonitor.get_top_processes`: the parsing applied to the output of
 * `ps aux --sort=-pcpu`. Running `ps` is not modelled; its output (or its
 * failure) is a parameter, and so is Python's `float()`.
 */
module SystemMonitor {
  import opened Wrappers
  import opened Text
  import opened GenreMapper

  /** Python's `float()` on one field; `None` stands for `ValueError`. */
  type FloatParser = string -> Option<real>

  /** `ps aux` prints eleven columns; the last, COMMAND, may itself contain spaces. */
  const Columns: nat := 11

  /**
   * `command.split()[0].split('/')[-1]`: the text after the last `/` of the
   * command's first whitespace-separated token.
   */
  function ProcessName(command: string): (name: string)
    requires |LStrip(command)| > 0
    ensures '/' !in name && NoSpace(name)
    ensures var tok := FirstToken(command);
      && |name| <= |tok| && name == tok[|tok| - |name|..]
      && (|name| < |tok| ==> tok[|tok| - |name| - 1] == '/')
      && ('/' !in tok ==> name == tok)
  {
    var tok := FirstToken(command);
    if '/' in tok then
      var (_, after) := RSplitOnce(tok, '/');
      assert tok[|tok| - |after|..] == after;
      assert forall k :: 0 <= k < |after| ==> after[k] == tok[|tok| - |after| + k];
      after
    else tok
  }

  /** The fields of a line that is kept: all eleven columns, with CPU, memory and pid that parse. */
  predicate Parsable(parts: seq<string>, parseFloat: FloatParser) {
    && |parts| >= Columns
    && parseFloat(parts[2]).Some? && parseFloat(parts[3]).Some? && ParseInt(parts[1]).Some?
  }

  /**
   * One line of `ps` output: at most ten splits; fewer than eleven fields, or
   * a `ValueError` from `float`/`int` on CPU, memory or pid, skips the line.
   */
  function ParseLine(line: string, parseFloat: FloatParser): (r: Option<ProcessInfo>)
    ensures r.Some? <==> Parsable(SplitWhitespace(line, Columns - 1), parseFloat)
    ensures r.Some? ==> |SplitWhitespace(line, Columns - 1)| == Columns
    ensures r.Some? ==> var parts := SplitWhitespace(line, Columns - 1);
      && r.value.command == parts[10]
      && parseFloat(parts[2]) == Some(r.value.cpuPercent)
      && parseFloat(parts[3]) == Some(r.value.memoryPercent)
      && ParseInt(parts[1]) == Some(r.value.pid)
    ensures r.Some? ==> IsField(r.value.command) && r.value.name == ProcessName(r.value.command)
  {
    var parts := SplitWhitespace(line, Columns - 1);
    if |parts| < Columns then None
    else
      var cpu := parseFloat(parts[2]);
      var memory := parseFloat(parts[3]);
      var pid := ParseInt(parts[1]);
      if cpu.None? || memory.None? || pid.None? then None
      else
        var command := parts[10];
        SplitWhitespaceParts(line, Columns - 1);
        assert IsField(command);
        Some(ProcessInfo(ProcessName(command), cpu.value, memory.value, pid.value, command))
  }

  /** The processes parsed from a run of lines, in order; unparsable lines are skipped. */
  function ParseLines(lines: seq<string>, parseFloat: FloatParser): seq<ProcessInfo> {
    if |lines| == 0 then []
    else
      var before := ParseLines(lines[..|lines| - 1], parseFloat);
      match ParseLine(lines[|lines| - 1], parseFloat)
      case Some(p) => before + [p]
      case None => before
  }

  /** `result.stdout.strip().split('\n')[1:]`: the lines after the header. */
  function BodyLines(stdout: string): seq<string> {
    SplitOn(Strip(stdout), '\n')[1..]
  }

  /** `lines[:limit]`. */
  function FirstLines(lines: seq<string>, limit: nat): (r: seq<string>)
    ensures |r| <= limit && |r| <= |lines| && r == lines[..|r|]
    ensures |r| == if limit < |lines| then limit else |lines|
  {
    if limit < |lines| then lines[..limit] else lines
  }

  /**
   * `get_top_processes(limit)`: `None` for the captured output stands for
   * `CalledProcessError`, which yields no processes.
   */
  method GetTopProcesses(psOutput: Option<string>, limit: nat, parseFloat: FloatParser) returns (processes: seq<ProcessInfo>)
    ensures psOutput.None? ==> processes == []
    ensures psOutput.Some? ==> processes == ParseLines(FirstLines(BodyLines(psOutput.value), limit), parseFloat)
  {
    if psOutput.None? {
      return [];
    }
    var lines := FirstLines(BodyLines(psOutput.value), limit);
    processes := [];
    for i := 0 to |lines|
      invariant processes == ParseLines(lines[..i], parseFloat)
    {
      assert lines[..i + 1][..i] == lines[..i];
      var parsed := ParseLine(lines[i], parseFloat);
      if parsed.Some? {
        processes := processes + [parsed.value];
      }
    }
    assert lines[..|lines|] == lines;
  }

  /** Every parsed process comes from one line, so there are at most as many as lines examined. */
  lemma {:induction false} ParsedAtMostLines(lines: seq<string>, parseFloat: FloatParser)
    ensures |ParseLines(lines, parseFloat)| <= |lines|
  {
    if |lines| > 0 {
      ParsedAtMostLines(lines[..|lines| - 1], parseFloat);
    }
  }

  /** `get_top_processes(limit)` returns at most `limit` processes. */
  lemma AtMostLimit(psOutput: string, limit: nat, parseFloat: FloatParser)
    ensures |ParseLines(FirstLines(BodyLines(psOutput), limit), parseFloat)| <= limit
  {
    ParsedAtMostLines(FirstLines(BodyLines(psOutput), limit), parseFloat);
  }

  /**
   * Every parsed process's command is a non-empty field that starts with a
   * non-space character, and its name contains neither `/` nor whitespace.
   */
  lemma {:induction false} ParsedProcessesWellFormed(lines: seq<string>, parseFloat: FloatParser)
    ensures forall k :: 0 <= k < |ParseLines(lines, parseFloat)| ==> WellFormed(ParseLines(lines, parseFloat)[k])
  {
    if |lines| > 0 {
      var before := ParseLines(lines[..|lines| - 1], parseFloat);
      ParsedProcessesWellFormed(lines[..|lines| - 1], parseFloat);
      var last := ParseLine(lines[|lines| - 1], parseFloat);
      if last.Some? {
        ParsedLineWellFormed(lines[|lines| - 1], parseFloat);
        AppendWellFormed(before, last.value);
      }
    }
  }

  /** A process record as `get_top_processes` builds it: its name is the command's base name. */
  predicate WellFormed(p: ProcessInfo) {
    IsField(p.command) && '/' !in p.name && NoSpace(p.name)
  }

  lemma ParsedLineWellFormed(line: string, parseFloat: FloatParser)
    requires ParseLine(line, parseFloat).Some?
    ensures WellFormed(ParseLine(line, parseFloat).value)
  {
  }

  lemma AppendWellFormed(ps: seq<ProcessInfo>, p: ProcessInfo)
    requires forall k :: 0 <= k < |ps| ==> WellFormed(ps[k])
    requires WellFormed(p)
    ensures forall k :: 0 <= k < |ps + [p]| ==> WellFormed((ps + [p])[k])
  {
  }
}
