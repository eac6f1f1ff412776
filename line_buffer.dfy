/**
 * The log listeners `newJob` attaches when asked to log a job's output
 * (JobManager.php:85-106): each `data` event appends the chunk to a scratch
 * buffer captured by reference; once the buffer holds a line break it is
 * exploded on "\n", the last piece becomes the new buffer and every other
 * piece is logged as one line (stdout at INFO, stderr at ERROR).
 */
module LineBuffer {
  import opened PhpStrings

  datatype Level = Info | Error

  /** One line handed to the logger. */
  datatype LogLine = LogLine(level: Level, text: string)

  /** The outcome of one `data` event: the completed lines and the new scratch buffer. */
  datatype Fed = Fed(lines: seq<string>, rest: string)

  /** Each line followed by its terminator. */
  function Unlines(lines: seq<string>): string
  {
    if lines == [] then [] else lines[0] + "\n" + Unlines(lines[1..])
  }

  /** Concatenation of a stream of chunks. */
  function Concat(chunks: seq<string>): string
  {
    if chunks == [] then [] else chunks[0] + Concat(chunks[1..])
  }

  /** Exploded pieces: all but the last, terminated, then the last, give back the text. */
  lemma {:induction false} UnlinesThenLast(parts: seq<string>)
    requires |parts| >= 1
    ensures Unlines(parts[..|parts| - 1]) + parts[|parts| - 1] == Join(parts, '\n')
  {
    if |parts| > 1 {
      UnlinesThenLast(parts[1..]);
      assert parts[..|parts| - 1][1..] == parts[1..][..|parts| - 2];
    }
  }

  /** One `data` event on a scratch buffer: what is logged and what is kept. */
  function Feed(buffer: string, chunk: string): (out: Fed)
    ensures Unlines(out.lines) + out.rest == buffer + chunk
    ensures '\n' !in out.rest
    ensures forall i :: 0 <= i < |out.lines| ==> '\n' !in out.lines[i]
    ensures out.lines == [] <==> '\n' !in buffer + chunk
  {
    var b := buffer + chunk;
    if '\n' in b then
      var bits := Split(b, '\n');
      assert |bits| > 1;
      UnlinesThenLast(bits);
      Fed(bits[..|bits| - 1], bits[|bits| - 1])
    else
      Fed([], b)
  }

  /** The same property stated with `implode`: lines joined, a line break, then the kept rest. */
  lemma FeedJoined(buffer: string, chunk: string)
    requires Feed(buffer, chunk).lines != []
    ensures var out := Feed(buffer, chunk);
      Join(out.lines, '\n') + "\n" + out.rest == buffer + chunk
  {
    var out := Feed(buffer, chunk);
    UnlinesThenLast(out.lines + [out.rest]);
    JoinThenBreak(out.lines);
  }

  lemma {:induction false} JoinThenBreak(lines: seq<string>)
    requires lines != []
    ensures Join(lines, '\n') + "\n" == Unlines(lines)
  {
    if |lines| > 1 {
      JoinThenBreak(lines[1..]);
    }
  }

  /** A run of `data` events, starting from `buffer`. */
  function FeedAll(buffer: string, chunks: seq<string>): Fed
    decreases |chunks|
  {
    if chunks == [] then Fed([], buffer)
    else
      var first := Feed(buffer, chunks[0]);
      var later := FeedAll(first.rest, chunks[1..]);
      Fed(first.lines + later.lines, later.rest)
  }

  lemma {:induction false} UnlinesAppend(xs: seq<string>, ys: seq<string>)
    ensures Unlines(xs + ys) == Unlines(xs) + Unlines(ys)
  {
    if xs == [] {
      assert xs + ys == ys;
    } else {
      UnlinesAppend(xs[1..], ys);
      assert (xs + ys)[0] == xs[0] && (xs + ys)[1..] == xs[1..] + ys;
      Assoc(xs[0] + "\n", Unlines(xs[1..]), Unlines(ys));
    }
  }

  /**
   * Over a whole stream nothing is lost, duplicated or reordered: the logged
   * lines, each with its terminator, followed by what is still buffered, are
   * exactly the starting buffer followed by every chunk received.
   */
  lemma {:induction false} FeedAllPreservesText(buffer: string, chunks: seq<string>)
    ensures var out := FeedAll(buffer, chunks);
      Unlines(out.lines) + out.rest == buffer + Concat(chunks)
    decreases |chunks|
  {
    if chunks == [] {
      assert Concat(chunks) == [];
    } else {
      var first := Feed(buffer, chunks[0]);
      var later := FeedAll(first.rest, chunks[1..]);
      var a, b, tail := Unlines(first.lines), Unlines(later.lines), Concat(chunks[1..]);
      FeedAllPreservesText(first.rest, chunks[1..]);
      assert b + later.rest == first.rest + tail;
      assert a + first.rest == buffer + chunks[0];
      UnlinesAppend(first.lines, later.lines);
      assert FeedAll(buffer, chunks) == Fed(first.lines + later.lines, later.rest);
      assert Concat(chunks) == chunks[0] + tail;
      Regroup(a, b, later.rest, first.rest, tail, buffer, chunks[0]);
    }
  }

  /** Regrouping concatenations: the step of the stream lemma, stated on plain strings. */
  lemma Regroup(a: string, b: string, kept: string, carried: string, tail: string, buffer: string, chunk: string)
    requires b + kept == carried + tail
    requires a + carried == buffer + chunk
    ensures (a + b) + kept == buffer + (chunk + tail)
  {
    calc {
      (a + b) + kept;
      a + (b + kept);
      a + (carried + tail);
      (a + carried) + tail;
      (buffer + chunk) + tail;
    }
  }

  /** Lines as handed to the logger at one level. */
  function Tagged(level: Level, lines: seq<string>): (r: seq<LogLine>)
    ensures |r| == |lines|
    ensures forall i :: 0 <= i < |r| ==> r[i] == LogLine(level, lines[i])
  {
    seq(|lines|, i requires 0 <= i < |lines| => LogLine(level, lines[i]))
  }

  lemma TaggedOneMore(level: Level, lines: seq<string>, i: nat)
    requires i < |lines|
    ensures Tagged(level, lines[..i + 1]) == Tagged(level, lines[..i]) + [LogLine(level, lines[i])]
  {
  }

  /** The listener's captured state: its level, the scratch buffer and the lines it has logged. */
  class LineLogger {
    const level: Level
    var buffer: string
    var logged: seq<LogLine>

    /** The listener starts with an empty buffer (`$stdoutBuffer = ''`). */
    constructor (level: Level)
      ensures this.level == level && buffer == [] && logged == []
    {
      this.level := level;
      buffer := [];
      logged := [];
    }

    /** The `data` closure: append, and when a line break is buffered log every completed line. */
    method OnData(chunk: string)
      modifies this
      ensures buffer == Feed(old(buffer), chunk).rest
      ensures logged == old(logged) + Tagged(level, Feed(old(buffer), chunk).lines)
    {
      buffer := buffer + chunk;
      if '\n' in buffer {
        var bits := Split(buffer, '\n');
        var rest := bits[|bits| - 1];
        buffer := rest;
        bits := bits[..|bits| - 1];
        for i := 0 to |bits|
          invariant buffer == rest
          invariant logged == old(logged) + Tagged(level, bits[..i])
        {
          TaggedOneMore(level, bits, i);
          logged := logged + [LogLine(level, bits[i])];
        }
        assert bits[..|bits|] == bits;
      }
    }
  }
}
