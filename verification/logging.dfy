/**
 * `log`: a message is split on `\n` or `\r\n` and every non-empty piece is
 * handed to the host's logger behind a fixed tag.
 */
module Logging {
  import opened Text

  const Tag := "[Dynatrace OneAgent] "

  /** A piece followed by `\n` loses a trailing `\r`: the pair was one `\r\n` separator. */
  function DropCarriageReturn(line: string): string {
    if |line| > 0 && line[|line| - 1] == '\r' then line[..|line| - 1] else line
  }

  predicate EndsWithCarriageReturn(line: string) {
    |line| > 0 && line[|line| - 1] == '\r'
  }

  /**
   * The lines of a split, the separators between them, and the rules the
   * regex `/\n|\r\n/` imposes: no line holds a line feed, every separator
   * is `\n` or `\r\n`, and a bare `\n` never follows a `\r` (scanning left
   * to right, the search meets the `\r` first and takes the pair).
   */
  predicate WellSplit(lines: seq<string>, seps: seq<string>) {
    && |lines| == |seps| + 1
    && (forall i :: 0 <= i < |lines| ==> '\n' !in lines[i])
    && (forall i :: 0 <= i < |seps| ==>
          seps[i] == "\r\n" || (seps[i] == "\n" && !EndsWithCarriageReturn(lines[i])))
  }

  /** The lines put back together, line `i` followed by separator `i`. */
  function JoinLines(lines: seq<string>, seps: seq<string>): string
    requires |lines| == |seps| + 1
    decreases |seps|
  {
    if |seps| == 0 then lines[0]
    else lines[0] + seps[0] + JoinLines(lines[1..], seps[1..])
  }

  /** Every piece but the last one was followed by a separator. */
  function TrimSeparators(pieces: seq<string>): (lines: seq<string>)
    ensures |lines| == |pieces|
    ensures forall i :: 0 <= i < |pieces| - 1 ==> lines[i] == DropCarriageReturn(pieces[i])
    ensures |pieces| > 0 ==> lines[|pieces| - 1] == pieces[|pieces| - 1]
    decreases |pieces|
  {
    if |pieces| <= 1 then pieces
    else
      var lines := [DropCarriageReturn(pieces[0])] + TrimSeparators(pieces[1..]);
      assert forall i :: 1 <= i < |pieces| ==> lines[i] == TrimSeparators(pieces[1..])[i - 1];
      lines
  }

  /** The separator the split consumed after a piece of `msg.split("\n")`. */
  function SeparatorAfter(piece: string): string {
    if EndsWithCarriageReturn(piece) then "\r\n" else "\n"
  }

  function Separators(pieces: seq<string>): (seps: seq<string>)
    requires |pieces| >= 1
    ensures |seps| == |pieces| - 1
    decreases |pieces|
  {
    if |pieces| == 1 then [] else [SeparatorAfter(pieces[0])] + Separators(pieces[1..])
  }

  /** Dropping the carriage returns keeps enough to rebuild the pieces. */
  lemma {:induction false} TrimRejoins(pieces: seq<string>)
    requires |pieces| >= 1
    requires forall i :: 0 <= i < |pieces| ==> '\n' !in pieces[i]
    ensures WellSplit(TrimSeparators(pieces), Separators(pieces))
    ensures JoinLines(TrimSeparators(pieces), Separators(pieces)) == JoinWith(pieces, '\n')
    decreases |pieces|
  {
    if |pieces| > 1 {
      var first := pieces[0];
      var rest := pieces[1..];
      TrimRejoins(rest);
      var lines := TrimSeparators(pieces);
      var seps := Separators(pieces);
      assert lines[1..] == TrimSeparators(rest);
      assert seps[1..] == Separators(rest);
      if EndsWithCarriageReturn(first) {
        assert first == lines[0] + ['\r'];
        assert lines[0] + seps[0] == first + ['\n'];
      }
      assert '\n' !in lines[0] by {
        assert forall k :: 0 <= k < |lines[0]| ==> lines[0][k] == first[k];
      }
      assert forall i :: 1 <= i < |lines| ==> lines[i] == TrimSeparators(rest)[i - 1];
      assert forall i :: 1 <= i < |seps| ==> seps[i] == Separators(rest)[i - 1];
    }
  }

  /**
   * `msg.split(/\n|\r\n/)`: lines that, joined back with the separators
   * the split consumed, give the message again.
   */
  function SplitLines(msg: string): (lines: seq<string>)
    ensures |lines| >= 1
    ensures exists seps :: WellSplit(lines, seps) && JoinLines(lines, seps) == msg
  {
    var pieces := SplitOn(msg, '\n');
    TrimRejoins(pieces);
    var seps := Separators(pieces);
    assert WellSplit(TrimSeparators(pieces), seps);
    TrimSeparators(pieces)
  }

  /** A first line and its separator come off the front of a message unchanged. */
  lemma {:induction false} SplitLinesAround(first: string, sep: string, rest: string)
    requires '\n' !in first
    requires sep == "\r\n" || (sep == "\n" && !EndsWithCarriageReturn(first))
    ensures SplitLines(first + sep + rest) == [first] + SplitLines(rest)
  {
    var piece := if sep == "\r\n" then first + ['\r'] else first;
    assert '\n' !in piece;
    assert first + sep + rest == piece + ['\n'] + rest;
    SplitAround(piece, rest, '\n');
    SplitWithoutSeparator(piece, '\n');
    var pieces := SplitOn(piece + ['\n'] + rest, '\n');
    assert pieces == [piece] + SplitOn(rest, '\n');
    assert pieces[1..] == SplitOn(rest, '\n');
    assert DropCarriageReturn(piece) == first;
  }

  /** The split is the only one: a well-formed split, joined and split again, comes back. */
  lemma {:induction false} SplitLinesJoin(lines: seq<string>, seps: seq<string>)
    requires WellSplit(lines, seps)
    ensures SplitLines(JoinLines(lines, seps)) == lines
    decreases |seps|
  {
    if |seps| == 0 {
      SplitWithoutSeparator(lines[0], '\n');
    } else {
      assert WellSplit(lines[1..], seps[1..]) by {
        assert forall i :: 0 <= i < |seps| - 1 ==> lines[1..][i] == lines[i + 1] && seps[1..][i] == seps[i + 1];
      }
      SplitLinesJoin(lines[1..], seps[1..]);
      SplitLinesAround(lines[0], seps[0], JoinLines(lines[1..], seps[1..]));
      assert lines == [lines[0]] + lines[1..];
    }
  }

  /** One tagged output line per non-empty piece, in order. */
  function Emit(lines: seq<string>): (out: seq<string>)
    ensures |out| <= |lines|
    ensures forall i :: 0 <= i < |out| ==> |out[i]| > |Tag| && out[i][..|Tag|] == Tag
    decreases |lines|
  {
    if |lines| == 0 then []
    else
      var rest := Emit(lines[1..]);
      if lines[0] == "" then rest
      else
        var out := [Tag + lines[0]] + rest;
        assert forall i :: 1 <= i < |out| ==> out[i] == rest[i - 1];
        out
  }

  /** The lines the host's logger receives for `msg`. */
  function LogLines(msg: string): (out: seq<string>)
    ensures forall i :: 0 <= i < |out| ==> |out[i]| > |Tag| && out[i][..|Tag|] == Tag
  {
    Emit(SplitLines(msg))
  }

  lemma {:induction false} EmitAppend(a: seq<string>, b: seq<string>)
    ensures Emit(a + b) == Emit(a) + Emit(b)
    decreases |a|
  {
    if |a| == 0 {
      assert a + b == b;
    } else {
      assert (a + b)[1..] == a[1..] + b;
      EmitAppend(a[1..], b);
    }
  }

  /** A message without a line feed is one line, tagged, or nothing at all when it is empty. */
  lemma LogSingleLine(msg: string)
    requires '\n' !in msg
    ensures LogLines(msg) == if msg == "" then [] else [Tag + msg]
  {
  }

  /** The lines of a message whose first separator is `\r\n`: the first line's, then the rest's. */
  lemma {:induction false} LogSplitsAtCrLf(first: string, rest: string)
    requires '\n' !in first
    ensures LogLines(first + "\r\n" + rest) == LogLines(first) + LogLines(rest)
  {
    SplitLinesAround(first, "\r\n", rest);
    EmitAppend([first], SplitLines(rest));
    LogSingleLine(first);
  }

  /** The same for a plain `\n`, provided the first line does not end with `\r`. */
  lemma {:induction false} LogSplitsAtLf(first: string, rest: string)
    requires '\n' !in first
    requires |first| == 0 || first[|first| - 1] != '\r'
    ensures LogLines(first + "\n" + rest) == LogLines(first) + LogLines(rest)
  {
    SplitLinesAround(first, "\n", rest);
    EmitAppend([first], SplitLines(rest));
    LogSingleLine(first);
  }

  /** Blank lines are suppressed: a message of line feeds alone logs nothing. */
  lemma {:induction false} BlankMessageLogsNothing(n: nat)
    ensures LogLines(seq(n, _ => '\n')) == []
    decreases n
  {
    if n == 0 {
      LogSingleLine("");
    } else {
      var msg := seq(n, _ => '\n');
      var tail := seq(n - 1, _ => '\n');
      assert msg == "" + "\n" + tail;
      LogSplitsAtLf("", tail);
      BlankMessageLogsNothing(n - 1);
      LogSingleLine("");
    }
  }
}
