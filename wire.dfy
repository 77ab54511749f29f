/**
 * The line-based wire format shared by the command client and the
 * development server: a command travels as its text followed by one
 * line terminator, and the server reads a received chunk back by
 * trimming white space the way JavaScript's String.prototype.trim does.
 */
module Wire {

  const LineTerminator: char := '\n'

  /** The bytes written for one command: the command and a single '\n'. */
  function Frame(command: string): string {
    command + [LineTerminator]
  }

  /** All frames of a sequence of commands, back to back on one stream. */
  function FrameAll(commands: seq<string>): string {
    if commands == [] then [] else Frame(commands[0]) + FrameAll(commands[1..])
  }

  /** Index of the first line terminator of `s`, or |s| when there is none. */
  function LineEnd(s: string): (k: nat)
    ensures k <= |s|
    ensures forall i :: 0 <= i < k ==> s[i] != LineTerminator
    ensures k < |s| ==> s[k] == LineTerminator
  {
    if s == [] || s[0] == LineTerminator then 0 else 1 + LineEnd(s[1..])
  }

  /**
   * How a receiver splits a byte stream into lines: every complete line,
   * without its terminator; text after the last terminator is an
   * incomplete line and is not yet delivered.
   */
  function Lines(s: string): seq<string>
    decreases |s|
  {
    var k := LineEnd(s);
    if k == |s| then [] else [s[..k]] + Lines(s[k + 1..])
  }

  /** A command that fits on one line. */
  predicate SingleLine(command: string) {
    forall i :: 0 <= i < |command| ==> command[i] != LineTerminator
  }

  /** One frame is read back as exactly the command it carries. */
  lemma LinesOfFrame(command: string)
    requires SingleLine(command)
    ensures Lines(Frame(command)) == [command]
  {
    var f := Frame(command);
    assert LineEnd(f) == |command| by {
      assert f[|command|] == LineTerminator;
      assert forall i :: 0 <= i < |command| ==> f[i] == command[i];
    }
    assert f[..|command|] == command;
    assert f[|command| + 1..] == [];
  }

  /**
   * Framing relies on the terminator alone: any sequence of single-line
   * commands written back to back on one stream splits back into exactly
   * those commands, in order.
   */
  lemma {:induction false} LinesOfFrameAll(commands: seq<string>)
    requires forall j :: 0 <= j < |commands| ==> SingleLine(commands[j])
    ensures Lines(FrameAll(commands)) == commands
  {
    if commands != [] {
      var c := commands[0];
      var rest := FrameAll(commands[1..]);
      var s := Frame(c) + rest;
      assert s == FrameAll(commands);
      assert LineEnd(s) == |c| by {
        assert s[|c|] == LineTerminator;
        assert forall i :: 0 <= i < |c| ==> s[i] == c[i];
      }
      assert s[..|c|] == c;
      assert s[|c| + 1..] == rest;
      LinesOfFrameAll(commands[1..]);
    }
  }

  /**
   * White space as JavaScript's trim removes it: the WhiteSpace and
   * LineTerminator code points of ECMAScript (tab, line feed, vertical
   * tab, form feed, carriage return, space, no-break space, byte order
   * mark, the Space_Separator characters, line and paragraph separator).
   */
  predicate IsWhiteSpace(ch: char) {
    ch in WhiteSpace
  }

  const WhiteSpace: set<char> := {
    '\t', '\n', '\U{000B}', '\U{000C}', '\r', ' ', '\U{00A0}', '\U{1680}',
    '\U{2000}', '\U{2001}', '\U{2002}', '\U{2003}', '\U{2004}', '\U{2005}',
    '\U{2006}', '\U{2007}', '\U{2008}', '\U{2009}', '\U{200A}',
    '\U{2028}', '\U{2029}', '\U{202F}', '\U{205F}', '\U{3000}', '\U{FEFF}'
  }

  predicate AllWhiteSpace(s: string) {
    forall i :: 0 <= i < |s| ==> IsWhiteSpace(s[i])
  }

  /** Number of white-space characters at the start of `s`. */
  function LeadingSpace(s: string): (n: nat)
    ensures n <= |s|
    ensures forall i :: 0 <= i < n ==> IsWhiteSpace(s[i])
    ensures n < |s| ==> !IsWhiteSpace(s[n])
  {
    if s == [] || !IsWhiteSpace(s[0]) then 0 else 1 + LeadingSpace(s[1..])
  }

  /** Number of white-space characters at the end of `s`. */
  function TrailingSpace(s: string): (n: nat)
    ensures n <= |s|
    ensures forall i :: |s| - n <= i < |s| ==> IsWhiteSpace(s[i])
    ensures n < |s| ==> !IsWhiteSpace(s[|s| - 1 - n])
  {
    if s == [] || !IsWhiteSpace(s[|s| - 1]) then 0 else 1 + TrailingSpace(s[..|s| - 1])
  }

  /**
   * String.prototype.trim: `s` without its leading and trailing white
   * space. The result is empty or starts and ends with a character that
   * is not white space.
   */
  function Trim(s: string): (r: string)
    ensures r == [] || (!IsWhiteSpace(r[0]) && !IsWhiteSpace(r[|r| - 1]))
  {
    var lead := LeadingSpace(s);
    s[lead..|s| - TrailingSpace(s[lead..])]
  }

  /** Trim removes nothing but white space: `s` is the trimmed text with white space around it. */
  lemma TrimSplits(s: string) returns (before: string, after: string)
    ensures s == before + Trim(s) + after
    ensures AllWhiteSpace(before) && AllWhiteSpace(after)
  {
    var lead := LeadingSpace(s);
    var t := s[lead..];
    var hi := |s| - TrailingSpace(t);
    before := s[..lead];
    after := s[hi..];
    assert s == s[..lead] + s[lead..hi] + s[hi..];
    forall i | 0 <= i < |before| ensures IsWhiteSpace(before[i]) {
      assert before[i] == s[i];
    }
    forall i | 0 <= i < |after| ensures IsWhiteSpace(after[i]) {
      assert after[i] == t[hi - lead + i];
    }
  }

  lemma {:induction false} LeadingSpaceOf(before: string, rest: string)
    requires AllWhiteSpace(before)
    requires rest == [] || !IsWhiteSpace(rest[0])
    ensures LeadingSpace(before + rest) == |before|
  {
    if before != [] {
      assert (before + rest)[1..] == before[1..] + rest;
      LeadingSpaceOf(before[1..], rest);
    }
  }

  lemma {:induction false} TrailingSpaceOf(rest: string, after: string)
    requires AllWhiteSpace(after)
    requires rest == [] || !IsWhiteSpace(rest[|rest| - 1])
    ensures TrailingSpace(rest + after) == |after|
  {
    if after != [] {
      var t := rest + after;
      assert t[..|t| - 1] == rest + after[..|after| - 1];
      TrailingSpaceOf(rest, after[..|after| - 1]);
    }
  }

  /**
   * Trim is determined by its shape: whatever white space surrounds a
   * text that is empty or has non-white-space ends, trimming yields that
   * text.
   */
  lemma TrimOfPadded(before: string, core: string, after: string)
    requires AllWhiteSpace(before) && AllWhiteSpace(after)
    requires core == [] || (!IsWhiteSpace(core[0]) && !IsWhiteSpace(core[|core| - 1]))
    ensures Trim(before + core + after) == core
  {
    var s := before + core + after;
    if core == [] {
      assert s == (before + after) + [];
      LeadingSpaceOf(before + after, []);
    } else {
      assert s == before + (core + after);
      LeadingSpaceOf(before, core + after);
      assert s[|before|..] == core + after;
      TrailingSpaceOf(core, after);
      assert s[|before|..|s| - |after|] == core;
    }
  }

  /** Trimming twice is trimming once. */
  lemma TrimIdempotent(s: string)
    ensures Trim(Trim(s)) == Trim(s)
  {
    var r := Trim(s);
    assert [] + r + [] == r;
    TrimOfPadded([], r, []);
  }

  /** The line terminator a frame adds is white space, so trimming a frame gives the trimmed command. */
  lemma TrimFrame(command: string)
    ensures Trim(Frame(command)) == Trim(command)
  {
    var before, after := TrimSplits(command);
    assert Frame(command) == before + Trim(command) + (after + [LineTerminator]);
    TrimOfPadded(before, Trim(command), after + [LineTerminator]);
  }
}
