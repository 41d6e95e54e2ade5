/** The quote file both delight programs share: `quotes.txt`, read with
    `readlines()` and written back without its first line, one quote per
    day. */
module Quotes {
  import opened Wrappers

  /** What is left in the file after a day's pop: the file is rewritten
      only when it held a line. */
  function Popped(lines: seq<string>): (rest: seq<string>)
  {
    if lines == [] then lines else lines[1..]
  }

  /** The quote of the day: the first line, if there is one. */
  function Head(lines: seq<string>): (first: Option<string>)
  {
    if lines == [] then None else Some(lines[0])
  }

  /** A pop loses no line and invents none: the served line followed by
      the rest is the old file, and an empty file stays as it is. */
  lemma PopSplits(lines: seq<string>)
    ensures Head(lines).None? <==> lines == []
    ensures Head(lines).Some? ==> lines == [Head(lines).value] + Popped(lines)
    ensures Head(lines).None? ==> Popped(lines) == lines
    ensures |Popped(lines)| == if lines == [] then 0 else |lines| - 1
  {
    if lines != [] {
      assert lines == [lines[0]] + lines[1..];
    }
  }

  /** The file after `days` runs. */
  function AfterDays(lines: seq<string>, days: nat): seq<string>
    decreases days
  {
    if days == 0 then lines else Popped(AfterDays(lines, days - 1))
  }

  /** The quote served on run number `day` (counted from 0). */
  function ServedOn(lines: seq<string>, day: nat): Option<string>
  {
    Head(AfterDays(lines, day))
  }

  /** Day after day the file is consumed from the front: after `days` runs
      it holds the lines from index `days` on. */
  lemma {:induction false} AfterDaysIsSuffix(lines: seq<string>, days: nat)
    ensures AfterDays(lines, days) == if days <= |lines| then lines[days..] else []
    decreases days
  {
    if days > 0 {
      AfterDaysIsSuffix(lines, days - 1);
      if days - 1 < |lines| {
        assert lines[days - 1..][1..] == lines[days..];
      }
    }
  }

  /** The quotes come out in file order, each line exactly once, and
      "no more quotes" from the day the file runs out. */
  lemma ServedInOrder(lines: seq<string>, day: nat)
    ensures day < |lines| ==> ServedOn(lines, day) == Some(lines[day])
    ensures day >= |lines| ==> ServedOn(lines, day) == None
  {
    AfterDaysIsSuffix(lines, day);
  }

  /** `quotes.txt`: its lines as `readlines()` returns them, each with its
      line ending. */
  class QuoteFile {
    var lines: seq<string>

    constructor(lines: seq<string>)
      ensures this.lines == lines
    {
      this.lines := lines;
    }

    /** Read the lines; when there is at least one, write back all but the
        first and return it. An empty file is not rewritten. */
    method Pop() returns (first: Option<string>)
      modifies this
      ensures first == Head(old(lines)) && lines == Popped(old(lines))
    {
      if lines == [] {
        first := None;
      } else {
        first := Some(lines[0]);
        lines := lines[1..];
      }
    }
  }
}
