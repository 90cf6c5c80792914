/**
  Splitting a byte stream into lines as it arrives, without ever holding a line
  longer than the bound.
 */
module BoundedLines {
  type byte = n: nat | n < 256

  type Line = seq<byte>

  const MAX_LINE: nat := 65536
  const LF: byte := 10
  const CR: byte := 13

  // ----- The stream as a whole -----

  /** Complete lines and what follows the last line feed. */
  datatype Cut = Cut(lines: seq<Line>, rest: Line)

  ghost function CutAll(s: seq<byte>): Cut {
    if s == [] then Cut([], [])
    else
      var c := CutAll(s[..|s| - 1]);
      var b := s[|s| - 1];
      if b == LF then Cut(c.lines + [c.rest], []) else Cut(c.lines, c.rest + [b])
  }

  function Terminated(lines: seq<Line>): seq<byte> {
    if lines == [] then [] else Terminated(lines[..|lines| - 1]) + lines[|lines| - 1] + [LF]
  }

  ghost predicate NoFeeds(lines: seq<Line>) { forall l | l in lines :: LF !in l }

  /** The cut is the one way to write the stream as terminated lines and a rest without line feed. */
  lemma {:induction false} CutIsTheOne(s: seq<byte>, c: Cut)
    ensures c == CutAll(s) <==> s == Terminated(c.lines) + c.rest && NoFeeds(c.lines) && LF !in c.rest
  {
    CutPutsTogether(s);
    if s == Terminated(c.lines) + c.rest && NoFeeds(c.lines) && LF !in c.rest {
      CutOfTerminated(c.lines);
      CutPlain(Terminated(c.lines), c.rest);
    }
  }

  lemma {:induction false} CutPutsTogether(s: seq<byte>)
    ensures s == Terminated(CutAll(s).lines) + CutAll(s).rest && NoFeeds(CutAll(s).lines) && LF !in CutAll(s).rest
  {
    if s != [] {
      CutPutsTogether(s[..|s| - 1]);
      var before, c := CutAll(s[..|s| - 1]), CutAll(s);
      if s[|s| - 1] == LF {
        assert c.lines[..|c.lines| - 1] == before.lines;
      }
    }
  }

  /** Bytes without a line feed only lengthen the rest. */
  lemma {:induction false} CutPlain(p: seq<byte>, x: seq<byte>)
    requires LF !in x
    ensures CutAll(p + x) == Cut(CutAll(p).lines, CutAll(p).rest + x)
  {
    if x == [] {
      assert p + x == p;
    } else {
      CutPlain(p, x[..|x| - 1]);
      assert (p + x)[..|p + x| - 1] == p + x[..|x| - 1];
    }
  }

  lemma {:induction false} CutFeed(p: seq<byte>, x: seq<byte>)
    requires LF !in x
    ensures CutAll(p + x + [LF]) == Cut(CutAll(p).lines + [CutAll(p).rest + x], [])
  {
    CutPlain(p, x);
    assert (p + x + [LF])[..|p + x|] == p + x;
  }

  lemma {:induction false} CutOfTerminated(lines: seq<Line>)
    requires NoFeeds(lines)
    ensures CutAll(Terminated(lines)) == Cut(lines, [])
  {
    if lines != [] {
      var n := |lines| - 1;
      CutOfTerminated(lines[..n]);
      CutFeed(Terminated(lines[..n]), lines[n]);
      assert [] + lines[n] == lines[n];
      assert lines == lines[..n] + [lines[n]];
    }
  }

  function StripCr(l: Line): Line {
    if l != [] && l[|l| - 1] == CR then StripCr(l[..|l| - 1]) else l
  }

  /** What is passed on of some complete lines. */
  function Kept(lines: seq<Line>): seq<Line> {
    if lines == [] then []
    else
      var last := lines[|lines| - 1];
      Kept(lines[..|lines| - 1]) + if |last| > MAX_LINE then [] else [StripCr(last)]
  }

  function Oversized(lines: seq<Line>): nat {
    if lines == [] then 0
    else Oversized(lines[..|lines| - 1]) + if |lines[|lines| - 1]| > MAX_LINE then 1 else 0
  }

  lemma {:induction false} KeptOne(lines: seq<Line>, l: Line)
    ensures Kept(lines + [l]) == Kept(lines) + if |l| > MAX_LINE then [] else [StripCr(l)]
    ensures Oversized(lines + [l]) == Oversized(lines) + if |l| > MAX_LINE then 1 else 0
  {
    assert (lines + [l])[..|lines|] == lines;
  }

  ghost function Emitted(s: seq<byte>): seq<Line> { Kept(CutAll(s).lines) }

  /** The lines of a whole stream: a nonempty last line needs no terminator. */
  ghost function WholeLines(s: seq<byte>): seq<Line> {
    var c := CutAll(s);
    Kept(if c.rest == [] then c.lines else c.lines + [c.rest])
  }

  ghost function WholeOversized(s: seq<byte>): nat {
    var c := CutAll(s);
    Oversized(if c.rest == [] then c.lines else c.lines + [c.rest])
  }

  /** At a line boundary. */
  ghost predicate Boundary(s: seq<byte>, oversized: nat) {
    CutAll(s).rest == [] && oversized == Oversized(CutAll(s).lines)
  }

  lemma {:induction false} TakeOne(s: seq<byte>, oversized: nat, line: Line)
    requires Boundary(s, oversized) && LF !in line
    ensures Boundary(s + line + [LF], oversized + if |line| > MAX_LINE then 1 else 0)
    ensures Emitted(s + line + [LF]) == Emitted(s) + if |line| > MAX_LINE then [] else [StripCr(line)]
  {
    CutFeed(s, line);
    assert [] + line == line;
    KeptOne(CutAll(s).lines, line);
  }

  lemma {:induction false} TakeRest(s: seq<byte>, oversized: nat, rest: Line)
    requires Boundary(s, oversized) && LF !in rest
    ensures CutAll(s + rest) == Cut(CutAll(s).lines, rest) && Emitted(s + rest) == Emitted(s)
  {
    CutPlain(s, rest);
    assert [] + rest == rest;
  }

  /** What the splitter must hold after a stream. */
  ghost predicate Holds(s: seq<byte>, buffer: Line, discarding: bool, oversized: nat) {
    var c := CutAll(s);
    && (discarding <==> |c.rest| > MAX_LINE)
    && buffer == (if discarding then [] else c.rest)
    && oversized == Oversized(c.lines) + if discarding then 1 else 0
  }

  /** The complete lines of `data[..start]` have been taken, after the stream `p`. */
  ghost predicate Taken(p: seq<byte>, data: seq<byte>, start: nat, oversized: nat, lines: seq<Line>) {
    && start <= |data| && Boundary(p + data[..start], oversized)
    && Emitted(p + data[..start]) == Emitted(p) + lines
  }

  lemma {:induction false} NothingTaken(p: seq<byte>, data: seq<byte>, oversized: nat)
    requires Boundary(p, oversized)
    ensures Taken(p, data, 0, oversized, [])
  {
    assert p + data[..0] == p;
  }

  lemma {:induction false} TakenNext(p: seq<byte>, data: seq<byte>, start: nat, at: nat, oversized: nat, lines: seq<Line>)
    requires Taken(p, data, start, oversized, lines) && start <= at < |data| && data[at] == LF && LF !in data[start..at]
    ensures |data[start..at]| > MAX_LINE ==> Taken(p, data, at + 1, oversized + 1, lines)
    ensures |data[start..at]| <= MAX_LINE ==> Taken(p, data, at + 1, oversized, lines + [StripCr(data[start..at])])
  {
    var line := data[start..at];
    TakeOne(p + data[..start], oversized, line);
    assert p + data[..start] + line + [LF] == p + data[..at + 1];
  }

  lemma {:induction false} TakenAll(p: seq<byte>, data: seq<byte>, start: nat, oversized: nat, lines: seq<Line>)
    requires Taken(p, data, start, oversized, lines) && LF !in data[start..]
    ensures Emitted(p + data) == Emitted(p) + lines
    ensures |data[start..]| > MAX_LINE ==> Holds(p + data, [], true, oversized + 1)
    ensures |data[start..]| <= MAX_LINE ==> Holds(p + data, data[start..], false, oversized)
  {
    TakeRest(p + data[..start], oversized, data[start..]);
    assert p + data[..start] + data[start..] == p + data;
  }

  /** Outside a discarded line, the stream is a line boundary and the buffer. */
  lemma {:induction false} ResumeLine(s: seq<byte>, buffer: Line, oversized: nat) returns (p: seq<byte>)
    requires Holds(s, buffer, false, oversized)
    ensures forall chunk :: s + chunk == p + (buffer + chunk)
    ensures Boundary(p, oversized) && Emitted(p) == Emitted(s)
  {
    RestIsSuffix(s);
    CutPrefix(s);
    p := s[..|s| - |buffer|];
    assert s == p + buffer;
  }

  /** A line feed ends the line being discarded. */
  lemma {:induction false} EndDiscarding(s: seq<byte>, oversized: nat, chunk: seq<byte>, at: nat) returns (p: seq<byte>)
    requires Holds(s, [], true, oversized) && at < |chunk| && chunk[at] == LF && LF !in chunk[0..at]
    ensures s + chunk == p + chunk[at + 1..] && Boundary(p, oversized) && Emitted(p) == Emitted(s)
  {
    p := s + chunk[0..at] + [LF];
    assert s + chunk == p + chunk[at + 1..];
    DiscardedLine(s, oversized, chunk[0..at]);
  }

  lemma {:induction false} DiscardedLine(s: seq<byte>, oversized: nat, skipped: seq<byte>)
    requires Holds(s, [], true, oversized) && LF !in skipped
    ensures Boundary(s + skipped + [LF], oversized) && Emitted(s + skipped + [LF]) == Emitted(s)
  {
    var c := CutAll(s);
    CutFeed(s, skipped);
    KeptOne(c.lines, c.rest + skipped);
  }

  lemma {:induction false} GoOnDiscarding(s: seq<byte>, oversized: nat, skipped: seq<byte>)
    requires Holds(s, [], true, oversized) && LF !in skipped[0..]
    ensures Holds(s + skipped, [], true, oversized) && Emitted(s + skipped) == Emitted(s)
  {
    assert skipped[0..] == skipped;
    CutPlain(s, skipped);
  }

  lemma {:induction false} BoundaryHolds(s: seq<byte>, oversized: nat)
    requires Boundary(s, oversized)
    ensures Holds(s + [], [], false, oversized) && Emitted(s + []) == Emitted(s)
  {
    assert s + [] == s;
  }

  // ----- The splitter -----

  method Find(data: seq<byte>, start: nat) returns (r: Position)
    requires start <= |data|
    ensures r.Found? ==> start <= r.at < |data| && data[r.at] == LF && LF !in data[start..r.at]
    ensures r.Absent? ==> LF !in data[start..]
  {
    var i := start;
    while i < |data|
      invariant start <= i <= |data| && LF !in data[start..i]
    {
      if data[i] == LF { return Found(i); }
      assert data[start..i + 1] == data[start..i] + [data[i]];
      i := i + 1;
    }
    assert data[start..i] == data[start..];
    return Absent;
  }

  datatype Position = Absent | Found(at: nat)

  class Splitter {
    var buffer: Line
    var discarding: bool
    var oversized: nat
    /** Everything fed so far. */
    ghost var fed: seq<byte>

    constructor ()
      ensures Valid() && fed == [] && oversized == 0
    {
      buffer, discarding, oversized, fed := [], false, 0, [];
    }

    ghost predicate Valid()
      reads this
    {
      Holds(fed, buffer, discarding, oversized)
    }

    /** The lines completed by a chunk; the buffer stays within the bound. */
    method Feed(chunk: seq<byte>) returns (lines: seq<Line>)
      requires Valid()
      modifies this
      ensures Valid() && fed == old(fed) + chunk && |buffer| <= MAX_LINE
      ensures Emitted(fed) == Emitted(old(fed)) + lines
    {
      if chunk == [] {
        assert fed + chunk == fed;
        return [];
      }
      ghost var p;
      fed := fed + chunk;
      if discarding {
        var r := Find(chunk, 0);
        if r.Absent? {
          GoOnDiscarding(old(fed), oversized, chunk);
          return [];
        }
        discarding := false;
        p := EndDiscarding(old(fed), oversized, chunk, r.at);
        var data := chunk[r.at + 1..];
        if data == [] {
          BoundaryHolds(p, oversized);
          return [];
        }
        lines := TakeLines(data, p);
      } else {
        p := ResumeLine(old(fed), buffer, oversized);
        lines := TakeLines(buffer + chunk, p);
      }
    }

    /** The loop over complete lines, from a line boundary on. */
    method TakeLines(data: seq<byte>, ghost p: seq<byte>) returns (lines: seq<Line>)
      requires !discarding && Boundary(p, oversized)
      modifies this`buffer, this`discarding, this`oversized
      ensures Holds(p + data, buffer, discarding, oversized) && |buffer| <= MAX_LINE
      ensures Emitted(p + data) == Emitted(p) + lines
    {
      lines := [];
      var start := 0;
      NothingTaken(p, data, oversized);
      while true
        invariant !discarding && Taken(p, data, start, oversized, lines)
        decreases |data| - start
      {
        var r := Find(data, start);
        if r.Absent? {
          var remainder := data[start..];
          TakenAll(p, data, start, oversized, lines);
          if |remainder| > MAX_LINE {
            oversized, buffer, discarding := oversized + 1, [], true;
          } else {
            buffer := remainder;
          }
          return;
        }
        var line := data[start..r.at];
        TakenNext(p, data, start, r.at, oversized, lines);
        if |line| > MAX_LINE {
          oversized := oversized + 1;
        } else {
          lines := lines + [StripCr(line)];
        }
        start := r.at + 1;
      }
    }

    /** The end of the stream: all lines and the oversize count are those of the whole stream. */
    method Finish() returns (lines: seq<Line>)
      requires Valid()
      modifies this`buffer, this`oversized
      ensures buffer == []
      ensures Emitted(fed) + lines == WholeLines(fed) && oversized == WholeOversized(fed)
    {
      ghost var c := CutAll(fed);
      KeptOne(c.lines, c.rest);
      if buffer != [] && |buffer| <= MAX_LINE {
        lines := [StripCr(buffer)];
        buffer := [];
        return;
      }
      // A longer buffer cannot occur, so the count has no further line to add here.
      buffer := [];
      return [];
    }
  }

  lemma {:induction false} RestIsSuffix(s: seq<byte>)
    ensures |CutAll(s).rest| <= |s| && s[|s| - |CutAll(s).rest|..] == CutAll(s).rest
  {
    CutPutsTogether(s);
  }

  /** Without its rest the stream ends at a line boundary. */
  lemma {:induction false} CutPrefix(s: seq<byte>)
    requires |CutAll(s).rest| <= |s|
    ensures CutAll(s[..|s| - |CutAll(s).rest|]) == Cut(CutAll(s).lines, [])
  {
    CutPutsTogether(s);
    CutOfTerminated(CutAll(s).lines);
    assert s[..|s| - |CutAll(s).rest|] == Terminated(CutAll(s).lines);
  }
}
