/** The integration tests' line-splitting writer. */
module LineWriter {
  import opened Prelude

  const NEWLINE: byte := 10

  // ---- lines of a byte stream --------------------------------------------------------------------

  predicate NewlineFree(s: seq<byte>) { forall i :: 0 <= i < |s| ==> s[i] != NEWLINE }

  /** The newline-terminated segments of a stream, without their newlines. */
  function Lines(s: seq<byte>): seq<seq<byte>>
    decreases |s|
  {
    if s == [] then []
    else
      var before, last := s[..|s| - 1], s[|s| - 1];
      if last == NEWLINE then Lines(before) + [Rest(before)] else Lines(before)
  }

  /** What follows the last newline. */
  function Rest(s: seq<byte>): (r: seq<byte>)
    ensures NewlineFree(r)
    decreases |s|
  {
    if s == [] || s[|s| - 1] == NEWLINE then [] else Rest(s[..|s| - 1]) + [s[|s| - 1]]
  }

  function Unlines(xs: seq<seq<byte>>): seq<byte> {
    if xs == [] then [] else Unlines(xs[..|xs| - 1]) + xs[|xs| - 1] + [NEWLINE]
  }

  /** The segments are newline-free, and with the remainder they spell the stream. */
  lemma {:induction false} LinesSpellStream(s: seq<byte>)
    ensures Unlines(Lines(s)) + Rest(s) == s
    ensures forall i :: 0 <= i < |Lines(s)| ==> NewlineFree(Lines(s)[i])
    decreases |s|
  {
    if s == [] {
    } else {
      var before, last := s[..|s| - 1], s[|s| - 1];
      LinesSpellStream(before);
      SpellSnoc(before, last);
      assert s == before + [last];
    }
  }

  lemma SpellSnoc(s: seq<byte>, c: byte)
    requires Unlines(Lines(s)) + Rest(s) == s && forall i :: 0 <= i < |Lines(s)| ==> NewlineFree(Lines(s)[i])
    ensures Unlines(Lines(s + [c])) + Rest(s + [c]) == s + [c]
    ensures forall i :: 0 <= i < |Lines(s + [c])| ==> NewlineFree(Lines(s + [c])[i])
  {
    Snoc(s, c);
    if c == NEWLINE {
      SpellLine(Lines(s), Rest(s), s);
    } else {
      SpellByte(Unlines(Lines(s)), Rest(s), s, c);
    }
  }

  lemma SpellLine(xs: seq<seq<byte>>, r: seq<byte>, s: seq<byte>)
    requires Unlines(xs) + r == s
    ensures Unlines(xs + [r]) + [] == s + [NEWLINE]
  {
    UnlinesSnoc(xs, r);
  }

  lemma SpellByte(u: seq<byte>, r: seq<byte>, s: seq<byte>, c: byte)
    requires u + r == s
    ensures u + (r + [c]) == s + [c]
  {
  }

  lemma UnlinesSnoc(xs: seq<seq<byte>>, x: seq<byte>)
    ensures Unlines(xs + [x]) == Unlines(xs) + x + [NEWLINE]
  {
    assert (xs + [x])[..|xs|] == xs;
  }

  lemma Snoc(s: seq<byte>, c: byte)
    ensures Lines(s + [c]) == if c == NEWLINE then Lines(s) + [Rest(s)] else Lines(s)
    ensures Rest(s + [c]) == if c == NEWLINE then [] else Rest(s) + [c]
  {
    assert (s + [c])[..|s|] == s;
  }

  /** A stream may be cut anywhere: the first part's remainder stands for the whole first part. */
  lemma {:induction false} LinesOfParts(a: seq<byte>, b: seq<byte>)
    ensures Lines(a + b) == Lines(a) + Lines(Rest(a) + b)
    ensures Rest(a + b) == Rest(Rest(a) + b)
    decreases |b|
  {
    if b == [] {
      assert a + b == a && Rest(a) + b == Rest(a);
      NewlineFreeHasNoLines(Rest(a));
    } else {
      var b', c := b[..|b| - 1], b[|b| - 1];
      LinesOfParts(a, b');
      assert a + b == (a + b') + [c] && Rest(a) + b == (Rest(a) + b') + [c];
      OneByteMore(a + b', Rest(a) + b', Lines(a), c);
    }
  }

  /** Two streams that differ by some first lines keep doing so. */
  lemma OneByteMore(x: seq<byte>, y: seq<byte>, first: seq<seq<byte>>, c: byte)
    requires Lines(x) == first + Lines(y) && Rest(x) == Rest(y)
    ensures Lines(x + [c]) == first + Lines(y + [c]) && Rest(x + [c]) == Rest(y + [c])
  {
    Snoc(x, c);
    Snoc(y, c);
    Regroup(first, Lines(y), [Rest(y)]);
  }

  lemma Regroup(a: seq<seq<byte>>, b: seq<seq<byte>>, c: seq<seq<byte>>)
    ensures a + b + c == a + (b + c)
  {
  }

  lemma {:induction false} NewlineFreeHasNoLines(s: seq<byte>)
    requires NewlineFree(s)
    ensures Lines(s) == [] && Rest(s) == s
    decreases |s|
  {
    if s == [] {
    } else {
      NewlineFreeHasNoLines(s[..|s| - 1]);
      assert s == s[..|s| - 1] + [s[|s| - 1]];
    }
  }

  lemma OneLine(line: seq<byte>)
    requires NewlineFree(line)
    ensures Lines(line + [NEWLINE]) == [line] && Rest(line + [NEWLINE]) == []
  {
    NewlineFreeHasNoLines(line);
    Snoc(line, NEWLINE);
  }

  /** The first complete line of a stream. */
  lemma LinesFirst(line: seq<byte>, tail: seq<byte>)
    requires NewlineFree(line)
    ensures Lines(line + [NEWLINE] + tail) == [line] + Lines(tail) && Rest(line + [NEWLINE] + tail) == Rest(tail)
  {
    var x := line + [NEWLINE];
    OneLine(line);
    LinesOfParts(x, tail);
    assert Rest(x) + tail == tail;
  }

  /** There is only one way to cut a stream into newline-free lines and a newline-free remainder. */
  lemma {:induction false} LinesUnique(xs: seq<seq<byte>>, r: seq<byte>)
    requires NewlineFree(r) && forall i :: 0 <= i < |xs| ==> NewlineFree(xs[i])
    ensures Lines(Unlines(xs) + r) == xs && Rest(Unlines(xs) + r) == r
    decreases |xs|
  {
    if xs == [] {
      assert Unlines(xs) + r == r;
      NewlineFreeHasNoLines(r);
    } else {
      var front, last := xs[..|xs| - 1], xs[|xs| - 1];
      LinesUnique(front, last);
      OneMoreLine(Unlines(front) + last, front, last, r);
      assert xs == front + [last];
    }
  }

  lemma OneMoreLine(s: seq<byte>, front: seq<seq<byte>>, last: seq<byte>, r: seq<byte>)
    requires Lines(s) == front && Rest(s) == last && NewlineFree(r)
    ensures Lines(s + [NEWLINE] + r) == front + [last] && Rest(s + [NEWLINE] + r) == r
  {
    Snoc(s, NEWLINE);
    RestAfter(s + [NEWLINE], r);
  }

  /** Newline-free bytes after a newline are the remainder. */
  lemma RestAfter(s: seq<byte>, r: seq<byte>)
    requires Rest(s) == [] && NewlineFree(r)
    ensures Lines(s + r) == Lines(s) && Rest(s + r) == r
  {
    LinesOfParts(s, r);
    assert [] + r == r;
    NewlineFreeHasNoLines(r);
    assert Lines(s) + [] == Lines(s);
  }

  lemma EmitOne(all: seq<byte>, off: nat, at: nat)
    requires off <= at < |all| && NewlineFree(all[off..at]) && all[at] == NEWLINE
    ensures Lines(all[off..]) == [all[off..at]] + Lines(all[at + 1..])
    ensures Rest(all[off..]) == Rest(all[at + 1..])
  {
    var line := all[off..at];
    assert all[off..] == line + [NEWLINE] + all[at + 1..];
    LinesFirst(line, all[at + 1..]);
  }

  function Concat(chunks: seq<seq<byte>>): seq<byte> {
    if chunks == [] then [] else Concat(chunks[..|chunks| - 1]) + chunks[|chunks| - 1]
  }

  // ---- the writer -----------------------------------------------------------------------------------

  class LineWriter {
    var data: array<byte>
    var len: nat
    /** what WriteLine has been given, in order */
    var lines: seq<seq<byte>>

    ghost predicate Valid()
      reads this
    {
      len <= data.Length
    }

    ghost function Buffer(): seq<byte>
      reads this, data
      requires Valid()
    {
      data[..len]
    }

    constructor ()
      ensures Valid() && fresh(data) && Buffer() == [] && lines == []
    {
      data := new byte[0];
      len := 0;
      lines := [];
    }

    /** A larger array with the same contents. */
    method Grow(capacity: nat)
      requires Valid() && len <= capacity
      modifies this`data
      ensures Valid() && fresh(data) && data.Length == capacity && Buffer() == old(Buffer())
    {
      var grown := new byte[capacity];
      for i := 0 to len
        modifies grown
        invariant forall k :: 0 <= k < i ==> grown[k] == data[k]
      {
        grown[i] := data[i];
      }
      data := grown;
    }

    /** Go's append: in place while the capacity lasts, else into a larger array. */
    method Append(bytes: seq<byte>)
      requires Valid()
      modifies this`data, this`len, data
      ensures Valid() && Buffer() == old(Buffer()) + bytes
      ensures data == old(data) || fresh(data)
    {
      if data.Length < len + |bytes| { Grow(2 * (len + |bytes|)); }
      ghost var was := Buffer();
      for i := 0 to |bytes|
        modifies data
        invariant forall k :: 0 <= k < len ==> data[k] == was[k]
        invariant forall k :: 0 <= k < i ==> data[len + k] == bytes[k]
      {
        data[len + i] := bytes[i];
      }
      len := len + |bytes|;
      assert data[..len] == was + bytes;
    }

    /** `bytes.IndexByte(s.buf[off:], '\n')`, as an absolute index; `len` when there is none. */
    method IndexNewline(off: nat) returns (at: nat)
      requires Valid() && off <= len
      ensures off <= at <= len && NewlineFree(Buffer()[off..at]) && (at < len ==> Buffer()[at] == NEWLINE)
    {
      at := off;
      while at < len && data[at] != NEWLINE
        invariant off <= at <= len && forall k :: off <= k < at ==> data[k] != NEWLINE
      {
        at := at + 1;
      }
    }

    /** Emits each complete line; `off` is where the unprocessed data begins. */
    method EmitLines() returns (off: nat)
      requires Valid()
      modifies this`lines
      ensures off <= len && lines == old(lines) + Lines(Buffer()) && Buffer()[off..] == Rest(Buffer())
    {
      ghost var all := Buffer();
      off := 0;
      var at := IndexNewline(off);
      assert all[0..] == all;
      while at < len
        modifies this`lines
        invariant off <= at <= len
        invariant NewlineFree(all[off..at]) && (at < len ==> all[at] == NEWLINE)
        invariant lines + Lines(all[off..]) == old(lines) + Lines(all)
        invariant Rest(all[off..]) == Rest(all)
        decreases len - off
      {
        var line := data[..len][off..at];
        EmitOne(all, off, at);
        Regroup(lines, [line], Lines(all[at + 1..]));
        lines := lines + [line];
        off := at + 1;
        at := IndexNewline(off);
      }
      assert all[off..] == all[off..at];
      NewlineFreeHasNoLines(all[off..]);
    }

    /** Emits each complete line, then moves the unprocessed tail to the front of the buffer. */
    method LogLines()
      requires Valid()
      modifies this`len, this`lines, data
      ensures Valid()
      ensures lines == old(lines) + Lines(old(Buffer()))
      ensures Buffer() == Rest(old(Buffer()))
    {
      var off := EmitLines();
      if off > 0 {
        ghost var all := Buffer();
        var l := len - off;
        for i := 0 to l
          modifies data
          invariant forall k :: 0 <= k < i ==> data[k] == all[off + k]
          invariant forall k :: i <= k < len ==> data[k] == all[k]
        {
          data[i] := data[off + i];
        }
        len := l;
        assert data[..len] == all[off..];
      }
    }

    /** One write splits the buffered remainder followed by the new bytes. */
    method Write(bytes: seq<byte>) returns (n: nat)
      requires Valid()
      modifies this, data
      ensures Valid() && n == |bytes|
      ensures data == old(data) || fresh(data)
      ensures lines == old(lines) + Lines(old(Buffer()) + bytes)
      ensures Buffer() == Rest(old(Buffer()) + bytes)
    {
      Append(bytes);
      LogLines();
      n := |bytes|;
    }

    /** Emits what is left, if anything. */
    method Flush()
      requires Valid()
      modifies this`len, this`lines
      ensures Valid() && Buffer() == []
      ensures lines == old(lines) + (if old(Buffer()) == [] then [] else [old(Buffer())])
    {
      if len > 0 {
        lines := lines + [data[..len]];
        len := 0;
      }
    }
  }

  /** Chunk independence: however a stream is split into writes, the emitted lines are its
      newline-terminated segments in order, and flushing adds the remainder, so that the lines
      spell the stream. */
  method WriteAll(chunks: seq<seq<byte>>) returns (w: LineWriter, beforeFlush: seq<seq<byte>>)
    ensures beforeFlush == Lines(Concat(chunks))
    ensures w.Valid() && w.Buffer() == []
    ensures w.lines == beforeFlush + (if Rest(Concat(chunks)) == [] then [] else [Rest(Concat(chunks))])
    ensures Unlines(beforeFlush) + Rest(Concat(chunks)) == Concat(chunks)
  {
    w := new LineWriter();
    assert chunks[..0] == [];
    for i := 0 to |chunks|
      invariant w.Valid() && fresh(w) && fresh(w.data)
      invariant w.lines == Lines(Concat(chunks[..i]))
      invariant w.Buffer() == Rest(Concat(chunks[..i]))
    {
      var before := chunks[..i];
      LinesOfParts(Concat(before), chunks[i]);
      assert chunks[..i + 1][..i] == before;
      var n := w.Write(chunks[i]);
    }
    assert chunks[..|chunks|] == chunks;
    beforeFlush := w.lines;
    w.Flush();
    LinesSpellStream(Concat(chunks));
  }
}
