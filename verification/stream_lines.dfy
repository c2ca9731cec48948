/**
 Turning a growing output file into lines (engine/src/claude_print.rs, `read_growth`).

 The code keeps a byte offset and the unterminated tail of what it has read so far. `SplitOf` is
 the reference: it reads the whole file one byte at a time. The lemmas say what a split means and
 that reading in pieces gives the same answer as reading once.
 */
module StreamLines {
  import opened Wrappers

  const NEWLINE: Byte := 10

  /** The complete non-empty lines of some input, and what follows its last newline. */
  datatype Split = Split(lines: seq<Bytes>, tail: Bytes)

  const EMPTY_SPLIT := Split([], [])

  // ---------------------------------------------------------------------------------------------
  // Reference definition
  // ---------------------------------------------------------------------------------------------

  function FeedByte(s: Split, b: Byte): Split {
    if b != NEWLINE then Split(s.lines, s.tail + [b])
    else Split(if s.tail == [] then s.lines else s.lines + [s.tail], [])
  }

  function Feed(s: Split, input: Bytes): Split {
    if input == [] then s
    else FeedByte(Feed(s, input[..|input| - 1]), input[|input| - 1])
  }

  function SplitOf(file: Bytes): Split {
    Feed(EMPTY_SPLIT, file)
  }

  lemma {:induction false} FeedAppend(s: Split, a: Bytes, b: Bytes)
    ensures Feed(s, a + b) == Feed(Feed(s, a), b)
  {
    if b == [] {
      assert a + b == a;
    } else {
      var n := |b| - 1;
      FeedAppend(s, a, b[..n]);
      assert (a + b)[..|a + b| - 1] == a + b[..n];
      assert (a + b)[|a + b| - 1] == b[n];
    }
  }

  /** Lines already collected only ever sit in front of those still to come. */
  lemma {:induction false} FeedKeepsLines(done: seq<Bytes>, tail: Bytes, input: Bytes)
    ensures Feed(Split(done, tail), input).lines == done + Feed(Split([], tail), input).lines
    ensures Feed(Split(done, tail), input).tail == Feed(Split([], tail), input).tail
  {
    if input != [] {
      FeedKeepsLines(done, tail, input[..|input| - 1]);
    }
  }

  /** Input without a newline goes to the tail. */
  lemma {:induction false} FeedPlain(s: Split, input: Bytes)
    requires NEWLINE !in input
    ensures Feed(s, input) == Split(s.lines, s.tail + input)
  {
    if input == [] {
      assert s.tail + input == s.tail;
    } else {
      var n := |input| - 1;
      FeedPlain(s, input[..n]);
      assert input == input[..n] + [input[n]];
      assert s.tail + input == s.tail + input[..n] + [input[n]];
    }
  }

  // ---------------------------------------------------------------------------------------------
  // What a split means
  // ---------------------------------------------------------------------------------------------

  ghost predicate IsLine(line: Bytes) {
    line != [] && NEWLINE !in line
  }

  ghost predicate WellFormed(s: Split) {
    && (forall i :: 0 <= i < |s.lines| ==> IsLine(s.lines[i]))
    && NEWLINE !in s.tail
  }

  /** The input a split stands for, each line followed by one newline. */
  function Render(s: Split): Bytes
    decreases |s.lines|
  {
    if s.lines == [] then s.tail
    else s.lines[0] + [NEWLINE] + Render(Split(s.lines[1..], s.tail))
  }

  /** The file with its blank lines removed and everything else in place. */
  function WithoutBlankLines(file: Bytes): Bytes {
    if file == [] then []
    else
      var kept := WithoutBlankLines(file[..|file| - 1]);
      var b := file[|file| - 1];
      if b == NEWLINE && (kept == [] || kept[|kept| - 1] == NEWLINE) then kept else kept + [b]
  }

  lemma {:induction false} RenderSnoc(lines: seq<Bytes>, line: Bytes, tail: Bytes)
    ensures Render(Split(lines + [line], tail)) == Render(Split(lines, [])) + line + [NEWLINE] + tail
    decreases |lines|
  {
    if lines == [] {
      assert lines + [line] == [line];
      assert [line][1..] == [];
    } else {
      RenderSnoc(lines[1..], line, tail);
      assert (lines + [line])[1..] == lines[1..] + [line];
    }
  }

  lemma {:induction false} RenderTail(lines: seq<Bytes>, tail: Bytes)
    ensures Render(Split(lines, tail)) == Render(Split(lines, [])) + tail
    decreases |lines|
  {
    if lines != [] {
      RenderTail(lines[1..], tail);
    }
  }

  lemma {:induction false} RenderEnd(lines: seq<Bytes>)
    ensures lines == [] ==> Render(Split(lines, [])) == []
    ensures lines != [] ==>
              var r := Render(Split(lines, [])); r != [] && r[|r| - 1] == NEWLINE
    decreases |lines|
  {
    if lines != [] {
      RenderEnd(lines[1..]);
      if lines[1..] != [] {
        var rest := Render(Split(lines[1..], []));
        assert Render(Split(lines, [])) == lines[0] + [NEWLINE] + rest;
      }
    }
  }

  /**
   The lines of a file are exactly its non-empty newline-terminated lines in order, and the tail
   is what follows the last newline: nothing but blank lines is lost.
   */
  lemma {:induction false} SplitMeaning(file: Bytes)
    ensures WellFormed(SplitOf(file))
    ensures Render(SplitOf(file)) == WithoutBlankLines(file)
  {
    if file != [] {
      var n := |file| - 1;
      SplitMeaning(file[..n]);
      var before := SplitOf(file[..n]);
      RenderTail(before.lines, before.tail);
      RenderEnd(before.lines);
      if file[n] != NEWLINE {
        RenderTail(before.lines, before.tail + [file[n]]);
      } else if before.tail != [] {
        RenderSnoc(before.lines, before.tail, []);
        assert SplitOf(file).lines == before.lines + [before.tail];
      }
    }
  }

  lemma {:induction false} NewlineInRender(s: Split)
    requires WellFormed(s)
    ensures NEWLINE in Render(s) <==> s.lines != []
    decreases |s.lines|
  {
    if s.lines != [] {
      assert NEWLINE in s.lines[0] + [NEWLINE];
    }
  }

  lemma FirstNewlineUnique(a: Bytes, restA: Bytes, b: Bytes, restB: Bytes)
    requires NEWLINE !in a && NEWLINE !in b
    requires a + [NEWLINE] + restA == b + [NEWLINE] + restB
    ensures a == b && restA == restB
  {
    var whole := a + [NEWLINE] + restA;
    assert whole[|a|] == NEWLINE && whole[|b|] == NEWLINE;
    assert forall i :: 0 <= i < |a| ==> whole[i] == a[i];
    assert forall i :: 0 <= i < |b| ==> whole[i] == b[i];
    assert |a| == |b|;
    assert a == whole[..|a|] && b == whole[..|b|];
    assert restA == whole[|a| + 1..] && restB == whole[|b| + 1..];
  }

  /** Only one well-formed split renders to a given text, so `SplitMeaning` pins `SplitOf` down. */
  lemma {:induction false} SplitUnique(s: Split, t: Split)
    requires WellFormed(s) && WellFormed(t)
    requires Render(s) == Render(t)
    ensures s == t
    decreases |s.lines|
  {
    NewlineInRender(s);
    NewlineInRender(t);
    if s.lines != [] {
      var restS, restT := Split(s.lines[1..], s.tail), Split(t.lines[1..], t.tail);
      FirstNewlineUnique(s.lines[0], Render(restS), t.lines[0], Render(restT));
      SplitUnique(restS, restT);
      assert s.lines == [s.lines[0]] + restS.lines && t.lines == [t.lines[0]] + restT.lines;
    }
  }

  // ---------------------------------------------------------------------------------------------
  // Reading in pieces
  // ---------------------------------------------------------------------------------------------

  /** What a reader remembers between two reads. */
  datatype Cursor = Cursor(offset: nat, pending: Bytes)

  /** What one read returns: seeking past the end of the file reads nothing. */
  function Unread(file: Bytes, offset: nat): Bytes {
    if offset <= |file| then file[offset..] else []
  }

  function ReadOnce(c: Cursor, file: Bytes): (Cursor, seq<Bytes>) {
    var unread := Unread(file, c.offset);
    var split := SplitOf(c.pending + unread);
    (Cursor(c.offset + |unread|, split.tail), split.lines)
  }

  /** A reader that has consumed exactly `file[..offset]` since the line boundary `from`. */
  ghost predicate Tracks(c: Cursor, file: Bytes, from: nat) {
    && from <= c.offset <= |file|
    && SplitOf(file[..from]).tail == []
    && c.pending == SplitOf(file[..c.offset]).tail
  }

  lemma SplitAppend(a: Bytes, b: Bytes)
    ensures SplitOf(a + b).lines == SplitOf(a).lines + SplitOf(SplitOf(a).tail + b).lines
    ensures SplitOf(a + b).tail == SplitOf(SplitOf(a).tail + b).tail
  {
    var s := SplitOf(a);
    FeedAppend(EMPTY_SPLIT, a, b);
    FeedKeepsLines(s.lines, s.tail, b);
    SplitMeaning(a);
    FeedAppend(EMPTY_SPLIT, s.tail, b);
    FeedPlain(EMPTY_SPLIT, s.tail);
    assert [] + s.tail == s.tail;
  }

  /** A longer file has all the lines of a shorter one, in the same places. */
  lemma LinesGrow(file: Bytes, cut: nat)
    requires cut <= |file|
    ensures |SplitOf(file[..cut]).lines| <= |SplitOf(file).lines|
    ensures SplitOf(file[..cut]).lines == SplitOf(file).lines[..|SplitOf(file[..cut]).lines|]
  {
    assert file == file[..cut] + file[cut..];
    SplitAppend(file[..cut], file[cut..]);
  }

  /** One read from a tracking cursor returns precisely the lines completed since the last one. */
  lemma ReadOnceTracks(c: Cursor, file: Bytes, from: nat)
    requires Tracks(c, file, from)
    ensures var (c', lines) := ReadOnce(c, file);
            && Tracks(c', file, from)
            && c'.offset == |file|
            && SplitOf(file).lines == SplitOf(file[..c.offset]).lines + lines
  {
    assert file == file[..c.offset] + file[c.offset..];
    SplitAppend(file[..c.offset], file[c.offset..]);
    assert file[..|file|] == file;
  }

  /** A file shorter than the offset, as after a truncation, gives nothing and changes nothing. */
  lemma ShortFileReadsNothing(c: Cursor, file: Bytes)
    requires |file| < c.offset && NEWLINE !in c.pending
    ensures ReadOnce(c, file) == (c, [])
  {
    PlainSplit(c.pending);
    NothingMore(c.pending);
    hide SplitOf;
  }

  lemma NothingMore(s: Bytes)
    ensures s + [] == s && [] + s == s
  {
  }

  lemma PlainSplit(s: Bytes)
    requires NEWLINE !in s
    ensures SplitOf(s) == Split([], s)
  {
    hide Feed;
    FeedPlain(EMPTY_SPLIT, s);
    NothingMore(s);
  }

  /** Growing the file does not disturb a tracking cursor. */
  lemma TracksGrow(c: Cursor, file: Bytes, more: Bytes, from: nat)
    requires Tracks(c, file, from)
    ensures Tracks(c, file + more, from)
  {
    assert (file + more)[..from] == file[..from];
    assert (file + more)[..c.offset] == file[..c.offset];
  }

  /** The pending tail lies after the boundary, so `offset - |pending|` does not saturate. */
  lemma {:induction false} PendingFits(file: Bytes, from: nat, end: nat)
    requires from <= end <= |file|
    requires SplitOf(file[..from]).tail == []
    ensures |SplitOf(file[..end]).tail| <= end - from
    ensures var cut := end - |SplitOf(file[..end]).tail|;
            && from <= cut
            && (cut == 0 || file[cut - 1] == NEWLINE)
            && SplitOf(file[..cut]).tail == []
            && SplitOf(file[..cut]).lines == SplitOf(file[..end]).lines
    decreases end
  {
    var s := SplitOf(file[..end]);
    if s.tail == [] {
      if end > 0 {
        assert file[..end][..end - 1] == file[..end - 1];
        assert file[..end][end - 1] == file[end - 1];
      }
    } else {
      assert end > 0 && from < end;
      assert file[..end][..end - 1] == file[..end - 1];
      assert file[..end][end - 1] == file[end - 1];
      assert s == FeedByte(SplitOf(file[..end - 1]), file[end - 1]);
      PendingFits(file, from, end - 1);
    }
  }

  /** Successive reads of a file that only grows; `snapshots[i]` is the file at the i-th read. */
  function ReadAll(c: Cursor, snapshots: seq<Bytes>): (Cursor, seq<Bytes>)
    decreases |snapshots|
  {
    if snapshots == [] then (c, [])
    else
      var (c', lines) := ReadOnce(c, snapshots[0]);
      var (c'', more) := ReadAll(c', snapshots[1..]);
      (c'', lines + more)
  }

  ghost predicate AppendOnly(snapshots: seq<Bytes>) {
    forall i, j :: 0 <= i < j < |snapshots| ==> snapshots[i] <= snapshots[j]
  }

  lemma {:induction false} ReadAllFrom(c: Cursor, snapshots: seq<Bytes>)
    requires snapshots != [] && AppendOnly(snapshots)
    requires Tracks(c, snapshots[0], 0)
    ensures var last := snapshots[|snapshots| - 1];
            var (c', lines) := ReadAll(c, snapshots);
            && c' == Cursor(|last|, SplitOf(last).tail)
            && SplitOf(last).lines == SplitOf(snapshots[0][..c.offset]).lines + lines
    decreases |snapshots|
  {
    var file := snapshots[0];
    ReadOnceTracks(c, file, 0);
    var (c', lines) := ReadOnce(c, file);
    assert file[..|file|] == file;
    if |snapshots| == 1 {
      assert ReadAll(c', snapshots[1..]) == (c', []);
      assert lines + [] == lines;
    } else {
      var next := snapshots[1];
      assert next == file + next[|file|..];
      TracksGrow(c', file, next[|file|..], 0);
      assert next[..c'.offset] == file;
      ReadAllFrom(c', snapshots[1..]);
    }
  }

  /**
   Chunk invariance: however the reads fall, the lines returned in total are the lines of the
   last snapshot, the pending buffer is its unterminated tail, and the offset its length.
   */
  lemma ChunkInvariance(snapshots: seq<Bytes>)
    requires snapshots != [] && AppendOnly(snapshots)
    ensures var last := snapshots[|snapshots| - 1];
            ReadAll(Cursor(0, []), snapshots)
              == (Cursor(|last|, SplitOf(last).tail), SplitOf(last).lines)
  {
    var c := Cursor(0, []);
    assert snapshots[0][..0] == [];
    ReadAllFrom(c, snapshots);
    var lines := ReadAll(c, snapshots).1;
    assert [] + lines == lines;
  }

  // ---------------------------------------------------------------------------------------------
  // The code
  // ---------------------------------------------------------------------------------------------

  /** Index of the first newline, or the length when there is none. */
  method FirstNewline(pending: Bytes) returns (index: nat)
    ensures index <= |pending|
    ensures NEWLINE !in pending[..index]
    ensures index < |pending| ==> pending[index] == NEWLINE
  {
    index := 0;
    while index < |pending| && pending[index] != NEWLINE
      invariant index <= |pending|
      invariant NEWLINE !in pending[..index]
    {
      index := index + 1;
    }
  }

  /** Taking the front line off a buffer leaves the rest of its split unchanged. */
  lemma DrainOne(pending: Bytes, index: nat)
    requires index < |pending|
    requires NEWLINE !in pending[..index] && pending[index] == NEWLINE
    ensures SplitOf(pending).lines
         == (if index == 0 then [] else [pending[..index]]) + SplitOf(pending[index + 1..]).lines
    ensures SplitOf(pending).tail == SplitOf(pending[index + 1..]).tail
  {
    CutLine(pending, index);
    LineAlone(pending[..index]);
    hide FeedByte, Feed, SplitOf;
    SplitAppend(pending[..index + 1], pending[index + 1..]);
    assert [] + pending[index + 1..] == pending[index + 1..];
  }

  lemma CutLine(pending: Bytes, index: nat)
    requires index < |pending| && pending[index] == NEWLINE
    ensures pending[..index + 1] == pending[..index] + [NEWLINE]
    ensures pending == pending[..index + 1] + pending[index + 1..]
    ensures index == 0 <==> pending[..index] == []
  {
  }

  lemma LineAlone(front: Bytes)
    requires NEWLINE !in front
    ensures SplitOf(front + [NEWLINE]) == Split(if front == [] then [] else [front], [])
  {
    FeedPlain(EMPTY_SPLIT, front);
    assert [] + front == front;
    FeedLast(EMPTY_SPLIT, front, NEWLINE);
  }

  lemma FeedLast(s: Split, input: Bytes, b: Byte)
    ensures Feed(s, input + [b]) == FeedByte(Feed(s, input), b)
  {
    hide FeedByte;
    assert (input + [b])[..|input|] == input;
  }

  /** The drain loop: complete lines leave the front of the buffer, blank ones are dropped. */
  method DrainLines(buffer: Bytes) returns (lines: seq<Bytes>, rest: Bytes)
    ensures Split(lines, rest) == SplitOf(buffer)
  {
    lines, rest := [], buffer;
    var index: nat := FirstNewline(rest);
    while index < |rest|
      invariant index <= |rest|
      invariant NEWLINE !in rest[..index]
      invariant index < |rest| ==> rest[index] == NEWLINE
      invariant SplitOf(buffer).lines == lines + SplitOf(rest).lines
      invariant SplitOf(buffer).tail == SplitOf(rest).tail
      decreases |rest|
    {
      DrainOne(rest, index);
      var line := rest[..index];
      rest := rest[index + 1..];
      if line != [] {
        lines := lines + [line];
      }
      index := FirstNewline(rest);
    }
    assert rest[..index] == rest;
    FeedPlain(EMPTY_SPLIT, rest);
    assert [] + rest == rest && lines + [] == lines;
  }

  /** The reader the monitors keep: an offset and the bytes after the last newline read. */
  class StreamReader {
    var offset: nat
    var pending: Bytes

    constructor (from: nat)
      ensures At() == Cursor(from, [])
    {
      offset, pending := from, [];
    }

    function At(): Cursor
      reads this
    {
      Cursor(offset, pending)
    }

    /** Reads everything from the offset on and drains the complete lines. */
    method ReadGrowth(file: Bytes) returns (lines: seq<Bytes>)
      modifies this
      ensures At() == ReadOnce(old(At()), file).0
      ensures lines == ReadOnce(old(At()), file).1
    {
      var bytes := if offset <= |file| then file[offset..] else [];
      offset := offset + |bytes|;
      lines, pending := DrainLines(pending + bytes);
    }
  }
}
