/**
 * How the vector store cuts a file into chunks before indexing it: Python files along their
 * top-level functions and classes, everything else (and Python that does not parse) into runs
 * of whole lines whose total length stays within a budget. The embedding store itself is not
 * part of this model.
 */
module VectorDb {
  import opened Common

  /** One chunk: its text and the 1-based, inclusive range of lines it holds. */
  datatype Chunk = Chunk(content: string, startLine: int, endLine: int)

  /** The character budget `_chunk_content` uses when its caller gives none. */
  const DefaultChunkSize := 1500

  // ---------------------------------------------------------------------
  // The line chunker

  /** `"\n".join(lines[a:b])`. */
  method JoinLines(lines: seq<string>, a: nat, b: nat) returns (text: string)
    ensures text == Text(lines, a, b)
  {
    text := Join(Slice(lines, a, b), "\n");
    TextJoin(lines, a, b);
  }

  /** The summed length of the lines from index `a` up to (not including) index `b`, newlines not counted. */
  function Size(lines: seq<string>, a: int, b: int): nat
    requires 0 <= a <= b <= |lines|
    decreases b - a
  {
    if a == b then 0 else Size(lines, a, b - 1) + |lines[b - 1]|
  }

  /**
   * The lines from index `a` up to (not including) index `b`, as far as they exist, joined by
   * newlines: Python's `"\n".join(lines[a:b])`, written over indices (see `TextJoin`).
   */
  function Text(lines: seq<string>, a: nat, b: nat): string
    decreases b
  {
    var hi := if b < |lines| then b else |lines|;
    if hi <= a then [] else if hi == a + 1 then lines[a] else Text(lines, a, hi - 1) + "\n" + lines[hi - 1]
  }

  /** `Text` is the slice of the lines joined by newlines. */
  lemma {:induction false} TextJoin(lines: seq<string>, a: nat, b: nat)
    ensures Text(lines, a, b) == Join(Slice(lines, a, b), "\n")
    decreases b
  {
    var hi := if b < |lines| then b else |lines|;
    if hi > a + 1 {
      TextJoin(lines, a, hi - 1);
      TextJoinStep(lines, a, b, hi);
    } else {
      TextJoinShort(lines, a, b, hi);
    }
  }

  /** `TextJoin` for at most one line. */
  lemma TextJoinShort(lines: seq<string>, a: nat, b: nat, hi: nat)
    requires hi == (if b < |lines| then b else |lines|) && hi <= a + 1
    ensures Text(lines, a, b) == Join(Slice(lines, a, b), "\n")
  {
    if hi == a + 1 {
      assert Slice(lines, a, b) == [lines[a]];
    }
  }

  /** `TextJoin` for one more line. */
  lemma TextJoinStep(lines: seq<string>, a: nat, b: nat, hi: nat)
    requires hi == (if b < |lines| then b else |lines|) && hi > a + 1
    requires Text(lines, a, hi - 1) == Join(Slice(lines, a, hi - 1), "\n")
    ensures Text(lines, a, b) == Join(Slice(lines, a, b), "\n")
  {
    var init := Slice(lines, a, hi - 1);
    SliceSnoc(lines, a, hi);
    assert Slice(lines, a, b) == init + [lines[hi - 1]];
    JoinAppend(init, lines[hi - 1], "\n");
    assert Text(lines, a, b) == Text(lines, a, hi - 1) + "\n" + lines[hi - 1];
  }

  /** A slice of at least two lines is the slice without its last line, then that line. */
  lemma SliceSnoc(lines: seq<string>, a: nat, hi: nat)
    requires a + 1 < hi <= |lines|
    ensures Slice(lines, a, hi) == Slice(lines, a, hi - 1) + [lines[hi - 1]] && Slice(lines, a, hi - 1) != []
  {
    assert lines[a..hi] == lines[a..hi - 1] + [lines[hi - 1]];
  }

  /**
   * A chunk of the line chunker: a non-empty range of the lines, holding their text joined by
   * newlines, within the budget unless it is a single line, and ended only because the next
   * line would have gone over the budget.
   */
  predicate Fits(lines: seq<string>, size: int, c: Chunk) {
    1 <= c.startLine <= c.endLine <= |lines|
    && c.content == Text(lines, c.startLine - 1, c.endLine)
    && (Size(lines, c.startLine - 1, c.endLine) <= size || c.startLine == c.endLine)
    && (c.endLine < |lines| ==> Size(lines, c.startLine - 1, c.endLine + 1) > size)
  }

  /** The chunks cover the first `n` lines one after the other, with neither gap nor overlap, and each fits. */
  predicate Chunks(lines: seq<string>, size: int, chunks: seq<Chunk>, n: int)
    decreases |chunks|
  {
    if chunks == [] then n == 0
    else
      var c := chunks[|chunks| - 1];
      c.endLine == n && Fits(lines, size, c) && Chunks(lines, size, chunks[..|chunks| - 1], c.startLine - 1)
  }

  /** What `_line_chunker` makes of some lines with a budget of `size` characters. */
  predicate Chunked(lines: seq<string>, size: int, chunks: seq<Chunk>) {
    Chunks(lines, size, chunks, |lines|)
  }

  /**
   * The state of `_line_chunker` after its first `i` lines: the chunks closed so far, the first
   * line of the current chunk (which holds the lines from there to line `i`) and its size.
   */
  datatype Scan = Scan(chunks: seq<Chunk>, startLine: int, currentSize: int)

  /** One turn of `_line_chunker`'s loop, over the line at index `i`. */
  function Step(lines: seq<string>, size: int, p: Scan, i: nat): (r: Scan)
    requires i < |lines| && 1 <= p.startLine <= i + 1
    ensures 1 <= r.startLine <= i + 1
  {
    var line := lines[i];
    if p.currentSize + |line| > size && p.startLine <= i then
      Scan(p.chunks + [Chunk(Text(lines, p.startLine - 1, i), p.startLine, i)], i + 1, |line|)
    else Scan(p.chunks, p.startLine, p.currentSize + |line|)
  }

  /** `_line_chunker`'s loop over the first `i` lines. */
  function Scanned(lines: seq<string>, size: int, i: nat): (r: Scan)
    requires i <= |lines|
    ensures 1 <= r.startLine <= i + 1
  {
    if i == 0 then Scan([], 1, 0) else Step(lines, size, Scanned(lines, size, i - 1), i - 1)
  }

  /** `_line_chunker`: the loop, then the current chunk when it is not empty. */
  function LineChunks(lines: seq<string>, size: int): seq<Chunk> {
    var p := Scanned(lines, size, |lines|);
    if p.startLine <= |lines| then p.chunks + [Chunk(Text(lines, p.startLine - 1, |lines|), p.startLine, |lines|)]
    else p.chunks
  }

  /**
   * `_line_chunker`: lines are added to the current chunk until the next one would take it
   * over the budget; a chunk is never empty, so an over-long line is a chunk of its own.
   */
  method LineChunker(content: string, chunkSize: int) returns (chunks: seq<Chunk>)
    ensures chunks == LineChunks(SplitLines(content), chunkSize)
    ensures Chunked(SplitLines(content), chunkSize, chunks)
  {
    chunks := ChunkLines(SplitLines(content), chunkSize);
    LineChunksChunked(SplitLines(content), chunkSize);
  }

  /** The loop of `_line_chunker` over the lines of the text. */
  method ChunkLines(lines: seq<string>, chunkSize: int) returns (chunks: seq<Chunk>)
    ensures chunks == LineChunks(lines, chunkSize)
  {
    chunks := [];
    var currentSize := 0;
    var startLine := 1;
    for i := 0 to |lines|
      invariant Scan(chunks, startLine, currentSize) == Scanned(lines, chunkSize, i)
    {
      var line := lines[i];
      if currentSize + |line| > chunkSize && startLine <= i {
        var text := JoinLines(lines, startLine - 1, i);
        chunks := chunks + [Chunk(text, startLine, i)];
        currentSize := 0;
        startLine := i + 1;
      }
      currentSize := currentSize + |line|;
    }
    if startLine <= |lines| {
      var text := JoinLines(lines, startLine - 1, |lines|);
      chunks := chunks + [Chunk(text, startLine, |lines|)];
    }
  }

  /**
   * The state after `i` lines: the chunks closed so far cover the lines before the current
   * chunk, which is not empty once a line was read, has the size of its lines and stays within
   * the budget unless it is a single line.
   */
  predicate ScanOk(lines: seq<string>, size: int, p: Scan, i: nat)
    requires i <= |lines|
  {
    1 <= p.startLine <= i + 1 && (p.startLine == i + 1 <==> i == 0)
    && p.currentSize == Size(lines, p.startLine - 1, i)
    && (i - p.startLine + 1 <= 1 || p.currentSize <= size)
    && Chunks(lines, size, p.chunks, p.startLine - 1)
  }

  /** One turn of the loop keeps the state in order. */
  lemma StepOk(lines: seq<string>, size: int, p: Scan, i: nat)
    requires i < |lines| && ScanOk(lines, size, p, i)
    ensures ScanOk(lines, size, Step(lines, size, p, i), i + 1)
  {
    var r := Step(lines, size, p, i);
    if p.currentSize + |lines[i]| > size && p.startLine <= i {
      assert Size(lines, p.startLine - 1, i + 1) == p.currentSize + |lines[i]|;
      Close(lines, size, p.chunks, p.startLine, i);
      assert r.chunks == p.chunks + [Chunk(Text(lines, p.startLine - 1, i), p.startLine, i)];
      assert r.startLine == i + 1 && r.currentSize == |lines[i]|;
      assert Size(lines, i, i + 1) == |lines[i]|;
    } else {
      assert r.chunks == p.chunks && r.startLine == p.startLine;
      assert r.currentSize == Size(lines, p.startLine - 1, i + 1);
    }
  }

  lemma {:induction false} ScannedOk(lines: seq<string>, size: int, i: nat)
    requires i <= |lines|
    ensures ScanOk(lines, size, Scanned(lines, size, i), i)
  {
    if i > 0 {
      var p := Scanned(lines, size, i - 1);
      ScannedOk(lines, size, i - 1);
      StepOk(lines, size, p, i - 1);
      assert Scanned(lines, size, i) == Step(lines, size, p, i - 1);
    }
  }

  /** The line chunker's chunks tile the lines, each fitting the budget. */
  lemma LineChunksChunked(lines: seq<string>, size: int)
    ensures Chunked(lines, size, LineChunks(lines, size))
  {
    ScannedOk(lines, size, |lines|);
    var p := Scanned(lines, size, |lines|);
    if p.startLine <= |lines| {
      Close(lines, size, p.chunks, p.startLine, |lines|);
    }
  }

  /** Closing the current chunk, lines `s` to `e`, when it fits, extends the chunking to line `e`. */
  lemma Close(lines: seq<string>, size: int, chunks: seq<Chunk>, s: int, e: int)
    requires Chunks(lines, size, chunks, s - 1) && 1 <= s <= e <= |lines|
    requires e - s + 1 <= 1 || Size(lines, s - 1, e) <= size
    requires e < |lines| ==> Size(lines, s - 1, e + 1) > size
    ensures Chunks(lines, size, chunks + [Chunk(Text(lines, s - 1, e), s, e)], e)
  {
    var c := Chunk(Text(lines, s - 1, e), s, e);
    assert (chunks + [c])[..|chunks|] == chunks;
    assert Fits(lines, size, c);
  }

  /** The chunks cover lines 1 to `n` one after the other, with neither gap nor overlap. */
  predicate Tiles(chunks: seq<Chunk>, n: int) {
    (chunks == [] ==> n == 0)
    && (chunks != [] ==> chunks[0].startLine == 1 && chunks[|chunks| - 1].endLine == n)
    && forall k :: 0 <= k < |chunks| - 1 ==> chunks[k + 1].startLine == chunks[k].endLine + 1
  }

  /**
   * A chunking by lines, chunk by chunk: the first starts on line 1, each next one on the line
   * after the previous one ends, the last ends on the last line, and every chunk fits.
   */
  lemma {:induction false} ChunksIndexed(lines: seq<string>, size: int, chunks: seq<Chunk>, n: int)
    requires Chunks(lines, size, chunks, n)
    ensures Tiles(chunks, n) && forall k :: 0 <= k < |chunks| ==> Fits(lines, size, chunks[k])
    decreases |chunks|
  {
    if chunks != [] {
      var init := chunks[..|chunks| - 1];
      ChunksIndexed(lines, size, init, chunks[|chunks| - 1].startLine - 1);
      assert forall k :: 0 <= k < |init| ==> chunks[k] == init[k];
    }
  }

  /** There are no chunks exactly when there are no lines. */
  lemma ChunkedEmpty(lines: seq<string>, size: int, chunks: seq<Chunk>)
    requires Chunked(lines, size, chunks)
    ensures chunks == [] <==> lines == []
  {
    if chunks != [] {
      assert Fits(lines, size, chunks[|chunks| - 1]);
    }
  }

  function Contents(chunks: seq<Chunk>): (r: seq<string>)
    ensures |r| == |chunks| && forall k :: 0 <= k < |chunks| ==> r[k] == chunks[k].content
  {
    seq(|chunks|, k requires 0 <= k < |chunks| => chunks[k].content)
  }

  /** Chunks covering the first `n` lines join back into those lines. */
  lemma {:induction false} ChunksJoin(lines: seq<string>, size: int, chunks: seq<Chunk>, n: int)
    requires Chunks(lines, size, chunks, n)
    ensures 0 <= n <= |lines|
    ensures Join(Contents(chunks), "\n") == Join(lines[..n], "\n")
    decreases |chunks|
  {
    if chunks != [] {
      var init, last := chunks[..|chunks| - 1], chunks[|chunks| - 1];
      var s := last.startLine;
      ChunksJoin(lines, size, init, s - 1);
      assert Contents(chunks) == Contents(init) + [last.content];
      TextJoin(lines, s - 1, n);
      assert Slice(lines, s - 1, n) == lines[s - 1..n];
      if init == [] {
        assert lines[..n] == lines[s - 1..n];
      } else {
        JoinAppend(Contents(init), last.content, "\n");
        JoinSplit(lines, s - 1, n);
      }
    }
  }

  /** The lines up to `n`, joined, are those before `m` and those from `m` on, joined. */
  lemma JoinSplit(lines: seq<string>, m: int, n: int)
    requires 0 < m < n <= |lines|
    ensures Join(lines[..n], "\n") == Join(lines[..m], "\n") + "\n" + Join(lines[m..n], "\n")
  {
    assert lines[..n] == lines[..m] + lines[m..n];
    JoinConcat(lines[..m], lines[m..n], "\n");
  }

  /** Joining the chunks' texts with newlines gives back the lines joined with newlines. */
  lemma ChunkedJoin(lines: seq<string>, size: int, chunks: seq<Chunk>)
    requires Chunked(lines, size, chunks)
    ensures Join(Contents(chunks), "\n") == Join(lines, "\n")
  {
    ChunksJoin(lines, size, chunks, |lines|);
    assert lines[..|lines|] == lines;
  }

  /** More lines are no shorter. */
  lemma {:induction false} SizeMonotone(lines: seq<string>, a: int, b: int, b': int)
    requires 0 <= a <= b <= b' <= |lines|
    ensures Size(lines, a, b) <= Size(lines, a, b')
    decreases b' - b
  {
    if b < b' {
      SizeMonotone(lines, a, b, b' - 1);
    }
  }

  /** Of two fitting chunks that start on the same line, neither ends after the other. */
  lemma NotLonger(lines: seq<string>, size: int, c: Chunk, d: Chunk)
    requires Fits(lines, size, c) && Fits(lines, size, d) && c.startLine == d.startLine
    ensures d.endLine <= c.endLine
  {
    if c.endLine < d.endLine {
      SizeMonotone(lines, c.startLine - 1, c.endLine + 1, d.endLine);
    }
  }

  /** The line chunker's result is the only chunking of the lines with its properties. */
  lemma ChunkedUnique(lines: seq<string>, size: int, a: seq<Chunk>, b: seq<Chunk>)
    requires Chunked(lines, size, a) && Chunked(lines, size, b)
    ensures a == b
  {
    ChunksIndexed(lines, size, a, |lines|);
    ChunksIndexed(lines, size, b, |lines|);
    forall k | 0 <= k < |a| && k < |b| ensures a[k] == b[k] {
      ChunkedAt(lines, size, a, b, k);
    }
    ChunkedEmpty(lines, size, a);
    ChunkedEmpty(lines, size, b);
    if a != [] && b != [] {
      if |a| < |b| {
        NotLast(lines, size, b, |a| - 1);
      } else if |b| < |a| {
        NotLast(lines, size, a, |b| - 1);
      }
    }
  }

  /** Every chunk but the last ends before the last line. */
  lemma NotLast(lines: seq<string>, size: int, chunks: seq<Chunk>, k: nat)
    requires Tiles(chunks, |lines|) && forall k :: 0 <= k < |chunks| ==> Fits(lines, size, chunks[k])
    requires k + 1 < |chunks|
    ensures chunks[k].endLine < |lines|
  {
    assert Fits(lines, size, chunks[k + 1]);
  }

  lemma {:induction false} ChunkedAt(lines: seq<string>, size: int, a: seq<Chunk>, b: seq<Chunk>, k: nat)
    requires Tiles(a, |lines|) && forall k :: 0 <= k < |a| ==> Fits(lines, size, a[k])
    requires Tiles(b, |lines|) && forall k :: 0 <= k < |b| ==> Fits(lines, size, b[k])
    requires k < |a| && k < |b|
    ensures a[k] == b[k]
    decreases k
  {
    if k > 0 {
      ChunkedAt(lines, size, a, b, k - 1);
    }
    NotLonger(lines, size, a[k], b[k]);
    NotLonger(lines, size, b[k], a[k]);
  }

  // ---------------------------------------------------------------------
  // The Python chunker

  type LineNo = n: int | n >= 1 witness 1

  /** A function or class definition found by the AST visitor: its first and last line. */
  datatype Node = Node(lineno: LineNo, endLineno: Option<LineNo>)

  /** The node's last line; without an end line number, the line after its first. */
  function End(n: Node): LineNo {
    if n.endLineno.Some? then n.endLineno.value else n.lineno + 1
  }

  /** The chunk of one node: its lines, as far as they exist. */
  function NodeChunk(lines: seq<string>, n: Node): Chunk {
    Chunk(Text(lines, n.lineno - 1, End(n)), n.lineno, End(n))
  }

  /** The lines between the last line seen and the node, as a chunk when they are not all blank. */
  function Gap(lines: seq<string>, last: nat, n: Node): (r: seq<Chunk>)
    ensures |r| <= 1
  {
    if n.lineno > last + 1 then
      var gap := Text(lines, last, n.lineno - 1);
      if NonBlank(gap) then [Chunk(gap, last + 1, n.lineno - 1)] else []
    else []
  }

  /** The state of `_python_chunker` after some nodes: the chunks so far and the last line seen. */
  datatype Visit = Visit(chunks: seq<Chunk>, last: nat)

  /** One turn of `_python_chunker`'s loop: the gap before the node, then the node. */
  function VisitStep(lines: seq<string>, v: Visit, n: Node): Visit {
    Visit(v.chunks + Gap(lines, v.last, n) + [NodeChunk(lines, n)], End(n))
  }

  /** `_python_chunker`'s loop over the first `i` nodes. */
  function Visited(lines: seq<string>, nodes: seq<Node>, i: nat): Visit
    requires i <= |nodes|
  {
    if i == 0 then Visit([], 0) else VisitStep(lines, Visited(lines, nodes, i - 1), nodes[i - 1])
  }

  /** The lines after the last node, as a chunk when there are some and they are not all blank. */
  function Trailing(lines: seq<string>, last: nat): (r: seq<Chunk>)
    ensures |r| <= 1
  {
    if last < |lines| then
      var remaining := Text(lines, last, |lines|);
      if NonBlank(remaining) then [Chunk(remaining, last + 1, |lines|)] else []
    else []
  }

  /** `_python_chunker` for the nodes the AST visitor found. */
  function PyChunks(lines: seq<string>, nodes: seq<Node>): seq<Chunk> {
    var v := Visited(lines, nodes, |nodes|);
    v.chunks + Trailing(lines, v.last)
  }

  /** The chunks of the first `i` nodes, in node order. */
  function Marks(lines: seq<string>, nodes: seq<Node>, i: nat): seq<Chunk>
    requires i <= |nodes|
  {
    if i == 0 then [] else Marks(lines, nodes, i - 1) + [NodeChunk(lines, nodes[i - 1])]
  }

  lemma {:induction false} MarksAt(lines: seq<string>, nodes: seq<Node>, i: nat)
    requires i <= |nodes|
    ensures |Marks(lines, nodes, i)| == i
    ensures forall k :: 0 <= k < i ==> Marks(lines, nodes, i)[k] == NodeChunk(lines, nodes[k])
  {
    if i > 0 {
      MarksAt(lines, nodes, i - 1);
    }
  }

  /**
   * `r` holds the chunks `marks` in order at the positions `pos`, and otherwise only chunks
   * that are not blank, at most `|marks| + extra` of them.
   */
  predicate Placed(r: seq<Chunk>, marks: seq<Chunk>, pos: seq<nat>, extra: nat) {
    |pos| == |marks| && |marks| <= |r| <= 2 * |marks| + extra
    && (forall k :: 0 <= k < |marks| ==> pos[k] < |r| && r[pos[k]] == marks[k])
    && (forall k, l :: 0 <= k < l < |marks| ==> pos[k] < pos[l])
    && forall j :: 0 <= j < |r| && j !in pos ==> NonBlank(r[j].content)
  }

  /** Appending at most one non-blank chunk and then a marked one keeps the chunks placed. */
  lemma PlacedAppend(r: seq<Chunk>, marks: seq<Chunk>, pos: seq<nat>, extra: seq<Chunk>, c: Chunk)
    requires Placed(r, marks, pos, 0)
    requires |extra| <= 1 && forall e :: e in extra ==> NonBlank(e.content)
    ensures Placed(r + extra + [c], marks + [c], pos + [|r| + |extra|], 0)
  {
    var r' := r + extra + [c];
    var pos' := pos + [|r| + |extra|];
    forall j | 0 <= j < |r'| && j !in pos' ensures NonBlank(r'[j].content) {
      if j >= |r| {
        assert r'[j] in extra;
      } else {
        assert j !in pos;
      }
    }
    assert forall k :: 0 <= k < |pos| ==> pos'[k] == pos[k] && r'[pos[k]] == r[pos[k]];
  }

  /** After the loop's first `i` turns, the chunks of the first `i` nodes are in place. */
  lemma {:induction false} VisitedPlaced(lines: seq<string>, nodes: seq<Node>, i: nat) returns (pos: seq<nat>)
    requires i <= |nodes|
    ensures Placed(Visited(lines, nodes, i).chunks, Marks(lines, nodes, i), pos, 0)
  {
    if i == 0 {
      pos := [];
    } else {
      var before := VisitedPlaced(lines, nodes, i - 1);
      pos := VisitPlaced(lines, nodes[i - 1], Visited(lines, nodes, i - 1), Marks(lines, nodes, i - 1), before);
      assert Visited(lines, nodes, i) == VisitStep(lines, Visited(lines, nodes, i - 1), nodes[i - 1]);
    }
  }

  /** One turn of the loop adds the node's chunk after at most one chunk that is not blank. */
  lemma VisitPlaced(lines: seq<string>, n: Node, v: Visit, marks: seq<Chunk>, pos: seq<nat>) returns (pos': seq<nat>)
    requires Placed(v.chunks, marks, pos, 0)
    ensures Placed(VisitStep(lines, v, n).chunks, marks + [NodeChunk(lines, n)], pos', 0)
  {
    var gap := Gap(lines, v.last, n);
    PlacedAppend(v.chunks, marks, pos, gap, NodeChunk(lines, n));
    pos' := pos + [|v.chunks| + |gap|];
  }

  /**
   * The Python chunker makes one chunk per node, over the node's lines and in node order (at the
   * positions `pos`), and otherwise only chunks that are not blank: at most one before each node
   * and one after the last.
   */
  lemma PyChunksLayout(lines: seq<string>, nodes: seq<Node>) returns (pos: seq<nat>)
    ensures var r := PyChunks(lines, nodes);
      |pos| == |nodes| && |nodes| <= |r| <= 2 * |nodes| + 1
      && (forall k :: 0 <= k < |nodes| ==> pos[k] < |r| && r[pos[k]] == NodeChunk(lines, nodes[k]))
      && (forall k, l :: 0 <= k < l < |nodes| ==> pos[k] < pos[l])
      && forall j :: 0 <= j < |r| && j !in pos ==> NonBlank(r[j].content)
  {
    var v := Visited(lines, nodes, |nodes|);
    var marks := Marks(lines, nodes, |nodes|);
    pos := VisitedPlaced(lines, nodes, |nodes|);
    MarksAt(lines, nodes, |nodes|);
    var r := PyChunks(lines, nodes);
    var t := Trailing(lines, v.last);
    assert r == v.chunks + t;
    forall j | 0 <= j < |r| && j !in pos ensures NonBlank(r[j].content) {
      if j < |v.chunks| {
        assert r[j] == v.chunks[j];
      }
    }
    assert forall k :: 0 <= k < |nodes| ==> r[pos[k]] == v.chunks[pos[k]] == marks[k];
  }

  /**
   * `_python_chunker`, given the nodes the AST visitor found in the text: for each node the
   * non-blank gap before it and then the node itself, and finally the non-blank rest.
   */
  method PythonChunker(content: string, nodes: seq<Node>) returns (chunks: seq<Chunk>)
    ensures chunks == PyChunks(SplitLines(content), nodes)
  {
    chunks := ChunkNodes(SplitLines(content), nodes);
  }

  /** The loop of `_python_chunker` over the nodes, then the rest of the lines. */
  method ChunkNodes(lines: seq<string>, nodes: seq<Node>) returns (chunks: seq<Chunk>)
    ensures chunks == PyChunks(lines, nodes)
  {
    chunks := [];
    var last: nat := 0;
    for i := 0 to |nodes|
      invariant Visit(chunks, last) == Visited(lines, nodes, i)
    {
      chunks, last := ChunkNode(lines, chunks, last, nodes[i]);
    }
    chunks := ChunkRest(lines, chunks, last);
  }

  /** The body of the loop of `_python_chunker`, for one node. */
  method ChunkNode(lines: seq<string>, chunks: seq<Chunk>, last: nat, node: Node) returns (chunks': seq<Chunk>, last': nat)
    ensures Visit(chunks', last') == VisitStep(lines, Visit(chunks, last), node)
  {
    chunks' := chunks;
    if node.lineno > last + 1 {
      var gap := JoinLines(lines, last, node.lineno - 1);
      StripEmptyIffBlank(gap);
      if Strip(gap) != [] {
        chunks' := chunks' + [Chunk(gap, last + 1, node.lineno - 1)];
      }
    }
    var end := End(node);
    var text := JoinLines(lines, node.lineno - 1, end);
    chunks' := chunks' + [Chunk(text, node.lineno, end)];
    last' := end;
  }

  /** The end of `_python_chunker`: the rest of the lines after the last node. */
  method ChunkRest(lines: seq<string>, chunks: seq<Chunk>, last: nat) returns (chunks': seq<Chunk>)
    ensures chunks' == chunks + Trailing(lines, last)
  {
    chunks' := chunks;
    if last < |lines| {
      var remaining := JoinLines(lines, last, |lines|);
      StripEmptyIffBlank(remaining);
      if Strip(remaining) != [] {
        chunks' := chunks' + [Chunk(remaining, last + 1, |lines|)];
      }
    }
  }

  /**
   * `_chunk_content`: a `.py` file is chunked along its definitions when its text parses
   * (`parsed` is what parsing it gives); otherwise, and for every other file, by lines.
   */
  method ChunkContent(content: string, filePath: string, chunkSize: int, parsed: Outcome<seq<Node>>)
    returns (chunks: seq<Chunk>)
    ensures EndsWith(filePath, ".py") && parsed.Ok? ==> chunks == PyChunks(SplitLines(content), parsed.value)
    ensures !(EndsWith(filePath, ".py") && parsed.Ok?) ==> Chunked(SplitLines(content), chunkSize, chunks)
  {
    if EndsWith(filePath, ".py") && parsed.Ok? {
      chunks := PythonChunker(content, parsed.value);
    } else {
      chunks := LineChunker(content, chunkSize);
    }
  }

  // ---------------------------------------------------------------------
  // Chunk ids

  /** The id a chunk is stored under: the file's relative path, `_`, and the chunk's first line. */
  function ChunkId(relPath: string, c: Chunk): string {
    relPath + "_" + IntToString(c.startLine)
  }

  /** In a chunking by lines, later chunks start on later lines. */
  lemma {:induction false} ChunkedIncreasing(lines: seq<string>, size: int, chunks: seq<Chunk>, k: nat, l: nat)
    requires Tiles(chunks, |lines|) && forall k :: 0 <= k < |chunks| ==> Fits(lines, size, chunks[k])
    requires k < l < |chunks|
    ensures chunks[k].startLine < chunks[l].startLine
    decreases l - k
  {
    assert Fits(lines, size, chunks[l - 1]);
    if k < l - 1 {
      ChunkedIncreasing(lines, size, chunks, k, l - 1);
    }
  }

  /** Different natural numbers print differently. */
  lemma NatToStringInjective(m: nat, n: nat)
    requires NatToString(m) == NatToString(n)
    ensures m == n
  {
    ParseNatToString(m);
    ParseNatToString(n);
  }

  /** The chunks of a file chunked by lines all get different ids. */
  lemma ChunkIdsDistinct(relPath: string, lines: seq<string>, size: int, chunks: seq<Chunk>, k: nat, l: nat)
    requires Chunked(lines, size, chunks) && k < l < |chunks|
    ensures ChunkId(relPath, chunks[k]) != ChunkId(relPath, chunks[l])
  {
    ChunksIndexed(lines, size, chunks, |lines|);
    ChunkedIncreasing(lines, size, chunks, k, l);
    assert Fits(lines, size, chunks[k]) && Fits(lines, size, chunks[l]);
    var p := relPath + "_";
    var x, y := ChunkId(relPath, chunks[k]), ChunkId(relPath, chunks[l]);
    if x == y {
      assert x[|p|..] == NatToString(chunks[k].startLine);
      assert y[|p|..] == NatToString(chunks[l].startLine);
      NatToStringInjective(chunks[k].startLine, chunks[l].startLine);
    }
  }
}
