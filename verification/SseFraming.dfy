/** Cutting an event stream into blocks at blank lines, chunk by chunk, and the
    cursor from which a dropped connection resumes. */
module SseFraming {

  const LFLF := "\n\n"
  const CRLFCRLF := "\r\n\r\n"

  predicate At(s: string, sep: string, i: nat) { i + |sep| <= |s| && s[i..i + |sep|] == sep }

  /** First position of `sep` from `i` on; |s| when there is none. */
  function Index(s: string, sep: string, i: nat): (k: nat)
    requires i <= |s| && sep != ""
    ensures i <= k <= |s| && (k < |s| ==> At(s, sep, k))
    ensures forall j: nat | i <= j < k :: !At(s, sep, j)
    decreases |s| - i
  {
    if i == |s| || At(s, sep, i) then i else Index(s, sep, i + 1)
  }

  predicate HasBoundary(s: string) { Index(s, LFLF, 0) < |s| || Index(s, CRLFCRLF, 0) < |s| }

  /** The boundary the splitter takes: the CRLF one if it comes first. */
  function Separator(s: string): (sep: string)
    ensures sep == LFLF || sep == CRLFCRLF
  {
    var lf, crlf := Index(s, LFLF, 0), Index(s, CRLFCRLF, 0);
    if crlf < |s| && (lf == |s| || crlf < lf) then CRLFCRLF else LFLF
  }

  datatype Framed = Framed(blocks: seq<string>, rest: string)

  function Split(s: string): Framed
    decreases |s|
  {
    if !HasBoundary(s) then Framed([], s)
    else
      var sep := Separator(s);
      var at := Index(s, sep, 0);
      if at == |s| then Framed([], s)
      else
        var more := Split(s[at + |sep|..]);
        Framed([s[..at]] + more.blocks, more.rest)
  }

  /** The reader of one connection after another. */
  class EventStream {
    var buf: string
    var seenSeq: int
    const seqOf: string -> seq<int>

    constructor (seqOf: string -> seq<int>)
      ensures buf == "" && seenSeq == 0 && this.seqOf == seqOf
    {
      this.seqOf := seqOf;
      buf, seenSeq := "", 0;
    }

    /** One decoded chunk: emit the blocks that are complete now. */
    method Receive(chunk: string) returns (blocks: seq<string>)
      modifies `buf, `seenSeq
      ensures Framed(blocks, buf) == Split(old(buf) + chunk)
      ensures seenSeq == Cursor(old(seenSeq), blocks, seqOf)
    {
      buf := buf + chunk;
      blocks := [];
      ghost var whole := buf;
      while HasBoundary(buf)
        invariant Split(whole).rest == Split(buf).rest && Split(whole).blocks == blocks + Split(buf).blocks
        invariant seenSeq == Cursor(old(seenSeq), blocks, seqOf)
        decreases |buf|
      {
        hide Split, Index, Separator, HasBoundary, Cursor, Highest;
        var sep := Separator(buf);
        var at := Index(buf, sep, 0);
        SplitOnce(buf);
        var block := buf[..at];
        BlocksJoin(blocks, [block], Split(buf[at + |sep|..]).blocks);
        CursorSnoc(old(seenSeq), blocks, block, seqOf);
        seenSeq := Highest(seenSeq, seqOf(block));
        blocks, buf := blocks + [block], buf[at + |sep|..];
      }
      NothingToSplit(buf);
      assert blocks + [] == blocks;
    }

    /** A dropped connection: what was not a whole block is asked for again. */
    method Reconnect()
      modifies `buf
      ensures buf == ""
    {
      buf := "";
    }
  }

  lemma SeparatorOccurs(s: string)
    requires HasBoundary(s)
    ensures Index(s, Separator(s), 0) < |s|
  {
  }

  // ------------------------------------------------------------- the cursor

  function Highest(seen: int, numbers: seq<int>): (r: int)
    ensures r >= seen && (r == seen || r in numbers) && forall n | n in numbers :: n <= r
    decreases |numbers|
  {
    if numbers == [] then seen else
    assert forall n | n in numbers :: n == numbers[0] || n in numbers[1..];
    Highest(if numbers[0] > seen then numbers[0] else seen, numbers[1..])
  }

  function Cursor(seen: int, blocks: seq<string>, seqOf: string -> seq<int>): int
    decreases |blocks|
  {
    if blocks == [] then seen
    else Highest(Cursor(seen, blocks[..|blocks| - 1], seqOf), seqOf(blocks[|blocks| - 1]))
  }

  lemma CursorSnoc(seen: int, blocks: seq<string>, block: string, seqOf: string -> seq<int>)
    ensures Cursor(seen, blocks + [block], seqOf) == Highest(Cursor(seen, blocks, seqOf), seqOf(block))
  {
    assert (blocks + [block])[..|blocks|] == blocks;
  }

  /** The cursor never moves back, is at least every number delivered, and was
      delivered itself unless it did not move. */
  lemma {:induction false} CursorIsHighest(seen: int, blocks: seq<string>, seqOf: string -> seq<int>)
    ensures var c := Cursor(seen, blocks, seqOf);
            && c >= seen && (forall b | b in blocks :: forall n | n in seqOf(b) :: n <= c)
            && (c == seen || exists b :: b in blocks && c in seqOf(b))
    decreases |blocks|
  {
    if blocks != [] {
      var front, last := blocks[..|blocks| - 1], blocks[|blocks| - 1];
      CursorIsHighest(seen, front, seqOf);
      assert forall b | b in blocks :: b in front || b == last;
      assert last in blocks && forall b | b in front :: b in blocks;
    }
  }

  // ------------------------------------------------------ chunk independence

  lemma AtFront(a: string, b: string, sep: string, i: nat)
    requires i + |sep| <= |a|
    ensures At(a + b, sep, i) == At(a, sep, i)
  {
    assert (a + b)[i..i + |sep|] == a[i..i + |sep|];
  }

  lemma AtChars(s: string, i: nat)
    ensures At(s, LFLF, i) ==> i + 2 <= |s| && s[i] == '\n' && s[i + 1] == '\n'
    ensures At(s, CRLFCRLF, i) ==> i + 4 <= |s| && s[i] == '\r' && s[i + 2] == '\r'
  {
    if At(s, LFLF, i) { assert s[i..i + 2][0] == '\n' && s[i..i + 2][1] == '\n'; }
    if At(s, CRLFCRLF, i) { assert s[i..i + 4][0] == '\r' && s[i..i + 4][2] == '\r'; }
  }

  /** No boundary can start before one that is already complete and end after
      it, so what follows never changes where the first block ends. */
  lemma FirstBoundaryStays(a: string, b: string, i: nat)
    requires HasBoundary(a) && i < Index(a, Separator(a), 0)
    ensures !At(a + b, LFLF, i) && !At(a + b, CRLFCRLF, i)
  {
    var sep, s := Separator(a), a + b;
    var at := Index(a, sep, 0);
    assert At(a, sep, at);
    AtFront(a, b, LFLF, i);
    assert !At(a, LFLF, i) && !At(a, CRLFCRLF, i);
    if i + 4 <= |a| {
      AtFront(a, b, CRLFCRLF, i);
    } else {
      AtChars(a, at);
      AtChars(s, i);
      assert sep == LFLF && at == i + 1 && s[i + 2] == a[at + 1];
    }
  }

  lemma IndexIs(s: string, sep: string, i: nat, k: nat)
    requires sep != "" && i <= k < |s| && At(s, sep, k) && forall j: nat | i <= j < k :: !At(s, sep, j)
    ensures Index(s, sep, i) == k
  {
  }

  lemma FirstCut(a: string, b: string)
    requires HasBoundary(a)
    ensures HasBoundary(a + b) && Separator(a + b) == Separator(a)
    ensures Index(a + b, Separator(a), 0) == Index(a, Separator(a), 0)
  {
    var sep, s := Separator(a), a + b;
    var at := Index(a, sep, 0);
    SeparatorOccurs(a);
    AtFront(a, b, sep, at);
    forall j: nat | j < at ensures !At(s, LFLF, j) && !At(s, CRLFCRLF, j) { FirstBoundaryStays(a, b, j); }
    IndexIs(s, sep, 0, at);
    AtChars(s, at);
  }

  /** One block off the front of a buffer that has one. */
  lemma SplitOnce(s: string)
    requires HasBoundary(s)
    ensures var at, len := Index(s, Separator(s), 0), |Separator(s)|;
            && len > 0 && at + len <= |s|
            && Split(s) == Framed([s[..at]] + Split(s[at + len..]).blocks, Split(s[at + len..]).rest)
  {
    SeparatorOccurs(s);
  }

  lemma BlocksJoin(a: seq<string>, b: seq<string>, c: seq<string>)
    ensures a + (b + c) == a + b + c
  {
  }

  /** What is left after the first block. */
  function Tail(s: string): string
    requires HasBoundary(s)
  {
    SeparatorOccurs(s);
    s[Index(s, Separator(s), 0) + |Separator(s)|..]
  }

  lemma TailAppend(a: string, b: string) returns (head: string)
    requires HasBoundary(a)
    ensures HasBoundary(a + b) && |Tail(a)| < |a| && Tail(a + b) == Tail(a) + b
    ensures Split(a) == Framed([head] + Split(Tail(a)).blocks, Split(Tail(a)).rest)
    ensures Split(a + b) == Framed([head] + Split(Tail(a) + b).blocks, Split(Tail(a) + b).rest)
  {
    hide Split, Index, Separator, HasBoundary;
    var at, len := Index(a, Separator(a), 0), |Separator(a)|;
    FirstCut(a, b);
    SplitOnce(a);
    SplitOnce(a + b);
    assert (a + b)[at + len..] == a[at + len..] + b && (a + b)[..at] == a[..at];
    head := a[..at];
  }

  /** Splitting what came first and then the rest is splitting everything. */
  lemma {:induction false} SplitAppend(a: string, b: string)
    ensures Split(a + b) == Framed(Split(a).blocks + Split(Split(a).rest + b).blocks, Split(Split(a).rest + b).rest)
    decreases |a|
  {
    if HasBoundary(a) {
      hide Split, Tail, HasBoundary;
      var head := TailAppend(a, b);
      SplitAppend(Tail(a), b);
      BlocksJoin([head], Split(Tail(a)).blocks, Split(Split(Tail(a)).rest + b).blocks);
    } else {
      assert Split(a) == Framed([], a);
    }
  }

  function Flat(chunks: seq<string>): string {
    if chunks == [] then "" else chunks[0] + Flat(chunks[1..])
  }

  /** Everything a connection emits, and what it still holds at the end. */
  function Feed(buf: string, chunks: seq<string>): Framed
    decreases |chunks|
  {
    if chunks == [] then Framed([], buf)
    else
      var now := Split(buf + chunks[0]);
      var later := Feed(now.rest, chunks[1..]);
      Framed(now.blocks + later.blocks, later.rest)
  }

  lemma {:induction false} RestHasNoBoundary(s: string)
    ensures !HasBoundary(Split(s).rest)
    decreases |s|
  {
    if HasBoundary(s) {
      SeparatorOccurs(s);
      RestHasNoBoundary(s[Index(s, Separator(s), 0) + |Separator(s)|..]);
    }
  }

  lemma NothingToSplit(s: string)
    requires !HasBoundary(s)
    ensures Split(s) == Framed([], s)
  {
  }

  /** However the stream is cut into chunks, the same blocks come out and the
      same remainder is kept. */
  lemma {:induction false} ChunksDoNotMatter(buf: string, chunks: seq<string>)
    requires !HasBoundary(buf)
    ensures Feed(buf, chunks) == Split(buf + Flat(chunks))
    decreases |chunks|
  {
    hide Split, HasBoundary;
    if chunks == [] {
      assert buf + Flat(chunks) == buf;
      NothingToSplit(buf);
    } else {
      var now := Split(buf + chunks[0]);
      RestHasNoBoundary(buf + chunks[0]);
      ChunksDoNotMatter(now.rest, chunks[1..]);
      SplitAppend(buf + chunks[0], Flat(chunks[1..]));
      assert buf + Flat(chunks) == buf + chunks[0] + Flat(chunks[1..]);
    }
  }

  /** The text again, from blocks, the boundaries after them, and the rest. */
  function Glue(blocks: seq<string>, seps: seq<string>, rest: string): string
    requires |blocks| == |seps|
    decreases |blocks|
  {
    if blocks == [] then rest else blocks[0] + seps[0] + Glue(blocks[1..], seps[1..], rest)
  }

  lemma HeadIsWhole(s: string)
    requires HasBoundary(s)
    ensures !HasBoundary(s[..Index(s, Separator(s), 0)])
  {
    var at := Index(s, Separator(s), 0);
    SeparatorOccurs(s);
    var head, tail := s[..at], s[at..];
    assert s == head + tail;
    if HasBoundary(head) {
      var first := Index(head, Separator(head), 0);
      SeparatorOccurs(head);
      FirstCut(head, tail);
    }
  }

  /** Nothing is lost and nothing is cut short: the blocks with their boundaries
      and the rest are the stream, and no block has a boundary inside. */
  lemma {:induction false} SplitIsAPartition(s: string) returns (seps: seq<string>)
    ensures |seps| == |Split(s).blocks| && forall x | x in seps :: x == LFLF || x == CRLFCRLF
    ensures Glue(Split(s).blocks, seps, Split(s).rest) == s
    ensures !HasBoundary(Split(s).rest) && forall x | x in Split(s).blocks :: !HasBoundary(x)
    decreases |s|
  {
    if !HasBoundary(s) { return []; }
    var sep := Separator(s);
    var at := Index(s, sep, 0);
    SplitOnce(s);
    HeadIsWhole(s);
    SeparatorOccurs(s);
    hide Index, HasBoundary, Split, Separator, Glue;
    var tail := s[at + |sep|..];
    var more := SplitIsAPartition(tail);
    seps := [sep] + more;
    GlueOne(s[..at], sep, Split(tail).blocks, more, Split(tail).rest);
    CutInThree(s, at, sep);
  }

  lemma GlueOne(block: string, sep: string, blocks: seq<string>, seps: seq<string>, rest: string)
    requires |blocks| == |seps|
    ensures Glue([block] + blocks, [sep] + seps, rest) == block + sep + Glue(blocks, seps, rest)
  {
    assert ([block] + blocks)[1..] == blocks && ([sep] + seps)[1..] == seps;
  }

  lemma CutInThree(s: string, at: nat, sep: string)
    requires At(s, sep, at)
    ensures s == s[..at] + sep + s[at + |sep|..]
  {
    assert s[at..at + |sep|] == sep;
  }
}
