/** The thread messages of a day's picks: one block of text per pick, packed into bodies of limited length. Texts are
    sequences of runes. */
module PickMessages {

  const SLACK_MAX_RUNES := 3500

  const SEPARATOR := "\n\n"

  /** Runes of the widest heading the packing allows for, one with two three-digit ranks. */
  const HEADING_OVERHEAD := 12

  datatype Chunk = Chunk(startRank: nat, endRank: nat, blocks: seq<string>)

  const DIGITS := "0123456789"

  function Decimal(n: nat): string {
    if n < 10 then [DIGITS[n]] else Decimal(n / 10) + [DIGITS[n % 10]]
  }

  function Heading(startRank: nat, endRank: nat): string {
    "*" + Decimal(startRank) + "〜" + Decimal(endRank) + "位*\n\n"
  }

  function Join(blocks: seq<string>): string {
    if |blocks| == 0 then ""
    else if |blocks| == 1 then blocks[0]
    else Join(blocks[..|blocks| - 1]) + SEPARATOR + blocks[|blocks| - 1]
  }

  /** The length the packing reckons with for some blocks under one heading. */
  function Size(blocks: seq<string>): nat {
    HEADING_OVERHEAD + |Join(blocks)|
  }

  /** The chunk holds the blocks from rank `from` + 1 to its end rank, at least one of them. */
  ghost predicate Holds(chunk: Chunk, blocks: seq<string>, from: nat, n: nat)
    requires n <= |blocks|
  {
    chunk.startRank == from + 1 && from < chunk.endRank <= n && chunk.blocks == blocks[from..chunk.endRank]
  }

  /** How many blocks lie in the first c chunks. */
  function EndOf(chunks: seq<Chunk>, c: nat): nat
    requires c <= |chunks|
  {
    if c == 0 then 0 else chunks[c - 1].endRank
  }

  /** The chunks cover the first n blocks, in order, none empty and none split; their ranks tile 1..n. */
  ghost predicate Tiles(blocks: seq<string>, chunks: seq<Chunk>, n: nat) {
    && n <= |blocks| && EndOf(chunks, |chunks|) == n
    && (forall c | 0 <= c < |chunks| :: Holds(chunks[c], blocks, EndOf(chunks, c), n))
  }

  /** A chunk holds one block, or fits; and the block after it would not have fitted. */
  ghost predicate PackedFully(blocks: seq<string>, chunk: Chunk, maxRunes: int) {
    && (|chunk.blocks| == 1 || Size(chunk.blocks) <= maxRunes)
    && (chunk.endRank < |blocks| ==> Size(chunk.blocks + [blocks[chunk.endRank]]) > maxRunes)
  }

  method ChunkDailyStockPickBlocks(blocks: seq<string>, maxRunes: int) returns (chunks: seq<Chunk>)
    ensures Tiles(blocks, chunks, |blocks|)
    ensures forall c | c in chunks :: PackedFully(blocks, c, maxRunes)
  {
    chunks := [];
    var start := 0;
    while start < |blocks|
      invariant 0 <= start <= |blocks| && Tiles(blocks, chunks, start)
      invariant forall c | c in chunks :: PackedFully(blocks, c, maxRunes)
    {
      var end := FillChunk(blocks, maxRunes, start);
      var chunk := Chunk(start + 1, end, blocks[start..end]);
      AddChunk(blocks, chunks, start, chunk);
      chunks := chunks + [chunk];
      start := end;
    }
  }

  lemma {:induction false} AddChunk(blocks: seq<string>, chunks: seq<Chunk>, n: nat, chunk: Chunk)
    requires Tiles(blocks, chunks, n) && n < chunk.endRank <= |blocks|
    requires chunk == Chunk(n + 1, chunk.endRank, blocks[n..chunk.endRank])
    ensures Tiles(blocks, chunks + [chunk], chunk.endRank)
  {
    hide EndOf, Holds;
    var longer := chunks + [chunk];
    EndOfNext(longer, |chunks|);
    EndOfSame(chunks, longer, |chunks|);
    forall c | 0 <= c < |longer| ensures Holds(longer[c], blocks, EndOf(longer, c), chunk.endRank) {
      if c < |chunks| {
        EndOfSame(chunks, longer, c);
        assert Holds(chunks[c], blocks, EndOf(chunks, c), n);
        HoldsIn(chunks[c], blocks, EndOf(chunks, c), n, chunk.endRank);
      } else {
        HoldsItself(chunk, blocks, n);
      }
    }
  }

  lemma {:induction false} HoldsItself(chunk: Chunk, blocks: seq<string>, from: nat)
    requires from < chunk.endRank <= |blocks| && chunk == Chunk(from + 1, chunk.endRank, blocks[from..chunk.endRank])
    ensures Holds(chunk, blocks, from, chunk.endRank)
  {
  }

  lemma {:induction false} EndOfSame(chunks: seq<Chunk>, others: seq<Chunk>, c: nat)
    requires c <= |chunks| && c <= |others| && forall d | 0 <= d < c :: chunks[d] == others[d]
    ensures EndOf(chunks, c) == EndOf(others, c)
  {
  }

  lemma {:induction false} EndOfNext(chunks: seq<Chunk>, c: nat)
    requires c < |chunks|
    ensures EndOf(chunks, c + 1) == chunks[c].endRank && EndOf(chunks, 0) == 0
  {
  }

  /** Takes blocks from `start` while they fit, and always at least one. */
  method FillChunk(blocks: seq<string>, maxRunes: int, start: nat) returns (end: nat)
    requires start < |blocks|
    ensures start < end <= |blocks|
    ensures PackedFully(blocks, Chunk(start + 1, end, blocks[start..end]), maxRunes)
  {
    var size := HEADING_OVERHEAD;
    end := start;
    hide Join;
    assert blocks[start..start] == [] && Size([]) == HEADING_OVERHEAD by {
      EmptyJoin();
    }
    while end < |blocks|
      invariant start <= end <= |blocks| && size == Size(blocks[start..end])
      invariant end > start + 1 ==> size <= maxRunes
    {
      var blockLen := |blocks[end]|;
      var sep := if end > start then |SEPARATOR| else 0;
      SizeStep(blocks, start, end);
      if end > start && size + sep + blockLen > maxRunes {
        break;
      }
      size := size + sep + blockLen;
      end := end + 1;
    }
    assert end > start;
    if end < |blocks| {
      assert blocks[start..end] + [blocks[end]] == blocks[start..end + 1];
      SizeStep(blocks, start, end);
    }
  }

  lemma {:induction false} EmptyJoin()
    ensures Join([]) == ""
  {
  }

  lemma {:induction false} SizeStep(blocks: seq<string>, start: nat, end: nat)
    requires start <= end < |blocks|
    ensures Size(blocks[start..end + 1])
         == Size(blocks[start..end]) + (if end > start then |SEPARATOR| else 0) + |blocks[end]|
  {
    var longer := blocks[start..end + 1];
    assert longer[..|longer| - 1] == blocks[start..end];
  }

  // ----- Packing

  function Blocks(chunks: seq<Chunk>): seq<string> {
    if chunks == [] then [] else Blocks(chunks[..|chunks| - 1]) + chunks[|chunks| - 1].blocks
  }

  /** Put end to end the chunks give back the blocks. */
  lemma {:induction false} ChunksConcatenate(blocks: seq<string>, chunks: seq<Chunk>, n: nat)
    requires Tiles(blocks, chunks, n)
    ensures Blocks(chunks) == blocks[..n]
    decreases |chunks|
  {
    hide EndOf;
    EndOfSame([], chunks, 0);
    if chunks != [] {
      var c := |chunks| - 1;
      EndOfNext(chunks, c);
      var before := EndOf(chunks, c);
      assert Holds(chunks[c], blocks, before, n);
      DropChunk(blocks, chunks, n);
      ChunksConcatenate(blocks, chunks[..c], before);
      hide Tiles, Holds;
      assert blocks[..before] + blocks[before..n] == blocks[..n];
    } else {
      assert EndOf(chunks, 0) == 0 by {
        NoEnd(chunks);
      }
    }
  }

  lemma {:induction false} NoEnd(chunks: seq<Chunk>)
    ensures EndOf(chunks, 0) == 0
  {
  }

  lemma {:induction false} DropChunk(blocks: seq<string>, chunks: seq<Chunk>, n: nat)
    requires Tiles(blocks, chunks, n) && chunks != []
    ensures Tiles(blocks, chunks[..|chunks| - 1], EndOf(chunks, |chunks| - 1))
  {
    hide EndOf, Holds;
    var k := |chunks| - 1;
    var fewer, before := chunks[..k], EndOf(chunks, k);
    EndOfSame(chunks, fewer, k);
    EndsIncrease(blocks, chunks, n, k, k);
    forall d | 0 <= d < k ensures Holds(fewer[d], blocks, EndOf(fewer, d), before) {
      EndOfSame(chunks, fewer, d);
      EndsIncrease(blocks, chunks, n, d + 1, k);
      EndOfNext(chunks, d);
      assert Holds(chunks[d], blocks, EndOf(chunks, d), n);
      HoldsIn(chunks[d], blocks, EndOf(chunks, d), n, before);
    }
  }

  lemma {:induction false} HoldsIn(chunk: Chunk, blocks: seq<string>, from: nat, n: nat, m: nat)
    requires n <= |blocks| && m <= |blocks| && Holds(chunk, blocks, from, n) && (n <= m || chunk.endRank <= m)
    ensures Holds(chunk, blocks, from, m)
  {
  }

  lemma {:induction false} EndsIncrease(blocks: seq<string>, chunks: seq<Chunk>, n: nat, c: nat, d: nat)
    requires Tiles(blocks, chunks, n) && c <= d <= |chunks|
    ensures EndOf(chunks, c) <= EndOf(chunks, d) <= n
    ensures c < d ==> EndOf(chunks, c) < EndOf(chunks, d)
    decreases d
  {
    hide EndOf;
    if d == 0 {
      NoEnd(chunks);
    } else {
      EndOfNext(chunks, d - 1);
      assert Holds(chunks[d - 1], blocks, EndOf(chunks, d - 1), n);
      if c < d {
        EndsIncrease(blocks, chunks, n, c, d - 1);
      }
    }
  }

  lemma {:induction false} SizeOfPrefix(blocks: seq<string>, from: nat, mid: nat, end: nat)
    requires from <= mid <= end <= |blocks|
    ensures Size(blocks[from..mid]) <= Size(blocks[from..end])
    decreases end
  {
    hide Size;
    if mid < end {
      SizeOfPrefix(blocks, from, mid, end - 1);
      SizeStep(blocks, from, end - 1);
    }
  }

  lemma {:induction false} SizeOfSuffix(blocks: seq<string>, from: nat, mid: nat, end: nat)
    requires from <= mid <= end <= |blocks|
    ensures Size(blocks[mid..end]) <= Size(blocks[from..end])
    decreases end
  {
    if mid < end {
      hide Size;
      SizeOfSuffix(blocks, from, mid, end - 1);
      SizeStep(blocks, from, end - 1);
      SizeStep(blocks, mid, end - 1);
    } else {
      assert blocks[mid..end] == [];
    }
  }

  /** After the same number of chunks the greedy packing is at least as far as any other whose chunks fit. */
  lemma {:induction false} GreedyStaysAhead(blocks: seq<string>, chunks: seq<Chunk>, other: seq<Chunk>, maxRunes: int,
                                            c: nat)
    requires Tiles(blocks, chunks, |blocks|) && (forall x | x in chunks :: PackedFully(blocks, x, maxRunes))
    requires Tiles(blocks, other, |blocks|) && (forall x | x in other :: Size(x.blocks) <= maxRunes)
    requires c <= |chunks| && c <= |other|
    ensures EndOf(chunks, c) >= EndOf(other, c)
  {
    hide Size, PackedFully, EndOf;
    if c == 0 {
      NoEnd(chunks);
      NoEnd(other);
    } else {
      GreedyStaysAhead(blocks, chunks, other, maxRunes, c - 1);
      EndOfNext(chunks, c - 1);
      EndOfNext(other, c - 1);
      var mine, yours := chunks[c - 1], other[c - 1];
      assert Holds(mine, blocks, EndOf(chunks, c - 1), |blocks|) && Holds(yours, blocks, EndOf(other, c - 1), |blocks|);
      if mine.endRank < yours.endRank {
        assert mine in chunks && yours in other;
        CannotTakeMore(blocks, mine, EndOf(chunks, c - 1), yours, EndOf(other, c - 1), maxRunes);
      }
    }
  }

  lemma {:induction false} CannotTakeMore(blocks: seq<string>, mine: Chunk, from: nat, yours: Chunk, earlier: nat,
                                          maxRunes: int)
    requires Holds(mine, blocks, from, |blocks|) && PackedFully(blocks, mine, maxRunes) && earlier <= from
    requires Holds(yours, blocks, earlier, |blocks|) && Size(yours.blocks) <= maxRunes
    ensures mine.endRank >= yours.endRank
  {
    hide Size;
    if mine.endRank < yours.endRank {
      assert mine.blocks + [blocks[mine.endRank]] == blocks[from..mine.endRank + 1];
      SizeOfSuffix(blocks, earlier, from, mine.endRank + 1);
      SizeOfPrefix(blocks, earlier, mine.endRank + 1, yours.endRank);
    }
  }

  /** No in-order packing whose chunks all fit uses fewer chunks than the greedy one. */
  lemma {:induction false} FewestChunks(blocks: seq<string>, chunks: seq<Chunk>, other: seq<Chunk>, maxRunes: int)
    requires Tiles(blocks, chunks, |blocks|) && (forall x | x in chunks :: PackedFully(blocks, x, maxRunes))
    requires Tiles(blocks, other, |blocks|) && (forall x | x in other :: Size(x.blocks) <= maxRunes)
    ensures |chunks| <= |other|
  {
    hide PackedFully, Size, EndOf, Holds;
    if |other| < |chunks| {
      EndsIncrease(blocks, chunks, |blocks|, |other|, |chunks|);
      GreedyStaysAhead(blocks, chunks, other, maxRunes, |other|);
    }
  }

  // ----- Bodies

  function ChunkBody(chunk: Chunk): string {
    Heading(chunk.startRank, chunk.endRank) + Join(chunk.blocks)
  }

  function ChunkBodies(chunks: seq<Chunk>): (bodies: seq<string>)
    ensures |bodies| == |chunks|
  {
    seq(|chunks|, i requires 0 <= i < |chunks| => ChunkBody(chunks[i]))
  }

  /** Does the legend join the last chunk's body? */
  predicate LegendJoins(chunks: seq<Chunk>, legend: string, maxRunes: int)
    requires |chunks| > 0
  {
    |ChunkBody(chunks[|chunks| - 1])| + |legend| <= maxRunes
  }

  function Bodies(chunks: seq<Chunk>, legend: string, maxRunes: int): seq<string> {
    if chunks == [] then []
    else
      var bodies, n := ChunkBodies(chunks), |chunks| - 1;
      if LegendJoins(chunks, legend, maxRunes) then bodies[..n] + [bodies[n] + SEPARATOR + legend]
      else bodies + [legend]
  }

  /** Title and thread bodies of the picks, ranks counted from 1; both empty exactly when there are no picks. The
      wording of the title, a pick's block and the legend is left to the caller. */
  method FormatDailyStockPickMessages<P>(picks: seq<P>, titleOf: seq<P> -> string, blockOf: (nat, P) -> string,
                                         legend: string, maxRunes: int)
    returns (title: string, bodies: seq<string>, ghost chunks: seq<Chunk>)
    ensures picks == [] ==> title == "" && bodies == []
    ensures picks != [] ==> title == titleOf(picks)
    ensures var blocks := PickBlocks(picks, blockOf);
            Tiles(blocks, chunks, |picks|) && forall c | c in chunks :: PackedFully(blocks, c, maxRunes)
    ensures bodies == Bodies(chunks, legend, maxRunes)
  {
    var blocks := PickBlocks(picks, blockOf);
    if |picks| == 0 {
      return "", [], [];
    }
    title := titleOf(picks);
    var packed := ChunkDailyStockPickBlocks(blocks, maxRunes);
    chunks := packed;
    bodies := [];
    hide *;
    SomeChunk(blocks, packed);
    var i := 0;
    while i < |packed|
      invariant 0 <= i <= |packed|
      invariant i < |packed| ==> bodies == ChunkBodies(packed)[..i]
      invariant i == |packed| ==> bodies == Bodies(packed, legend, maxRunes)
    {
      BodiesStep(packed, legend, maxRunes, i);
      bodies := bodies + [ChunkBody(packed[i])];
      if i == |packed| - 1 {
        var last := bodies[i];
        if |last| + |legend| <= maxRunes {
          bodies := bodies[i := last + SEPARATOR + legend];
        } else {
          bodies := bodies + [legend];
        }
      }
      i := i + 1;
    }
  }

  lemma {:induction false} BodiesStep(chunks: seq<Chunk>, legend: string, maxRunes: int, i: nat)
    requires i < |chunks|
    ensures ChunkBodies(chunks)[..i] + [ChunkBody(chunks[i])] == ChunkBodies(chunks)[..i + 1]
    ensures i == |chunks| - 1 ==> ChunkBodies(chunks)[..i + 1] == ChunkBodies(chunks) && |ChunkBodies(chunks)| == i + 1
    ensures i == |chunks| - 1 ==>
      var bodies, last := ChunkBodies(chunks), ChunkBody(chunks[i]);
      && bodies[i] == last
      && Bodies(chunks, legend, maxRunes)
         == if |last| + |legend| <= maxRunes then bodies[i := last + SEPARATOR + legend] else bodies + [legend]
  {
    hide ChunkBody;
    var bodies := ChunkBodies(chunks);
    if i == |chunks| - 1 {
      assert bodies[i := bodies[i] + SEPARATOR + legend] == bodies[..i] + [bodies[i] + SEPARATOR + legend];
    }
  }

  function PickBlocks<P>(picks: seq<P>, blockOf: (nat, P) -> string): (blocks: seq<string>)
    ensures |blocks| == |picks|
  {
    seq(|picks|, i requires 0 <= i < |picks| => blockOf(i + 1, picks[i]))
  }

  lemma {:induction false} SomeChunk(blocks: seq<string>, chunks: seq<Chunk>)
    requires Tiles(blocks, chunks, |blocks|) && |blocks| > 0
    ensures |chunks| > 0
  {
  }

  // ----- Length of the bodies

  lemma {:induction false} RankWidth(n: nat)
    requires n <= 999
    ensures |Decimal(n)| <= if n < 10 then 1 else if n < 100 then 2 else 3
  {
    if n >= 10 {
      RankWidth(n / 10);
    }
  }

  lemma {:induction false} HeadingWidth(startRank: nat, endRank: nat)
    requires startRank <= 999 && endRank <= 999
    ensures |Heading(startRank, endRank)| <= HEADING_OVERHEAD
  {
    RankWidth(startRank);
    RankWidth(endRank);
  }

  /** With ranks of at most three digits and blocks that fit alone, every chunk's own body keeps the limit. */
  lemma {:induction false} ChunkBodyWithin(blocks: seq<string>, chunks: seq<Chunk>, maxRunes: int, c: nat)
    requires Tiles(blocks, chunks, |blocks|) && |blocks| <= 999 && c < |chunks|
    requires forall x | x in chunks :: PackedFully(blocks, x, maxRunes)
    requires forall b | b in blocks :: Size([b]) <= maxRunes
    ensures |ChunkBody(chunks[c])| <= maxRunes
  {
    hide ChunkBody, EndOf, Holds, PackedFully, Size;
    assert chunks[c] in chunks && Holds(chunks[c], blocks, EndOf(chunks, c), |blocks|);
    OneBodyWithin(blocks, chunks[c], EndOf(chunks, c), maxRunes);
  }

  lemma {:induction false} OneBodyWithin(blocks: seq<string>, chunk: Chunk, from: nat, maxRunes: int)
    requires |blocks| <= 999 && Holds(chunk, blocks, from, |blocks|) && PackedFully(blocks, chunk, maxRunes)
    requires forall b | b in blocks :: Size([b]) <= maxRunes
    ensures |ChunkBody(chunk)| <= maxRunes
  {
    hide Heading, Join;
    HeadingWidth(chunk.startRank, chunk.endRank);
    assert |chunk.blocks| == 1 ==> chunk.blocks == [blocks[from]];
  }

  /** The bodies keep the limit exactly when every chunk's own body does and so does what becomes of the legend: the
      test that joins it to the last body leaves the separator out. */
  lemma {:induction false} BodiesWithinIff(chunks: seq<Chunk>, legend: string, maxRunes: int)
    requires chunks != []
    ensures var joins, last := LegendJoins(chunks, legend, maxRunes), |ChunkBody(chunks[|chunks| - 1])|;
      (forall b | b in Bodies(chunks, legend, maxRunes) :: |b| <= maxRunes) <==>
        && (forall c | c in chunks :: |ChunkBody(c)| <= maxRunes)
        && (if joins then last + |SEPARATOR| + |legend| else |legend|) <= maxRunes
  {
    var bodies, n := Bodies(chunks, legend, maxRunes), |chunks| - 1;
    BodiesAre(chunks, legend, maxRunes);
    hide ChunkBody, Bodies;
    assert bodies[|bodies| - 1] in bodies;
    if forall b | b in bodies :: |b| <= maxRunes {
      forall c | c in chunks ensures |ChunkBody(c)| <= maxRunes {
        var i :| 0 <= i < |chunks| && chunks[i] == c;
        assert bodies[i] in bodies;
      }
    } else {
      var b :| b in bodies && |b| > maxRunes;
      var i :| 0 <= i < |bodies| && bodies[i] == b;
      assert i <= n ==> chunks[i] in chunks;
    }
  }

  lemma {:induction false} BodiesAre(chunks: seq<Chunk>, legend: string, maxRunes: int)
    requires chunks != []
    ensures var bodies, n := Bodies(chunks, legend, maxRunes), |chunks| - 1;
      && (forall i | 0 <= i < n :: i < |bodies| && bodies[i] == ChunkBody(chunks[i]))
      && (if LegendJoins(chunks, legend, maxRunes)
          then |bodies| == n + 1 && bodies[n] == ChunkBody(chunks[n]) + SEPARATOR + legend
          else |bodies| == n + 2 && bodies[n] == ChunkBody(chunks[n]) && bodies[n + 1] == legend)
  {
    hide ChunkBody;
  }

  /** With at most 999 picks, blocks that fit alone and a legend within the limit, the limit fails exactly when the
      legend's test passes with less than a separator's length to spare; and then only for the last body, and by no more
      than that separator. */
  lemma {:induction false} DocumentedLimitIff(blocks: seq<string>, chunks: seq<Chunk>, legend: string, maxRunes: int)
    requires Tiles(blocks, chunks, |blocks|) && 1 <= |blocks| <= 999 && |legend| <= maxRunes
    requires forall x | x in chunks :: PackedFully(blocks, x, maxRunes)
    requires forall b | b in blocks :: Size([b]) <= maxRunes
    ensures |chunks| > 0
    ensures var bodies, last := Bodies(chunks, legend, maxRunes), |ChunkBody(chunks[|chunks| - 1])|;
      && (forall i | 0 <= i < |bodies| - 1 :: |bodies[i]| <= maxRunes)
      && |bodies[|bodies| - 1]| <= maxRunes + |SEPARATOR|
      && ((forall b | b in bodies :: |b| <= maxRunes) <==> !(maxRunes - |SEPARATOR| < last + |legend| <= maxRunes))
  {
    hide PackedFully, ChunkBody, Size, Tiles;
    SomeChunk(blocks, chunks);
    forall c | 0 <= c < |chunks| ensures |ChunkBody(chunks[c])| <= maxRunes {
      ChunkBodyWithin(blocks, chunks, maxRunes, c);
    }
    BodiesWithinIff(chunks, legend, maxRunes);
  }

  /** The documented limit does fail. Take any picks that fit into one body together with a legend of four runes or
      more, and let the last pick's text be longer by the runes still free: the body is two runes too long. */
  lemma {:induction false} LimitExceeded(blocks: seq<string>, legend: string, maxRunes: int, filler: char)
    returns (longer: seq<string>, chunks: seq<Chunk>)
    requires blocks != [] && |legend| >= 4
    requires |Heading(1, |blocks|)| + |Join(blocks)| + |legend| <= maxRunes
    ensures |longer| == |blocks| && longer[..|blocks| - 1] == blocks[..|blocks| - 1]
    ensures blocks[|blocks| - 1] <= longer[|blocks| - 1] && forall b | b in longer :: Size([b]) <= maxRunes
    ensures Tiles(longer, chunks, |longer|) && forall x | x in chunks :: PackedFully(longer, x, maxRunes)
    ensures var bodies := Bodies(chunks, legend, maxRunes); |bodies| == 1 && |bodies[0]| == maxRunes + |SEPARATOR|
  {
    var n := |blocks|;
    var free := maxRunes - |Heading(1, n)| - |Join(blocks)| - |legend|;
    longer := blocks[n - 1 := blocks[n - 1] + seq(free, _ => filler)];
    chunks := [Chunk(1, n, longer)];
    SizeStep(blocks, 0, n - 1);
    SizeStep(longer, 0, n - 1);
    assert blocks[0..n] == blocks && longer[0..n] == longer && blocks[0..n - 1] == longer[0..n - 1];
    assert |Join(longer)| == |Join(blocks)| + free;
    assert |Heading(1, n)| >= 8;
    forall b | b in longer ensures Size([b]) <= maxRunes {
      var i :| 0 <= i < n && longer[i] == b;
      SizeOfPrefix(longer, i, i + 1, n);
      SizeOfSuffix(longer, 0, i, n);
      assert longer[i..i + 1] == [b];
    }
    HoldsItself(chunks[0], longer, 0);
  }
}
