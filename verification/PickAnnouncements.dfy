/** What the reader of the chat finds: every pick's text, in order, and the legend after them. */
module PickAnnouncements {
  import opened Decimals
  import opened PickSelection
  import opened PickMessages
  import opened PickNotification

  // ----- Texts

  /** The number a string of digits stands for. */
  function Value(s: string): int {
    if s == [] then 0 else 10 * Value(s[..|s| - 1]) + (s[|s| - 1] as int - '0' as int)
  }

  /** The ranks in a heading can be read back. */
  lemma {:induction false} DecimalReadsBack(n: nat)
    ensures Value(Decimal(n)) == n && |Decimal(n)| >= 1
    ensures forall c | c in Decimal(n) :: '0' <= c <= '9'
  {
    DigitIs(n % 10);
    if n >= 10 {
      DecimalReadsBack(n / 10);
      var s := Decimal(n / 10) + [DIGITS[n % 10]];
      assert s[..|s| - 1] == Decimal(n / 10);
    } else {
      assert Decimal(n)[..0] == [];
    }
  }

  lemma {:induction false} DigitIs(d: nat)
    requires d < 10
    ensures DIGITS[d] as int == '0' as int + d && '0' <= DIGITS[d] <= '9'
  {
  }

  /** Blocks joined in two parts are joined as a whole. */
  lemma {:induction false} JoinParts(a: seq<string>, b: seq<string>)
    requires a != [] && b != []
    ensures Join(a + b) == Join(a) + SEPARATOR + Join(b)
    decreases |b|
  {
    var n := |b| - 1;
    assert (a + b)[..|a| + n] == a + b[..n];
    if n == 0 {
      assert a + b[..0] == a;
    } else {
      JoinParts(a, b[..n]);
    }
  }

  ghost predicate Frames(text: string, before: string, part: string, after: string) {
    text == before + part + after
  }

  ghost predicate Contains(text: string, part: string) {
    exists before, after :: Frames(text, before, part, after)
  }

  lemma {:induction false} ContainsWithin(before: string, text: string, after: string, part: string)
    requires Contains(text, part)
    ensures Contains(before + text + after, part)
  {
    var b, a :| Frames(text, b, part, a);
    assert before + text + after == (before + b) + part + (a + after);
    assert Frames(before + text + after, before + b, part, a + after);
  }

  lemma {:induction false} ContainsItself(text: string)
    ensures Contains(text, text)
  {
    assert Frames(text, [], text, []);
  }

  lemma {:induction false} JoinContains(blocks: seq<string>, i: nat)
    requires i < |blocks|
    ensures Contains(Join(blocks), blocks[i])
    decreases |blocks|
  {
    hide Contains;
    var n := |blocks| - 1;
    ContainsItself(blocks[i]);
    if n > 0 {
      var rest := Join(blocks[..n]) + SEPARATOR;
      assert Join(blocks) == rest + blocks[n] + [];
      if i < n {
        JoinContains(blocks[..n], i);
        ContainsWithin([], Join(blocks[..n]), SEPARATOR + blocks[n], blocks[i]);
        assert Join(blocks) == [] + Join(blocks[..n]) + (SEPARATOR + blocks[n]);
      } else {
        ContainsWithin(rest, blocks[n], [], blocks[i]);
      }
    }
  }

  /** The chunk that holds a block. */
  lemma {:induction false} ChunkOf(blocks: seq<string>, chunks: seq<Chunk>, n: nat, i: nat) returns (c: nat)
    requires Tiles(blocks, chunks, n) && i < n
    ensures c < |chunks| && EndOf(chunks, c) <= i < chunks[c].endRank <= |blocks|
    ensures chunks[c].blocks == blocks[EndOf(chunks, c)..chunks[c].endRank]
    ensures i - EndOf(chunks, c) < |chunks[c].blocks| && chunks[c].blocks[i - EndOf(chunks, c)] == blocks[i]
    decreases |chunks|
  {
    hide EndOf;
    NoEnd(chunks);
    c := |chunks| - 1;
    EndOfNext(chunks, c);
    assert Holds(chunks[c], blocks, EndOf(chunks, c), n);
    if i < EndOf(chunks, c) {
      DropChunk(blocks, chunks, n);
      var fewer := chunks[..c];
      var k := ChunkOf(blocks, fewer, EndOf(chunks, c), i);
      EndOfSame(fewer, chunks, k);
      c := k;
    }
  }

  lemma {:induction false} BodyOfChunk(chunks: seq<Chunk>, legend: string, maxRunes: int, c: nat, part: string)
    requires c < |chunks| && Contains(Join(chunks[c].blocks), part)
    ensures var bodies := Bodies(chunks, legend, maxRunes); c < |bodies| && Contains(bodies[c], part)
  {
    var bodies, own := Bodies(chunks, legend, maxRunes), ChunkBody(chunks[c]);
    var heading, joined := Heading(chunks[c].startRank, chunks[c].endRank), Join(chunks[c].blocks);
    BodiesAre(chunks, legend, maxRunes);
    assert own == heading + joined + [];
    assert own + SEPARATOR + legend == heading + joined + (SEPARATOR + legend);
    hide *;
    ContainsWithin(heading, joined, [], part);
    ContainsWithin(heading, joined, SEPARATOR + legend, part);
    assert bodies[c] == own || bodies[c] == own + SEPARATOR + legend;
  }

  /** Each block is in the body of its chunk, and later blocks are in the same or later bodies. */
  lemma {:induction false} BlockIsIn(blocks: seq<string>, chunks: seq<Chunk>, legend: string, maxRunes: int, i: nat)
    returns (c: nat)
    requires Tiles(blocks, chunks, |blocks|) && i < |blocks|
    ensures c < |chunks| && EndOf(chunks, c) <= i < chunks[c].endRank
    ensures var bodies := Bodies(chunks, legend, maxRunes); c < |bodies| && Contains(bodies[c], blocks[i])
  {
    hide *;
    c := ChunkOf(blocks, chunks, |blocks|, i);
    var from := EndOf(chunks, c);
    JoinContains(chunks[c].blocks, i - from);
    BodyOfChunk(chunks, legend, maxRunes, c, blocks[i]);
  }

  // ----- The picks of a request

  function CandidatesOf(picks: seq<DailyPick>): (cs: seq<Candidate>)
    ensures |cs| == |picks|
  {
    seq(|picks|, i requires 0 <= i < |picks| => picks[i].candidate)
  }

  /** A request without a number of picks gets at most 25, and one with a negative cap at most 4 a sector; a cap of zero
      is none, and takes the best of all. */
  lemma {:induction false} ScreenedWithinLimits(r: Request)
    requires |r.dates| > 0 && DistinctTickers(r.candidates)
    ensures var picks := Screened(r);
      var limit, cap := if r.topN > 0 then r.topN else 25, if r.maxPerSector < 0 then 4 else r.maxPerSector;
      && |picks| <= limit && (forall i | 0 <= i < |picks| :: picks[i].pickDate == r.dates[0] && picks[i].rank == i + 1)
      && (cap > 0 ==> forall s | s != "" :: |InSector(AsSet(CandidatesOf(picks)), s)| <= cap)
      && (cap == 0 ==>
            CandidatesOf(picks)
            == Ranked(r.candidates)[..if |Ranked(r.candidates)| < limit then |Ranked(r.candidates)| else limit])
  {
    var limit, cap := TopN(r.topN), MaxPerSector(r.maxPerSector);
    var picked := Picks(r.candidates, limit, cap);
    assert CandidatesOf(Screened(r)) == picked;
    PicksFeasible(r.candidates, limit, cap);
    if cap == 0 {
      UncappedTakesTop(Ranked(r.candidates), limit, cap, |Ranked(r.candidates)|);
    }
  }

  // ----- Announcements

  /** Messages under one title, the first at position `at` replying to nothing and the others to it. */
  ghost predicate IsThread(thread: seq<Message>, at: nat, title: string) {
    forall i | 0 <= i < |thread| ::
      thread[i].title == title && thread[i].thread == if i == 0 then None else Some(at)
  }

  ghost predicate IsIn(thread: seq<Message>, block: string) {
    exists i | 0 <= i < |thread| :: Contains(thread[i].body, block)
  }

  /** Each block is in the body of one of the messages. */
  ghost predicate BlocksIn(thread: seq<Message>, blocks: seq<string>) {
    forall k | 0 <= k < |blocks| :: IsIn(thread, blocks[k])
  }

  ghost predicate EndsWith(text: string, end: string) {
    |text| >= |end| && text[|text| - |end|..] == end
  }

  /** If picks have been announced, then there is one thread under their title that contains the text of every pick
      and ends with the legend. */
  lemma {:induction false} AnnouncedInFull(w: Wording, sent: seq<Message>, picks: seq<DailyPick>)
    returns (at: nat, thread: seq<Message>)
    requires Announced(w, sent, picks) && picks != []
    ensures at + |thread| <= |sent| && thread == sent[at..at + |thread|] && thread != []
    ensures IsThread(thread, at, w.Title(picks)) && BlocksIn(thread, PickBlocks(picks, w.blockOf))
    ensures EndsWith(thread[|thread| - 1].body, w.legend)
  {
    hide Tiles, PackedFully, Contains, Bodies, Wording.Title, PickBlocks;
    var blocks := PickBlocks(picks, w.blockOf);
    var title, bodies, from: nat :| IsMessageOf(w, picks, title, bodies) && SentAt(sent, title, bodies, from);
    var chunks :| Tiles(blocks, chunks, |picks|) && bodies == Bodies(chunks, w.legend, SLACK_MAX_RUNES);
    at, thread := from, Thread(title, bodies, from);
    SomeChunk(blocks, chunks);
    hide *;
    SentIs(sent, title, bodies, at);
    LegendLast(chunks, w.legend);
    AllBlocksIn(blocks, chunks, w.legend, thread);
  }

  lemma {:induction false} SentIs(sent: seq<Message>, title: string, bodies: seq<string>, at: nat)
    requires SentAt(sent, title, bodies, at)
    ensures var thread := Thread(title, bodies, at);
      && at + |thread| <= |sent| && thread == sent[at..at + |thread|] && IsThread(thread, at, title)
      && |thread| == |bodies| && forall i | 0 <= i < |bodies| :: thread[i].body == bodies[i]
  {
  }

  lemma {:induction false} LegendLast(chunks: seq<Chunk>, legend: string)
    requires chunks != []
    ensures var bodies := Bodies(chunks, legend, SLACK_MAX_RUNES);
      bodies != [] && EndsWith(bodies[|bodies| - 1], legend)
  {
    hide Bodies, LegendJoins, ChunkBody, EndsWith;
    BodiesAre(chunks, legend, SLACK_MAX_RUNES);
    EndOfAppended(ChunkBody(chunks[|chunks| - 1]) + SEPARATOR, legend);
    EndOfAppended([], legend);
    assert [] + legend == legend;
  }

  lemma {:induction false} EndOfAppended(text: string, end: string)
    ensures EndsWith(text + end, end)
  {
    assert (text + end)[|text + end| - |end|..] == end;
  }

  lemma {:induction false} AllBlocksIn(blocks: seq<string>, chunks: seq<Chunk>, legend: string, thread: seq<Message>)
    requires Tiles(blocks, chunks, |blocks|)
    requires var bodies := Bodies(chunks, legend, SLACK_MAX_RUNES);
      |thread| == |bodies| && forall i | 0 <= i < |bodies| :: thread[i].body == bodies[i]
    ensures BlocksIn(thread, blocks)
  {
    hide Tiles, Contains, Bodies;
    forall k | 0 <= k < |blocks| ensures IsIn(thread, blocks[k]) {
      var c := BlockIsIn(blocks, chunks, legend, SLACK_MAX_RUNES, k);
      assert Contains(thread[c].body, blocks[k]);
    }
  }
}
