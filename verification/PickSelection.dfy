/** Selection of the daily picks: rank by score, then take greedily under a cap per sector. */
module PickSelection {
  import opened Decimals

  datatype Candidate = Candidate(brandId: string, ticker: string, name: string, sector: string, score: real)

  datatype DailyPick = DailyPick(pickDate: int, candidate: Candidate, rank: nat)

  // ----- The ranking order

  /** Lexicographic order of ticker symbols. */
  predicate Less(a: string, b: string) {
    |b| > 0 && (|a| == 0 || a[0] < b[0] || (a[0] == b[0] && Less(a[1..], b[1..])))
  }

  lemma {:induction false} LessTotal(a: string, b: string)
    ensures a == b || Less(a, b) || Less(b, a)
  {
    if |a| > 0 && |b| > 0 && a[0] == b[0] {
      LessTotal(a[1..], b[1..]);
      assert a == [a[0]] + a[1..] && b == [b[0]] + b[1..];
    }
  }

  lemma {:induction false} LessTransitive(a: string, b: string, c: string)
    requires Less(a, b) && Less(b, c)
    ensures Less(a, c)
  {
    if |a| > 0 && a[0] == b[0] == c[0] {
      LessTransitive(a[1..], b[1..], c[1..]);
    }
  }

  lemma {:induction false} LessIrreflexive(a: string)
    ensures !Less(a, a)
  {
    if |a| > 0 {
      LessIrreflexive(a[1..]);
    }
  }

  /** Higher score first; on a tie the smaller ticker symbol. */
  predicate Before(a: Candidate, b: Candidate) {
    a.score > b.score || (a.score == b.score && Less(a.ticker, b.ticker))
  }

  ghost predicate DistinctTickers(cs: seq<Candidate>) {
    forall i, j | 0 <= i < j < |cs| :: cs[i].ticker != cs[j].ticker
  }

  ghost predicate InOrder(cs: seq<Candidate>) {
    forall i, j | 0 <= i < j < |cs| :: Before(cs[i], cs[j])
  }

  lemma {:induction false} BeforeIsOrder(a: Candidate, b: Candidate, c: Candidate)
    ensures a.ticker != b.ticker ==> Before(a, b) || Before(b, a)
    ensures !(Before(a, b) && Before(b, a))
    ensures Before(a, b) && Before(b, c) ==> Before(a, c)
  {
    LessTotal(a.ticker, b.ticker);
    if Less(a.ticker, b.ticker) && Less(b.ticker, a.ticker) {
      LessTransitive(a.ticker, b.ticker, a.ticker);
      LessIrreflexive(a.ticker);
    }
    if Less(a.ticker, b.ticker) && Less(b.ticker, c.ticker) {
      LessTransitive(a.ticker, b.ticker, c.ticker);
    }
  }

  function Insert(c: Candidate, cs: seq<Candidate>): seq<Candidate> {
    if cs == [] || Before(c, cs[0]) then [c] + cs else [cs[0]] + Insert(c, cs[1..])
  }

  /** The candidates in ranking order. */
  function Ranked(cs: seq<Candidate>): seq<Candidate> {
    if cs == [] then [] else Insert(cs[0], Ranked(cs[1..]))
  }

  lemma {:induction false} InsertPermutes(c: Candidate, cs: seq<Candidate>)
    ensures multiset(Insert(c, cs)) == multiset(cs) + multiset{c}
  {
    hide Before;
    if !(cs == [] || Before(c, cs[0])) {
      InsertPermutes(c, cs[1..]);
      assert cs == [cs[0]] + cs[1..];
    }
  }

  lemma {:induction false} InsertKeepsOrder(c: Candidate, cs: seq<Candidate>)
    requires InOrder(cs) && forall d | d in cs :: d.ticker != c.ticker
    ensures InOrder(Insert(c, cs))
  {
    hide Before;
    var out := Insert(c, cs);
    if cs == [] {
    } else if Before(c, cs[0]) {
      forall j | 0 < j < |out| ensures Before(c, out[j]) {
        if j > 1 {
          BeforeIsOrder(c, cs[0], out[j]);
        }
      }
    } else {
      InsertKeepsOrder(c, cs[1..]);
      InsertPermutes(c, cs[1..]);
      BeforeIsOrder(c, cs[0], c);
      forall j | 0 < j < |out| ensures Before(cs[0], out[j]) {
        assert out[j] in multiset(Insert(c, cs[1..]));
      }
    }
  }

  lemma {:induction false} RankedPermutes(cs: seq<Candidate>)
    ensures multiset(Ranked(cs)) == multiset(cs) && |Ranked(cs)| == |cs|
    ensures forall c :: c in Ranked(cs) <==> c in cs
  {
    if cs != [] {
      RankedPermutes(cs[1..]);
      InsertPermutes(cs[0], Ranked(cs[1..]));
      assert cs == [cs[0]] + cs[1..];
    }
    SamePermutation(Ranked(cs), cs);
  }

  lemma {:induction false} SamePermutation(a: seq<Candidate>, b: seq<Candidate>)
    requires multiset(a) == multiset(b)
    ensures |a| == |b| && forall c :: c in a <==> c in b
  {
    assert |multiset(a)| == |a| && |multiset(b)| == |b|;
    forall c ensures c in a <==> c in b {
      assert c in a <==> c in multiset(a);
      assert c in b <==> c in multiset(b);
    }
  }

  lemma {:induction false} RankedInOrder(cs: seq<Candidate>)
    requires DistinctTickers(cs)
    ensures InOrder(Ranked(cs))
  {
    hide Before;
    if cs != [] {
      RankedInOrder(cs[1..]);
      RankedPermutes(cs[1..]);
      InsertKeepsOrder(cs[0], Ranked(cs[1..]));
    }
  }

  /** Sorting has one possible outcome, whatever the algorithm and whatever order the candidates arrive in. */
  lemma {:induction false} OrderUnique(a: seq<Candidate>, b: seq<Candidate>)
    requires InOrder(a) && InOrder(b) && multiset(a) == multiset(b)
    ensures a == b
  {
    hide Before;
    SamePermutation(a, b);
    if a != [] {
      SameFirst(a, b);
      SplitFirst(a);
      SplitFirst(b);
      OrderUnique(a[1..], b[1..]);
    }
  }

  lemma {:induction false} SplitFirst(a: seq<Candidate>)
    requires |a| > 0
    ensures a == [a[0]] + a[1..] && multiset(a[1..]) == multiset(a) - multiset{a[0]}
  {
    assert a == [a[0]] + a[1..];
  }

  lemma {:induction false} SameFirst(a: seq<Candidate>, b: seq<Candidate>)
    requires InOrder(a) && InOrder(b) && |a| > 0 && |b| > 0 && a[0] in b && b[0] in a
    ensures a[0] == b[0]
  {
    hide Before;
    if a[0] != b[0] {
      BeforeIsOrder(a[0], b[0], a[0]);
    }
  }

  // ----- Greedy selection

  function SectorCount(cs: seq<Candidate>, sector: string): nat {
    if cs == [] then 0
    else SectorCount(cs[..|cs| - 1], sector) + if cs[|cs| - 1].sector == sector then 1 else 0
  }

  predicate SectorFull(picked: seq<Candidate>, sector: string, maxPerSector: int) {
    maxPerSector > 0 && sector != "" && SectorCount(picked, sector) >= maxPerSector
  }

  /** The picks among the first k ranked candidates. */
  function Greedy(ranked: seq<Candidate>, topN: nat, maxPerSector: int, k: nat): (picked: seq<Candidate>)
    requires k <= |ranked|
    ensures |picked| <= topN && |picked| <= k
    ensures forall c | c in picked :: c in ranked[..k]
  {
    if k == 0 then []
    else
      var before := Greedy(ranked, topN, maxPerSector, k - 1);
      var c := ranked[k - 1];
      assert ranked[..k] == ranked[..k - 1] + [c];
      if |before| >= topN || SectorFull(before, c.sector, maxPerSector) then before else before + [c]
  }

  function Picks(cs: seq<Candidate>, topN: nat, maxPerSector: int): seq<Candidate> {
    Greedy(Ranked(cs), topN, maxPerSector, |Ranked(cs)|)
  }

  method RankDailyPickCandidates(cs: seq<Candidate>, pickDate: int, topN: nat, maxPerSector: int)
    returns (picks: seq<DailyPick>)
    ensures |picks| == |Picks(cs, topN, maxPerSector)|
    ensures forall i | 0 <= i < |picks| :: picks[i] == DailyPick(pickDate, Picks(cs, topN, maxPerSector)[i], i + 1)
  {
    hide Greedy, Ranked, CountsOf, RankedPicks;
    var sorted := Ranked(cs);
    var sectorCount: map<string, int> := map[];
    picks := [];
    ghost var picked: seq<Candidate> := [];
    var k := 0;
    NothingPicked(sorted, topN, maxPerSector, pickDate);
    while k < |sorted|
      invariant 0 <= k <= |sorted|
      invariant picked == Greedy(sorted, topN, maxPerSector, k)
      invariant |picks| == |picked| && RankedPicks(picks, picked, pickDate) && CountsOf(sectorCount, picked)
    {
      if |picks| >= topN {
        FullStaysFull(sorted, topN, maxPerSector, k, |sorted|);
        break;
      }
      var c := sorted[k];
      var sector := c.sector;
      var count := if sector in sectorCount then sectorCount[sector] else 0;
      GreedyStep(sorted, topN, maxPerSector, k);
      CountOfSector(sectorCount, picked, sector);
      k := k + 1;
      if maxPerSector > 0 && sector != "" && count >= maxPerSector {
        continue;
      }
      PicksAppend(picks, sectorCount, picked, c, pickDate);
      picks := picks + [DailyPick(pickDate, c, |picks| + 1)];
      picked := picked + [c];
      if sector != "" {
        sectorCount := sectorCount[sector := count + 1];
      }
    }
    RankedPicksAre(picks, picked, pickDate);
  }

  ghost predicate CountsOf(sectorCount: map<string, int>, picked: seq<Candidate>) {
    forall s | s != "" :: SectorCount(picked, s) == if s in sectorCount then sectorCount[s] else 0
  }

  ghost predicate RankedPicks(picks: seq<DailyPick>, picked: seq<Candidate>, pickDate: int)
    requires |picks| == |picked|
  {
    forall i | 0 <= i < |picks| :: picks[i] == DailyPick(pickDate, picked[i], i + 1)
  }

  lemma {:induction false} NothingPicked(ranked: seq<Candidate>, topN: nat, maxPerSector: int, pickDate: int)
    ensures Greedy(ranked, topN, maxPerSector, 0) == [] && CountsOf(map[], []) && RankedPicks([], [], pickDate)
  {
  }

  lemma {:induction false} CountOfSector(sectorCount: map<string, int>, picked: seq<Candidate>, s: string)
    requires CountsOf(sectorCount, picked)
    ensures s != "" ==> SectorCount(picked, s) == if s in sectorCount then sectorCount[s] else 0
  {
  }

  lemma {:induction false} RankedPicksAre(picks: seq<DailyPick>, picked: seq<Candidate>, pickDate: int)
    requires |picks| == |picked| && RankedPicks(picks, picked, pickDate)
    ensures forall i | 0 <= i < |picks| :: picks[i] == DailyPick(pickDate, picked[i], i + 1)
  {
  }

  lemma {:induction false} PicksAppend(picks: seq<DailyPick>, sectorCount: map<string, int>, picked: seq<Candidate>,
                                       c: Candidate, pickDate: int)
    requires |picks| == |picked| && RankedPicks(picks, picked, pickDate) && CountsOf(sectorCount, picked)
    ensures RankedPicks(picks + [DailyPick(pickDate, c, |picks| + 1)], picked + [c], pickDate)
    ensures var count := if c.sector in sectorCount then sectorCount[c.sector] else 0;
            CountsOf(if c.sector != "" then sectorCount[c.sector := count + 1] else sectorCount, picked + [c])
  {
    assert (picked + [c])[..|picked|] == picked;
    forall s | s != ""
      ensures SectorCount(picked + [c], s) == SectorCount(picked, s) + if c.sector == s then 1 else 0
    {
    }
  }

  lemma {:induction false} GreedyStep(ranked: seq<Candidate>, topN: nat, maxPerSector: int, k: nat)
    requires k < |ranked| && |Greedy(ranked, topN, maxPerSector, k)| < topN
    ensures var before := Greedy(ranked, topN, maxPerSector, k);
            Greedy(ranked, topN, maxPerSector, k + 1)
            == if SectorFull(before, ranked[k].sector, maxPerSector) then before else before + [ranked[k]]
  {
  }

  lemma {:induction false} FullStaysFull(ranked: seq<Candidate>, topN: nat, maxPerSector: int, i: nat, j: nat)
    requires i <= j <= |ranked| && |Greedy(ranked, topN, maxPerSector, i)| >= topN
    ensures Greedy(ranked, topN, maxPerSector, j) == Greedy(ranked, topN, maxPerSector, i)
    decreases j
  {
    if i < j {
      FullStaysFull(ranked, topN, maxPerSector, i, j - 1);
    }
  }

  lemma {:induction false} GreedyGrows(ranked: seq<Candidate>, topN: nat, maxPerSector: int, i: nat, j: nat)
    requires i <= j <= |ranked|
    ensures Greedy(ranked, topN, maxPerSector, i) <= Greedy(ranked, topN, maxPerSector, j)
    decreases j
  {
    hide SectorFull;
    if i < j {
      GreedyGrows(ranked, topN, maxPerSector, i, j - 1);
    }
  }

  // ----- Optimality

  function InSector(cs: set<Candidate>, sector: string): set<Candidate> {
    set c | c in cs && c.sector == sector
  }

  ghost predicate WithinCaps(cs: set<Candidate>, maxPerSector: int) {
    maxPerSector > 0 ==> forall s | s != "" :: |InSector(cs, s)| <= maxPerSector
  }

  function AsSet(cs: seq<Candidate>): set<Candidate> {
    set c | c in cs
  }

  ghost predicate NoDuplicates(cs: seq<Candidate>) {
    forall i, j | 0 <= i < j < |cs| :: cs[i] != cs[j]
  }

  lemma {:induction false} SetSize(cs: seq<Candidate>)
    requires NoDuplicates(cs)
    ensures |AsSet(cs)| == |cs|
    decreases |cs|
  {
    if cs != [] {
      var last := cs[|cs| - 1];
      SetSize(cs[..|cs| - 1]);
      assert cs == cs[..|cs| - 1] + [last];
      assert AsSet(cs) == AsSet(cs[..|cs| - 1]) + {last};
    }
  }

  lemma {:induction false} SectorCountIsSize(cs: seq<Candidate>, sector: string)
    requires NoDuplicates(cs)
    ensures |InSector(AsSet(cs), sector)| == SectorCount(cs, sector)
    decreases |cs|
  {
    if cs != [] {
      var init, last := cs[..|cs| - 1], cs[|cs| - 1];
      SectorCountIsSize(init, sector);
      LastIsNew(cs);
      hide NoDuplicates, AsSet;
      InSectorPlus(AsSet(init), last, sector);
    } else {
      assert InSector(AsSet(cs), sector) == {};
    }
  }

  lemma {:induction false} LastIsNew(cs: seq<Candidate>)
    requires NoDuplicates(cs) && cs != []
    ensures AsSet(cs) == AsSet(cs[..|cs| - 1]) + {cs[|cs| - 1]} && cs[|cs| - 1] !in AsSet(cs[..|cs| - 1])
  {
    assert cs == cs[..|cs| - 1] + [cs[|cs| - 1]];
  }

  lemma {:induction false} InSectorPlus(cs: set<Candidate>, c: Candidate, sector: string)
    requires c !in cs
    ensures |InSector(cs + {c}, sector)| == |InSector(cs, sector)| + if c.sector == sector then 1 else 0
  {
    assert InSector(cs + {c}, sector) == InSector(cs, sector) + if c.sector == sector then {c} else {};
  }

  lemma {:induction false} GreedyDistinct(ranked: seq<Candidate>, topN: nat, maxPerSector: int, k: nat)
    requires k <= |ranked| && NoDuplicates(ranked)
    ensures NoDuplicates(Greedy(ranked, topN, maxPerSector, k))
  {
    hide SectorFull;
    if k > 0 {
      GreedyDistinct(ranked, topN, maxPerSector, k - 1);
      var before := Greedy(ranked, topN, maxPerSector, k - 1);
      forall i | 0 <= i < |before| ensures before[i] != ranked[k - 1] {
        assert before[i] in ranked[..k - 1];
      }
    }
  }

  /** The picks keep the cap of every sector. */
  lemma {:induction false} GreedyWithinCaps(ranked: seq<Candidate>, topN: nat, maxPerSector: int, k: nat,
                                            sector: string)
    requires k <= |ranked| && maxPerSector > 0 && sector != ""
    ensures SectorCount(Greedy(ranked, topN, maxPerSector, k), sector) <= maxPerSector
  {
    if k > 0 {
      GreedyWithinCaps(ranked, topN, maxPerSector, k - 1, sector);
      var before := Greedy(ranked, topN, maxPerSector, k - 1);
      assert (before + [ranked[k - 1]])[..|before|] == before;
    }
  }

  /** Among the first k ranked candidates no selection within the caps is larger than the greedy one, unless the
      greedy one is already complete. A candidate passed over is exchanged for the sector's picks. */
  lemma {:induction false} GreedyIsLargest(ranked: seq<Candidate>, topN: nat, maxPerSector: int, k: nat,
                                           other: set<Candidate>)
    requires k <= |ranked| && NoDuplicates(ranked)
    requires other <= AsSet(ranked[..k]) && WithinCaps(other, maxPerSector)
    requires |Greedy(ranked, topN, maxPerSector, k)| < topN
    ensures |other| <= |Greedy(ranked, topN, maxPerSector, k)|
    decreases k, 1
  {
    if k == 0 {
      assert other == {};
    } else {
      var before := Greedy(ranked, topN, maxPerSector, k - 1);
      var c := ranked[k - 1];
      assert ranked[..k] == ranked[..k - 1] + [c];
      if !SectorFull(before, c.sector, maxPerSector) {
        SubsetWithinCaps(other - {c}, other, maxPerSector);
        GreedyIsLargest(ranked, topN, maxPerSector, k - 1, other - {c});
      } else if c !in other {
        GreedyIsLargest(ranked, topN, maxPerSector, k - 1, other);
      } else {
        Exchange(ranked, topN, maxPerSector, k, other);
      }
    }
  }

  lemma {:induction false} SubsetWithinCaps(part: set<Candidate>, whole: set<Candidate>, maxPerSector: int)
    requires part <= whole && WithinCaps(whole, maxPerSector)
    ensures WithinCaps(part, maxPerSector)
  {
    forall s | s != "" ensures maxPerSector > 0 ==> |InSector(part, s)| <= maxPerSector {
      SubsetSize(InSector(part, s), InSector(whole, s));
    }
  }

  lemma {:induction false} SubsetSize(part: set<Candidate>, whole: set<Candidate>)
    requires part <= whole
    ensures |part| <= |whole|
  {
    assert whole == part + (whole - part);
  }

  lemma {:induction false} Exchange(ranked: seq<Candidate>, topN: nat, maxPerSector: int, k: nat, other: set<Candidate>)
    requires 0 < k <= |ranked| && NoDuplicates(ranked)
    requires other <= AsSet(ranked[..k]) && WithinCaps(other, maxPerSector)
    requires |Greedy(ranked, topN, maxPerSector, k - 1)| < topN
    requires SectorFull(Greedy(ranked, topN, maxPerSector, k - 1), ranked[k - 1].sector, maxPerSector)
    ensures |other| <= |Greedy(ranked, topN, maxPerSector, k - 1)|
    decreases k, 0
  {
    hide *;
    var picked, c := AsSet(Greedy(ranked, topN, maxPerSector, k - 1)), ranked[k - 1];
    SectorPicksSize(ranked, topN, maxPerSector, k - 1, c.sector);
    SetsUpTo(ranked, topN, maxPerSector, k);
    SwapFits(other, picked, AsSet(ranked[..k - 1]), c, maxPerSector);
    GreedyIsLargest(ranked, topN, maxPerSector, k - 1, Swapped(other, picked, c.sector));
  }

  lemma {:induction false} SetsUpTo(ranked: seq<Candidate>, topN: nat, maxPerSector: int, k: nat)
    requires 0 < k <= |ranked|
    ensures AsSet(ranked[..k]) == AsSet(ranked[..k - 1]) + {ranked[k - 1]}
    ensures AsSet(Greedy(ranked, topN, maxPerSector, k - 1)) <= AsSet(ranked[..k - 1])
  {
    hide Greedy;
    assert ranked[..k] == ranked[..k - 1] + [ranked[k - 1]];
  }

  lemma {:induction false} SwapFits(other: set<Candidate>, picked: set<Candidate>, earlier: set<Candidate>,
                                    c: Candidate, maxPerSector: int)
    requires other <= earlier + {c} && picked <= earlier && WithinCaps(other, maxPerSector)
    requires maxPerSector > 0 && c.sector != "" && |InSector(picked, c.sector)| == maxPerSector
    ensures Swapped(other, picked, c.sector) <= earlier && WithinCaps(Swapped(other, picked, c.sector), maxPerSector)
    ensures |other| <= |Swapped(other, picked, c.sector)|
  {
    SectorSizeWithinCap(other, c.sector, maxPerSector);
    SwapStays(other, picked, earlier, c);
    SwapKeepsCaps(other, picked, c.sector, maxPerSector);
    SwapSize(other, picked, c.sector);
  }

  /** A sector the greedy selection calls full holds exactly the cap. */
  lemma {:induction false} SectorPicksSize(ranked: seq<Candidate>, topN: nat, maxPerSector: int, k: nat, sector: string)
    requires k <= |ranked| && NoDuplicates(ranked)
    requires SectorFull(Greedy(ranked, topN, maxPerSector, k), sector, maxPerSector)
    ensures maxPerSector > 0 && sector != ""
    ensures |InSector(AsSet(Greedy(ranked, topN, maxPerSector, k)), sector)| == maxPerSector
  {
    hide Greedy;
    GreedyDistinct(ranked, topN, maxPerSector, k);
    SectorCountIsSize(Greedy(ranked, topN, maxPerSector, k), sector);
    GreedyWithinCaps(ranked, topN, maxPerSector, k, sector);
  }

  lemma {:induction false} SwapStays(other: set<Candidate>, picked: set<Candidate>, earlier: set<Candidate>,
                                     c: Candidate)
    requires other <= earlier + {c} && picked <= earlier
    ensures Swapped(other, picked, c.sector) <= earlier
  {
  }

  lemma {:induction false} SectorSizeWithinCap(cs: set<Candidate>, sector: string, maxPerSector: int)
    requires WithinCaps(cs, maxPerSector) && maxPerSector > 0 && sector != ""
    ensures |InSector(cs, sector)| <= maxPerSector
  {
  }

  /** One selection with its members of a sector replaced by those of another selection. */
  function Swapped(other: set<Candidate>, picked: set<Candidate>, sector: string): set<Candidate> {
    (other - InSector(other, sector)) + InSector(picked, sector)
  }

  lemma {:induction false} SwapKeepsCaps(other: set<Candidate>, picked: set<Candidate>, sector: string,
                                         maxPerSector: int)
    requires WithinCaps(other, maxPerSector) && |InSector(picked, sector)| <= maxPerSector
    ensures WithinCaps(Swapped(other, picked, sector), maxPerSector)
  {
    var swapped := Swapped(other, picked, sector);
    forall s | s != "" ensures maxPerSector > 0 ==> |InSector(swapped, s)| <= maxPerSector {
      if s == sector {
        assert InSector(swapped, s) == InSector(picked, sector);
      } else {
        assert InSector(swapped, s) == InSector(other, s);
      }
    }
  }

  lemma {:induction false} SwapSize(other: set<Candidate>, picked: set<Candidate>, sector: string)
    ensures |Swapped(other, picked, sector)| == |other| - |InSector(other, sector)| + |InSector(picked, sector)|
  {
    var rest := other - InSector(other, sector);
    assert other == rest + InSector(other, sector);
    assert rest !! InSector(picked, sector);
  }

  function ScoreSum(cs: seq<Candidate>): real {
    if cs == [] then 0.0 else cs[0].score + ScoreSum(cs[1..])
  }

  lemma {:induction false} InsertKeepsSum(c: Candidate, cs: seq<Candidate>)
    ensures ScoreSum(Insert(c, cs)) == c.score + ScoreSum(cs)
  {
    hide Before;
    if !(cs == [] || Before(c, cs[0])) {
      InsertKeepsSum(c, cs[1..]);
    }
  }

  lemma {:induction false} RankedKeepsSum(cs: seq<Candidate>)
    ensures ScoreSum(Ranked(cs)) == ScoreSum(cs)
  {
    if cs != [] {
      RankedKeepsSum(cs[1..]);
      InsertKeepsSum(cs[0], Ranked(cs[1..]));
    }
  }

  /** An alternative selection: different candidates, no more than topN, no more than the cap in any named sector. */
  ghost predicate Feasible(cs: seq<Candidate>, alt: seq<Candidate>, topN: nat, maxPerSector: int) {
    && DistinctTickers(alt) && (forall c | c in alt :: c in cs)
    && |alt| <= topN && WithinCaps(AsSet(alt), maxPerSector)
  }

  lemma {:induction false} DistinctCandidates(cs: seq<Candidate>)
    requires InOrder(cs)
    ensures NoDuplicates(cs)
  {
    forall i, j | 0 <= i < j < |cs| ensures cs[i] != cs[j] {
      BeforeIsOrder(cs[i], cs[j], cs[i]);
    }
  }

  /** The k-th pick scores at least the k-th best of any feasible selection. */
  lemma {:induction false} KthPickBest(cs: seq<Candidate>, alt: seq<Candidate>, topN: nat, maxPerSector: int, k: nat)
    requires DistinctTickers(cs) && Feasible(cs, alt, topN, maxPerSector) && k < |alt|
    ensures |Ranked(alt)| == |alt| && k < |Picks(cs, topN, maxPerSector)|
    ensures Picks(cs, topN, maxPerSector)[k].score >= Ranked(alt)[k].score
  {
    var ranked, best := Ranked(cs), Ranked(alt);
    RankedInOrder(cs);
    RankedPermutes(cs);
    RankedInOrder(alt);
    RankedPermutes(alt);
    hide *;
    KthAtLeast(ranked, best, alt, topN, maxPerSector, k);
  }

  lemma {:induction false} KthAtLeast(ranked: seq<Candidate>, best: seq<Candidate>, alt: seq<Candidate>,
                                      topN: nat, maxPerSector: int, k: nat)
    requires InOrder(ranked) && InOrder(best) && k < |best|
    requires |best| == |alt| <= topN && WithinCaps(AsSet(alt), maxPerSector)
    requires forall c | c in best :: c in ranked && c in alt
    ensures var picks := Greedy(ranked, topN, maxPerSector, |ranked|);
      k < |picks| && picks[k].score >= best[k].score
  {
    hide *;
    var p := PositionOf(ranked, best[k]);
    PicksReach(ranked, best, alt, topN, maxPerSector, k, p);
    GreedyGrows(ranked, topN, maxPerSector, p + 1, |ranked|);
    PicksAmong(ranked, topN, maxPerSector, p + 1, k);
    NoWorse(ranked, p, Greedy(ranked, topN, maxPerSector, p + 1)[k]);
  }

  lemma {:induction false} PositionOf(cs: seq<Candidate>, c: Candidate) returns (p: nat)
    requires c in cs
    ensures p < |cs| && cs[p] == c
  {
    p :| 0 <= p < |cs| && cs[p] == c;
  }

  lemma {:induction false} PicksAmong(ranked: seq<Candidate>, topN: nat, maxPerSector: int, n: nat, k: nat)
    requires n <= |ranked| && k < |Greedy(ranked, topN, maxPerSector, n)|
    ensures Greedy(ranked, topN, maxPerSector, n)[k] in ranked[..n]
  {
    hide Greedy;
  }

  /** By the time the ranking reaches the k-th of the alternative, more than k candidates have been taken. */
  lemma {:induction false} PicksReach(ranked: seq<Candidate>, best: seq<Candidate>, alt: seq<Candidate>,
                                      topN: nat, maxPerSector: int, k: nat, p: nat)
    requires InOrder(ranked) && InOrder(best) && k < |best| && p < |ranked| && ranked[p] == best[k]
    requires |best| == |alt| <= topN && WithinCaps(AsSet(alt), maxPerSector)
    requires forall c | c in best :: c in ranked && c in alt
    ensures k < |Greedy(ranked, topN, maxPerSector, p + 1)|
  {
    hide Before, Greedy, WithinCaps;
    TopOfAlternative(ranked, best, k, p);
    var top := AsSet(best[..k + 1]);
    assert top <= AsSet(alt);
    SubsetWithinCaps(top, AsSet(alt), maxPerSector);
    DistinctCandidates(ranked);
    DistinctCandidates(best);
    hide InOrder;
    SetSize(best[..k + 1]);
    if |Greedy(ranked, topN, maxPerSector, p + 1)| < topN {
      GreedyIsLargest(ranked, topN, maxPerSector, p + 1, top);
    }
  }

  lemma {:induction false} TopOfAlternative(ranked: seq<Candidate>, best: seq<Candidate>, k: nat, p: nat)
    requires InOrder(ranked) && InOrder(best) && k < |best| && p < |ranked| && ranked[p] == best[k]
    requires forall c | c in best :: c in ranked
    ensures AsSet(best[..k + 1]) <= AsSet(ranked[..p + 1])
  {
    hide Before;
    forall i | 0 <= i <= k ensures best[i] in ranked[..p + 1] {
      assert best[i] in ranked;
      var q :| 0 <= q < |ranked| && ranked[q] == best[i];
      BeforeIsOrder(best[i], best[k], best[i]);
      assert ranked[..p + 1][if q <= p then q else p] == ranked[if q <= p then q else p];
    }
  }

  lemma {:induction false} NoWorse(ranked: seq<Candidate>, p: nat, c: Candidate)
    requires InOrder(ranked) && p < |ranked| && c in ranked[..p + 1]
    ensures c.score >= ranked[p].score
  {
    var q :| 0 <= q <= p && ranked[..p + 1][q] == c;
    assert q < p ==> Before(ranked[q], ranked[p]);
  }

  lemma {:induction false} PairwiseSum(a: seq<Candidate>, b: seq<Candidate>)
    requires |a| <= |b| && (forall i | 0 <= i < |a| :: a[i].score <= b[i].score)
    requires forall c | c in b :: c.score >= 0.0
    ensures ScoreSum(a) <= ScoreSum(b)
    decreases |b|
  {
    if a != [] {
      PairwiseSum(a[1..], b[1..]);
    } else if b != [] {
      PairwiseSum(a, b[1..]);
    }
  }

  /** No feasible selection has a higher total score than the greedy picks, or more members. */
  lemma {:induction false} GreedyOptimal(cs: seq<Candidate>, alt: seq<Candidate>, topN: nat, maxPerSector: int)
    requires DistinctTickers(cs) && (forall c | c in cs :: c.score >= 0.0)
    requires Feasible(cs, alt, topN, maxPerSector)
    ensures |alt| <= |Picks(cs, topN, maxPerSector)|
    ensures ScoreSum(alt) <= ScoreSum(Picks(cs, topN, maxPerSector))
  {
    var best, picks := Ranked(alt), Picks(cs, topN, maxPerSector);
    RankedPermutes(alt);
    RankedKeepsSum(alt);
    RankedPermutes(cs);
    PicksAreCandidates(cs, topN, maxPerSector);
    hide Picks, Ranked, Feasible;
    forall k | 0 <= k < |best| ensures k < |picks| && best[k].score <= picks[k].score {
      KthPickBest(cs, alt, topN, maxPerSector, k);
    }
    if best != [] {
      KthPickBest(cs, alt, topN, maxPerSector, |best| - 1);
    }
    PairwiseSum(best, picks);
  }

  lemma {:induction false} PicksAreCandidates(cs: seq<Candidate>, topN: nat, maxPerSector: int)
    ensures forall c | c in Picks(cs, topN, maxPerSector) :: c in cs
  {
    RankedPermutes(cs);
    assert Ranked(cs)[..|Ranked(cs)|] == Ranked(cs);
  }

  /** The picks are themselves a feasible selection, listed in ranking order. */
  lemma {:induction false} PicksFeasible(cs: seq<Candidate>, topN: nat, maxPerSector: int)
    requires DistinctTickers(cs)
    ensures Feasible(cs, Picks(cs, topN, maxPerSector), topN, maxPerSector)
    ensures InOrder(Picks(cs, topN, maxPerSector))
  {
    var ranked := Ranked(cs);
    RankedInOrder(cs);
    RankedPermutes(cs);
    DistinctCandidates(ranked);
    var picks := Greedy(ranked, topN, maxPerSector, |ranked|);
    GreedyInOrder(ranked, topN, maxPerSector, |ranked|);
    GreedyDistinct(ranked, topN, maxPerSector, |ranked|);
    assert ranked[..|ranked|] == ranked;
    forall i, j | 0 <= i < j < |picks| ensures picks[i].ticker != picks[j].ticker {
      assert picks[i] in ranked && picks[j] in ranked && picks[i] in cs && picks[j] in cs;
      assert picks[i] != picks[j];
    }
    forall s | s != "" ensures maxPerSector > 0 ==> |InSector(AsSet(picks), s)| <= maxPerSector {
      SectorCountIsSize(picks, s);
      if maxPerSector > 0 {
        GreedyWithinCaps(ranked, topN, maxPerSector, |ranked|, s);
      }
    }
  }

  /** One ticker symbol precedes another in character order. */
  ghost predicate Precedes(a: string, b: string) {
    exists k: nat :: DiffersAt(a, b, k)
  }

  /** The symbols agree before k, where the first ends or has the smaller character. */
  ghost predicate DiffersAt(a: string, b: string, k: nat) {
    && k <= |a| && k < |b| && a[..k] == b[..k] && (k == |a| || a[k] < b[k])
  }

  lemma {:induction false} LessPrecedes(a: string, b: string)
    requires Less(a, b)
    ensures Precedes(a, b)
  {
    if |a| == 0 || a[0] < b[0] {
      assert DiffersAt(a, b, 0);
    } else {
      LessPrecedes(a[1..], b[1..]);
      var k: nat :| DiffersAt(a[1..], b[1..], k);
      assert a[..k + 1] == [a[0]] + a[1..][..k] && b[..k + 1] == [b[0]] + b[1..][..k];
      assert DiffersAt(a, b, k + 1);
    }
  }

  /** Over scores and symbols: a pick scores at least as high as any later one, and on a tie has the earlier symbol. */
  lemma {:induction false} PicksOverScores(cs: seq<Candidate>, topN: nat, maxPerSector: int, i: nat, j: nat)
    requires DistinctTickers(cs) && i < j < |Picks(cs, topN, maxPerSector)|
    ensures var a, b := Picks(cs, topN, maxPerSector)[i], Picks(cs, topN, maxPerSector)[j];
      && a in cs && b in cs && a.score >= b.score && (a.score == b.score ==> Precedes(a.ticker, b.ticker))
  {
    PicksFeasible(cs, topN, maxPerSector);
    hide Picks, Precedes;
    var a, b := Picks(cs, topN, maxPerSector)[i], Picks(cs, topN, maxPerSector)[j];
    assert Before(a, b);
    if a.score == b.score {
      LessPrecedes(a.ticker, b.ticker);
    }
  }

  /** Without a cap the picks are simply the first of the ranking. */
  lemma {:induction false} UncappedTakesTop(ranked: seq<Candidate>, topN: nat, maxPerSector: int, k: nat)
    requires k <= |ranked| && maxPerSector <= 0
    ensures Greedy(ranked, topN, maxPerSector, k) == ranked[..if k < topN then k else topN]
  {
    if k > 0 {
      UncappedTakesTop(ranked, topN, maxPerSector, k - 1);
    }
  }

  lemma {:induction false} GreedyInOrder(ranked: seq<Candidate>, topN: nat, maxPerSector: int, k: nat)
    requires k <= |ranked| && InOrder(ranked)
    ensures InOrder(Greedy(ranked, topN, maxPerSector, k))
  {
    hide Before, SectorFull;
    if k > 0 {
      GreedyInOrder(ranked, topN, maxPerSector, k - 1);
      var before := Greedy(ranked, topN, maxPerSector, k - 1);
      forall i | 0 <= i < |before| ensures Before(before[i], ranked[k - 1]) {
        assert before[i] in ranked[..k - 1];
      }
    }
  }

  /** The picks do not depend on the order in which the candidates were collected. */
  lemma {:induction false} PicksIgnoreOrder(a: seq<Candidate>, b: seq<Candidate>, topN: nat, maxPerSector: int)
    requires DistinctTickers(a) && multiset(a) == multiset(b)
    ensures Picks(a, topN, maxPerSector) == Picks(b, topN, maxPerSector)
  {
    DistinctIsPermutationInvariant(a, b);
    RankedInOrder(a);
    RankedPermutes(a);
    RankedInOrder(b);
    RankedPermutes(b);
    OrderUnique(Ranked(a), Ranked(b));
  }

  lemma {:induction false} DistinctIsPermutationInvariant(a: seq<Candidate>, b: seq<Candidate>)
    requires DistinctTickers(a) && multiset(a) == multiset(b)
    ensures DistinctTickers(b)
  {
    SamePermutation(a, b);
    forall i, j | 0 <= i < j < |b| ensures b[i].ticker != b[j].ticker {
      assert b[i] in a && b[j] in a;
      if b[i] == b[j] {
        TwiceIn(b, i, j);
        assert multiset(a)[b[i]] >= 2;
        OnceIn(a, b[i]);
      }
    }
  }

  lemma {:induction false} TwiceIn(b: seq<Candidate>, i: nat, j: nat)
    requires i < j < |b| && b[i] == b[j]
    ensures multiset(b)[b[i]] >= 2
  {
    assert b == b[..j] + b[j..];
    assert b[..j][i] in multiset(b[..j]) && b[j..][0] in multiset(b[j..]);
  }

  lemma {:induction false} OnceIn(a: seq<Candidate>, c: Candidate)
    requires DistinctTickers(a)
    ensures multiset(a)[c] <= 1
    decreases |a|
  {
    if a != [] {
      OnceIn(a[1..], c);
      assert a == [a[0]] + a[1..];
      assert c in multiset(a[1..]) ==> c in a[1..];
    }
  }
}
