/** Importing a broker's execution file: number repeated executions, delete the file's days, insert what is new. */
module DaytradeImport {
  import opened Decimals

  /** What identifies an execution, up to its occurrence number. */
  datatype Key = Key(executedOn: int, ticker: string, tradeKind: string, marginKind: string, quantity: nat,
                     tradeAmount: int, unitPrice: real, profitLoss: int)

  datatype Row = Row(key: Key, occurrenceNo: nat, source: string, brandName: string, averageCost: real)

  const SBI := "sbi"

  /** Occurrence numbers are 32 bits wide. */
  const WIDTH := 0x1_0000_0000

  class Execution {
    const key: Key
    const brandName: string
    const averageCost: real
    var occurrenceNo: nat

    constructor (key: Key, brandName: string, averageCost: real)
      ensures this.key == key && this.brandName == brandName && this.averageCost == averageCost
    {
      this.key, this.brandName, this.averageCost, occurrenceNo := key, brandName, averageCost, 0;
    }
  }

  // ----- Occurrence numbers

  function Keys(rows: seq<Execution>): (keys: seq<Key>)
    ensures |keys| == |rows| && forall i | 0 <= i < |rows| :: keys[i] == rows[i].key
  {
    seq(|rows|, i requires 0 <= i < |rows| => rows[i].key)
  }

  /** How often a key occurs among the first n. */
  function Occurrences(keys: seq<Key>, key: Key, n: nat): nat
    requires n <= |keys|
  {
    if n == 0 then 0 else Occurrences(keys, key, n - 1) + if keys[n - 1] == key then 1 else 0
  }

  method AssignOccurrenceNo(rows: seq<Execution>)
    requires forall i, j | 0 <= i < j < |rows| :: rows[i] != rows[j]
    modifies rows
    ensures forall i | 0 <= i < |rows| :: rows[i].occurrenceNo == Occurrences(Keys(rows), rows[i].key, i) % WIDTH
  {
    hide CountsOf, Occurrences;
    var counts: map<Key, nat> := map[];
    ghost var keys := Keys(rows);
    NoCounts(keys);
    var i := 0;
    while i < |rows|
      invariant 0 <= i <= |rows| && CountsOf(counts, keys, i)
      invariant forall j | 0 <= j < i :: rows[j].occurrenceNo == Occurrences(keys, rows[j].key, j) % WIDTH
    {
      var k := rows[i].key;
      CountsNext(counts, keys, i);
      var count := if k in counts then counts[k] else 0;
      rows[i].occurrenceNo := count;
      counts := counts[k := (count + 1) % WIDTH];
      i := i + 1;
    }
  }

  /** The counters hold how often each key occurs among the first n, in 32 bits. */
  ghost predicate CountsOf(counts: map<Key, nat>, keys: seq<Key>, n: nat)
    requires n <= |keys|
  {
    forall k :: (if k in counts then counts[k] else 0) == Occurrences(keys, k, n) % WIDTH
  }

  lemma {:induction false} NoCounts(keys: seq<Key>)
    ensures CountsOf(map[], keys, 0)
  {
  }

  lemma {:induction false} CountsNext(counts: map<Key, nat>, keys: seq<Key>, n: nat)
    requires n < |keys| && CountsOf(counts, keys, n)
    ensures var count := if keys[n] in counts then counts[keys[n]] else 0;
      count == Occurrences(keys, keys[n], n) % WIDTH && CountsOf(counts[keys[n] := (count + 1) % WIDTH], keys, n + 1)
  {
    var k := keys[n];
    var count := if k in counts then counts[k] else 0;
    NextCount(Occurrences(keys, k, n), count);
  }

  lemma {:induction false} NextCount(occurrences: nat, count: nat)
    requires count == occurrences % WIDTH
    ensures (count + 1) % WIDTH == (occurrences + 1) % WIDTH
  {
  }

  lemma {:induction false} OccurrencesGrow(keys: seq<Key>, key: Key, i: nat, j: nat)
    requires i <= j <= |keys|
    ensures Occurrences(keys, key, i) <= Occurrences(keys, key, j) <= Occurrences(keys, key, i) + (j - i)
    ensures i < j && keys[i] == key ==> Occurrences(keys, key, i) < Occurrences(keys, key, j)
    decreases j
  {
    if i < j {
      OccurrencesGrow(keys, key, i, j - 1);
    }
  }

  /** The numbers of a key that occurs c times are 0 .. c-1, in file order; so key and number identify a row. The file
      is at most 10 MB, hence far below WIDTH rows. */
  lemma {:induction false} NumbersAreDense(keys: seq<Key>, key: Key, m: nat) returns (at: nat)
    requires |keys| < WIDTH && m < Occurrences(keys, key, |keys|)
    ensures at < |keys| && keys[at] == key && Occurrences(keys, key, at) % WIDTH == m
    ensures forall i | 0 <= i < |keys| && keys[i] == key && i != at :: Occurrences(keys, key, i) % WIDTH != m
    ensures forall i | 0 <= i < |keys| && keys[i] == key ::
      Occurrences(keys, key, i) % WIDTH < Occurrences(keys, key, |keys|)
    ensures forall i | 0 <= i < at && keys[i] == key :: Occurrences(keys, key, i) % WIDTH < m
  {
    at := FindNumber(keys, key, m, |keys|);
    forall i | 0 <= i < |keys|
      ensures Occurrences(keys, key, i) % WIDTH == Occurrences(keys, key, i)
      ensures i < at && keys[i] == key ==> Occurrences(keys, key, i) < Occurrences(keys, key, at)
      ensures i > at ==> Occurrences(keys, key, i) > Occurrences(keys, key, at)
      ensures keys[i] == key ==> Occurrences(keys, key, i) < Occurrences(keys, key, |keys|)
    {
      OccurrencesGrow(keys, key, 0, i);
      OccurrencesGrow(keys, key, i, |keys|);
      if i < at {
        OccurrencesGrow(keys, key, i, at);
      } else {
        OccurrencesGrow(keys, key, at, i);
      }
    }
  }

  lemma {:induction false} FindNumber(keys: seq<Key>, key: Key, m: nat, n: nat) returns (at: nat)
    requires n <= |keys| && m < Occurrences(keys, key, n)
    ensures at < n && keys[at] == key && Occurrences(keys, key, at) == m
  {
    if m < Occurrences(keys, key, n - 1) {
      at := FindNumber(keys, key, m, n - 1);
    } else {
      at := n - 1;
    }
  }

  // ----- The table

  ghost predicate SameId(a: Row, b: Row) {
    a.key == b.key && a.occurrenceNo == b.occurrenceNo
  }

  /** The unique key of the table; the source is not part of it. */
  ghost predicate UniqueIds(rows: seq<Row>) {
    forall i, j | 0 <= i < j < |rows| :: !SameId(rows[i], rows[j])
  }

  predicate Clashes(table: seq<Row>, row: Row) {
    exists i | 0 <= i < |table| :: table[i].key == row.key && table[i].occurrenceNo == row.occurrenceNo
  }

  /** The rows a deletion by source and dates leaves. */
  function Kept(table: seq<Row>, source: string, dates: set<int>): (kept: seq<Row>)
    ensures |kept| <= |table|
  {
    if table == [] then []
    else
      var n := |table| - 1;
      Kept(table[..n], source, dates)
      + if table[n].source == source && table[n].key.executedOn in dates then [] else [table[n]]
  }

  /** The table after inserting rows one by one, each skipped if its unique key is taken. */
  function Inserted(table: seq<Row>, rows: seq<Row>): seq<Row> {
    if rows == [] then table
    else
      var n := |rows| - 1;
      var before := Inserted(table, rows[..n]);
      if Clashes(before, rows[n]) then before else before + [rows[n]]
  }

  function DatesOf(rows: seq<Row>): set<int> {
    set i | 0 <= i < |rows| :: rows[i].key.executedOn
  }

  /** The table after a file has been imported. */
  function Imported(table: seq<Row>, rows: seq<Row>): seq<Row> {
    Inserted(Kept(table, SBI, DatesOf(rows)), rows)
  }

  datatype ImportResult = ImportResult(inserted: int, skipped: int, deleted: int, totalRow: int)

  class ExecutionTable {
    var table: seq<Row>

    method DeleteBySourceAndDates(source: string, dates: set<int>) returns (deleted: nat)
      modifies this
      ensures table == Kept(old(table), source, dates) && deleted == |old(table)| - |table|
    {
      var kept: seq<Row> := [];
      var i := 0;
      while i < |table|
        invariant 0 <= i <= |table| && kept == Kept(table[..i], source, dates) && table == old(table)
      {
        assert table[..i + 1][..i] == table[..i];
        if !(table[i].source == source && table[i].key.executedOn in dates) {
          kept := kept + [table[i]];
        }
        i := i + 1;
      }
      assert table[..i] == table;
      deleted := |table| - |kept|;
      table := kept;
    }

    method BulkInsertIgnore(rows: seq<Row>) returns (inserted: nat)
      modifies this
      ensures table == Inserted(old(table), rows) && inserted == |table| - |old(table)|
    {
      inserted := 0;
      var i := 0;
      while i < |rows|
        invariant 0 <= i <= |rows| && table == Inserted(old(table), rows[..i]) && inserted == |table| - |old(table)|
      {
        assert rows[..i + 1][..i] == rows[..i];
        if !Clashes(table, rows[i]) {
          table := table + [rows[i]];
          inserted := inserted + 1;
        }
        i := i + 1;
      }
      assert rows[..i] == rows;
    }

    /** Imports the parsed executions in one transaction, which a failing step undoes. None is an error. */
    method ImportSBICsv(executions: seq<Execution>, deleteFails: bool, insertFails: bool)
      returns (result: Option<ImportResult>, ghost rows: seq<Row>)
      requires forall i, j | 0 <= i < j < |executions| :: executions[i] != executions[j]
      modifies this, executions
      ensures Numbered(rows, Keys(executions))
      ensures result.None? <==> executions != [] && (deleteFails || insertFails)
      ensures result.None? ==> table == old(table)
      ensures result.Some? && executions == [] ==> table == old(table) && result.value == ImportResult(0, 0, 0, 0)
      ensures result.Some? && executions != [] ==> table == Imported(old(table), rows) && result.value == ImportResult(
        |table| - |Kept(old(table), SBI, DatesOf(rows))|,
        |rows| - (|table| - |Kept(old(table), SBI, DatesOf(rows))|),
        |old(table)| - |Kept(old(table), SBI, DatesOf(rows))|,
        |rows|)
    {
      AssignOccurrenceNo(executions);
      var parsed := RowsOf(executions);
      rows := parsed;
      if |executions| == 0 {
        return Some(ImportResult(0, 0, 0, 0)), rows;
      }
      hide Kept, Inserted;
      var before := table;
      if deleteFails {
        return None, rows;
      }
      var deleted := DeleteBySourceAndDates(SBI, DatesOf(parsed));
      if insertFails {
        table := before;
        return None, rows;
      }
      var inserted := BulkInsertIgnore(parsed);
      result := Some(ImportResult(inserted, |parsed| - inserted, deleted, |parsed|));
    }
  }

  function RowsOf(executions: seq<Execution>): (rows: seq<Row>)
    reads executions
    ensures |rows| == |executions|
  {
    seq(|executions|, i requires 0 <= i < |executions| reads executions =>
      var e := executions[i]; Row(e.key, e.occurrenceNo, SBI, e.brandName, e.averageCost))
  }

  /** The rows of a parsed file: from the broker, numbered in file order. */
  ghost predicate Numbered(rows: seq<Row>, keys: seq<Key>) {
    && |rows| == |keys|
    && forall i | 0 <= i < |rows| ::
      rows[i].source == SBI && rows[i].key == keys[i] && rows[i].occurrenceNo == Occurrences(keys, keys[i], i) % WIDTH
  }

  lemma {:induction false} NumberedUnique(rows: seq<Row>, keys: seq<Key>)
    requires Numbered(rows, keys) && |keys| < WIDTH
    ensures UniqueIds(rows)
  {
    forall i, j | 0 <= i < j < |rows| ensures !SameId(rows[i], rows[j]) {
      if rows[i].key == rows[j].key {
        NumbersDiffer(keys, i, j);
      }
    }
  }

  lemma {:induction false} NumbersDiffer(keys: seq<Key>, i: nat, j: nat)
    requires i < j < |keys| < WIDTH && keys[i] == keys[j]
    ensures Occurrences(keys, keys[i], i) % WIDTH != Occurrences(keys, keys[j], j) % WIDTH
  {
    hide Occurrences;
    OccurrencesGrow(keys, keys[i], 0, i);
    OccurrencesGrow(keys, keys[i], i, j);
    assert Occurrences(keys, keys[i], 0) == 0 by {
      NoneYet(keys, keys[i]);
    }
  }

  lemma {:induction false} NoneYet(keys: seq<Key>, key: Key)
    ensures Occurrences(keys, key, 0) == 0
  {
  }

  // ----- What an import does to the table

  lemma {:induction false} KeptAre(table: seq<Row>, source: string, dates: set<int>)
    ensures forall q | q in Kept(table, source, dates) ::
      q in table && !(q.source == source && q.key.executedOn in dates)
    ensures forall q | q in table && !(q.source == source && q.key.executedOn in dates) ::
      q in Kept(table, source, dates)
    decreases |table|
  {
    if table != [] {
      var n := |table| - 1;
      KeptAre(table[..n], source, dates);
      assert table == table[..n] + [table[n]];
    }
  }

  lemma {:induction false} KeptUnique(table: seq<Row>, source: string, dates: set<int>)
    requires UniqueIds(table)
    ensures UniqueIds(Kept(table, source, dates))
    decreases |table|
  {
    hide SameId;
    if table != [] {
      var n := |table| - 1;
      var kept := Kept(table[..n], source, dates);
      KeptUnique(table[..n], source, dates);
      KeptAre(table[..n], source, dates);
      forall i | 0 <= i < |kept| ensures !SameId(kept[i], table[n]) {
        assert kept[i] in table[..n];
        var k :| 0 <= k < n && table[k] == kept[i];
      }
    }
  }

  lemma {:induction false} KeptConcat(a: seq<Row>, b: seq<Row>, source: string, dates: set<int>)
    ensures Kept(a + b, source, dates) == Kept(a, source, dates) + Kept(b, source, dates)
    decreases |b|
  {
    if b == [] {
      assert a + b == a;
    } else {
      assert (a + b)[..|a + b| - 1] == a + b[..|b| - 1];
      KeptConcat(a, b[..|b| - 1], source, dates);
    }
  }

  lemma {:induction false} KeptAll(table: seq<Row>, source: string, dates: set<int>)
    requires forall q | q in table :: !(q.source == source && q.key.executedOn in dates)
    ensures Kept(table, source, dates) == table
    decreases |table|
  {
    if table != [] {
      KeptAll(table[..|table| - 1], source, dates);
    }
  }

  lemma {:induction false} KeptNone(table: seq<Row>, source: string, dates: set<int>)
    requires forall q | q in table :: q.source == source && q.key.executedOn in dates
    ensures Kept(table, source, dates) == []
    decreases |table|
  {
    if table != [] {
      KeptNone(table[..|table| - 1], source, dates);
    }
  }

  /** The rows whose unique key is free in the table. */
  function Fresh(table: seq<Row>, rows: seq<Row>): (free: seq<Row>)
    ensures |free| <= |rows|
  {
    if rows == [] then []
    else
      var n := |rows| - 1;
      Fresh(table, rows[..n]) + if Clashes(table, rows[n]) then [] else [rows[n]]
  }

  lemma {:induction false} FreshAre(table: seq<Row>, rows: seq<Row>)
    ensures forall r | r in Fresh(table, rows) :: r in rows && !Clashes(table, r)
    ensures |Fresh(table, rows)| == |rows| <==> forall r | r in rows :: !Clashes(table, r)
    ensures |Fresh(table, rows)| == |rows| ==> Fresh(table, rows) == rows
    decreases |rows|
  {
    hide Clashes;
    if rows != [] {
      var n := |rows| - 1;
      FreshAre(table, rows[..n]);
      assert rows == rows[..n] + [rows[n]];
    }
  }

  lemma {:induction false} ClashesAppend(a: seq<Row>, b: seq<Row>, row: Row)
    ensures Clashes(a + b, row) <==> Clashes(a, row) || Clashes(b, row)
  {
    if Clashes(a, row) {
      var i :| 0 <= i < |a| && a[i].key == row.key && a[i].occurrenceNo == row.occurrenceNo;
      assert (a + b)[i] == a[i];
    }
    if Clashes(b, row) {
      var i :| 0 <= i < |b| && b[i].key == row.key && b[i].occurrenceNo == row.occurrenceNo;
      assert (a + b)[|a| + i] == b[i];
    }
  }

  /** Rows that do not clash among themselves are skipped only because of the table they are inserted into. */
  lemma {:induction false} InsertedIsFresh(table: seq<Row>, rows: seq<Row>)
    requires UniqueIds(rows)
    ensures Inserted(table, rows) == table + Fresh(table, rows)
    decreases |rows|
  {
    hide *;
    if rows == [] {
      NothingToInsert(table);
    } else {
      var init, last := rows[..|rows| - 1], rows[|rows| - 1];
      assert rows == init + [last];
      UniquePrefix(rows);
      InsertedIsFresh(table, init);
      InsertSnoc(table, init, last);
      FreshAre(table, init);
      NoClashWithin(Fresh(table, init), rows, |init|);
      ClashesAppend(table, Fresh(table, init), last);
    }
  }

  lemma {:induction false} NothingToInsert(table: seq<Row>)
    ensures Inserted(table, []) == table && Fresh(table, []) == []
  {
  }

  lemma {:induction false} UniquePrefix(rows: seq<Row>)
    requires UniqueIds(rows) && rows != []
    ensures UniqueIds(rows[..|rows| - 1])
  {
    hide SameId;
  }

  lemma {:induction false} InsertSnoc(table: seq<Row>, init: seq<Row>, last: Row)
    ensures var before := Inserted(table, init);
      Inserted(table, init + [last]) == if Clashes(before, last) then before else before + [last]
    ensures Fresh(table, init + [last]) == Fresh(table, init) + if Clashes(table, last) then [] else [last]
  {
    hide Clashes;
    assert (init + [last])[..|init|] == init;
  }

  lemma {:induction false} NoClashWithin(some: seq<Row>, rows: seq<Row>, n: nat)
    requires UniqueIds(rows) && n < |rows| && forall r | r in some :: r in rows[..n]
    ensures !Clashes(some, rows[n])
  {
    forall i | 0 <= i < |some| ensures !SameId(some[i], rows[n]) {
      assert some[i] in rows[..n];
      var k :| 0 <= k < n && rows[k] == some[i];
    }
  }

  ghost predicate FromBroker(rows: seq<Row>) {
    forall i | 0 <= i < |rows| :: rows[i].source == SBI
  }

  /** After an import the table is what the deletion left, then the rows it did not clash with. */
  lemma {:induction false} ImportedIs(table: seq<Row>, rows: seq<Row>)
    requires UniqueIds(rows) && FromBroker(rows)
    ensures var left := Kept(table, SBI, DatesOf(rows));
      && Imported(table, rows) == left + Fresh(left, rows)
      && Kept(Imported(table, rows), SBI, DatesOf(rows)) == left
  {
    var dates := DatesOf(rows);
    var left := Kept(table, SBI, dates);
    InsertedIsFresh(left, rows);
    FreshAre(left, rows);
    KeptAre(table, SBI, dates);
    KeptConcat(left, Fresh(left, rows), SBI, dates);
    KeptAll(left, SBI, dates);
    forall r | r in Fresh(left, rows) ensures r.source == SBI && r.key.executedOn in dates {
      var i :| 0 <= i < |rows| && rows[i] == r;
      assert rows[i].key.executedOn in dates;
    }
    KeptNone(Fresh(left, rows), SBI, dates);
  }

  /** Importing keeps unique keys unique. */
  lemma {:induction false} ImportKeepsUnique(table: seq<Row>, rows: seq<Row>)
    requires UniqueIds(table) && UniqueIds(rows) && FromBroker(rows)
    ensures UniqueIds(Imported(table, rows))
  {
    var left := Kept(table, SBI, DatesOf(rows));
    KeptUnique(table, SBI, DatesOf(rows));
    InsertedUnique(left, rows);
  }

  lemma {:induction false} InsertedUnique(table: seq<Row>, rows: seq<Row>)
    requires UniqueIds(table)
    ensures UniqueIds(Inserted(table, rows))
    decreases |rows|
  {
    if rows != [] {
      InsertedUnique(table, rows[..|rows| - 1]);
    }
  }

  /** Importing the same file again leaves the table as it is, and deletes exactly what the first import inserted. */
  lemma {:induction false} Reimport(table: seq<Row>, rows: seq<Row>)
    requires UniqueIds(rows) && FromBroker(rows)
    ensures var once := Imported(table, rows);
      && Imported(once, rows) == once
      && |once| - |Kept(once, SBI, DatesOf(rows))| == |once| - |Kept(table, SBI, DatesOf(rows))|
  {
    hide Kept, Inserted, Fresh;
    ImportedIs(table, rows);
    ImportedIs(Imported(table, rows), rows);
  }

  /** Nothing is skipped exactly when no row from another source has the unique key of a row of the file. */
  lemma {:induction false} NothingSkippedIff(table: seq<Row>, rows: seq<Row>)
    requires UniqueIds(rows) && FromBroker(rows)
    ensures |Imported(table, rows)| - |Kept(table, SBI, DatesOf(rows))| == |rows|
       <==> forall q, r | q in table && r in rows :: q.source != SBI ==> !SameId(q, r)
  {
    var dates := DatesOf(rows);
    var left := Kept(table, SBI, dates);
    ImportedIs(table, rows);
    FreshAre(left, rows);
    KeptAre(table, SBI, dates);
    hide Kept, Inserted, Fresh;
    forall r | r in rows
      ensures Clashes(left, r) <==> exists q | q in table :: q.source != SBI && SameId(q, r)
    {
      DateOfRow(rows, r);
      if Clashes(left, r) {
        var i :| 0 <= i < |left| && left[i].key == r.key && left[i].occurrenceNo == r.occurrenceNo;
        assert left[i] in left && SameId(left[i], r);
      }
      if q :| q in table && q.source != SBI && SameId(q, r) {
        assert q in left;
      }
    }
  }

  /** Importing deletes nothing exactly when no row of the broker lies on a date of the file. */
  lemma {:induction false} NothingDeletedIff(table: seq<Row>, dates: set<int>)
    ensures |Kept(table, SBI, dates)| == |table|
       <==> forall q | q in table :: q.source == SBI ==> q.key.executedOn !in dates
    ensures |Kept(table, SBI, dates)| == |table| <==> Kept(table, SBI, dates) == table
    decreases |table|
  {
    if table != [] {
      var n := |table| - 1;
      assert table == table[..n] + [table[n]];
      NothingDeletedIff(table[..n], dates);
    }
  }

  /** Every row of the table outlives an import, as one that only adds would have it, exactly when the file has again
      every row the broker has on its dates. */
  lemma {:induction false} NothingLostIff(table: seq<Row>, rows: seq<Row>)
    requires UniqueIds(table) && UniqueIds(rows) && FromBroker(rows)
    ensures (forall q | q in table :: q in Imported(table, rows))
       <==> forall q | q in table :: q.source == SBI && q.key.executedOn in DatesOf(rows) ==> q in rows
  {
    var dates := DatesOf(rows);
    var left := Kept(table, SBI, dates);
    ImportedIs(table, rows);
    FreshAre(left, rows);
    KeptAre(table, SBI, dates);
    hide Kept, Inserted, Fresh, Clashes;
    forall q | q in table && q.source == SBI && q.key.executedOn in dates
      ensures q in Fresh(left, rows) <==> q in rows
    {
      if q in rows {
        OwnIdFree(table, left, q);
        FreeIsFresh(left, rows, q);
      }
    }
  }

  lemma {:induction false} OwnIdFree(table: seq<Row>, some: seq<Row>, q: Row)
    requires UniqueIds(table) && q in table && q !in some && forall r | r in some :: r in table
    ensures !Clashes(some, q)
  {
    var k :| 0 <= k < |table| && table[k] == q;
    forall i | 0 <= i < |some| ensures !SameId(some[i], q) {
      assert some[i] in some;
      var j :| 0 <= j < |table| && table[j] == some[i];
      assert j < k ==> !SameId(table[j], table[k]);
      assert k < j ==> !SameId(table[k], table[j]);
    }
  }

  lemma {:induction false} FreeIsFresh(table: seq<Row>, rows: seq<Row>, r: Row)
    requires r in rows && !Clashes(table, r)
    ensures r in Fresh(table, rows)
    decreases |rows|
  {
    var n := |rows| - 1;
    assert rows == rows[..n] + [rows[n]];
    if r != rows[n] {
      FreeIsFresh(table, rows[..n], r);
    }
  }

  lemma {:induction false} DateOfRow(rows: seq<Row>, r: Row)
    requires r in rows
    ensures r.key.executedOn in DatesOf(rows)
  {
    var i :| 0 <= i < |rows| && rows[i] == r;
  }

  /** The rows of the table on some dates, and those on all other dates. */
  function OnDates(table: seq<Row>, dates: set<int>, on: bool): seq<Row> {
    if table == [] then []
    else
      var n := |table| - 1;
      OnDates(table[..n], dates, on) + if (table[n].key.executedOn in dates) == on then [table[n]] else []
  }

  lemma {:induction false} OnDatesConcat(a: seq<Row>, b: seq<Row>, dates: set<int>, on: bool)
    ensures OnDates(a + b, dates, on) == OnDates(a, dates, on) + OnDates(b, dates, on)
    decreases |b|
  {
    if b == [] {
      assert a + b == a;
    } else {
      assert (a + b)[..|a + b| - 1] == a + b[..|b| - 1];
      OnDatesConcat(a, b[..|b| - 1], dates, on);
    }
  }

  lemma {:induction false} AllOnDates(rows: seq<Row>, dates: set<int>)
    requires forall r | r in rows :: r.key.executedOn in dates
    ensures OnDates(rows, dates, true) == rows && OnDates(rows, dates, false) == []
    decreases |rows|
  {
    if rows != [] {
      AllOnDates(rows[..|rows| - 1], dates);
    }
  }

  lemma {:induction false} KeptElsewhere(table: seq<Row>, dates: set<int>)
    ensures OnDates(Kept(table, SBI, dates), dates, false) == OnDates(table, dates, false)
    decreases |table|
  {
    if table != [] {
      var init, last := table[..|table| - 1], table[|table| - 1];
      KeptElsewhere(init, dates);
      OneOnDates(Kept(init, SBI, dates), last, dates);
      assert Kept(init, SBI, dates) + [] == Kept(init, SBI, dates);
    }
  }

  lemma {:induction false} KeptNothingOn(table: seq<Row>, dates: set<int>)
    requires forall q | q in table && q.key.executedOn in dates :: q.source == SBI
    ensures OnDates(Kept(table, SBI, dates), dates, true) == []
    decreases |table|
  {
    if table != [] {
      var init, last := table[..|table| - 1], table[|table| - 1];
      KeptNothingOn(init, dates);
      OneOnDates(Kept(init, SBI, dates), last, dates);
      assert Kept(init, SBI, dates) + [] == Kept(init, SBI, dates);
    }
  }

  lemma {:induction false} OneOnDates(rows: seq<Row>, last: Row, dates: set<int>)
    ensures OnDates(rows + [last], dates, false)
         == OnDates(rows, dates, false) + if last.key.executedOn in dates then [] else [last]
    ensures OnDates(rows + [last], dates, true)
         == OnDates(rows, dates, true) + if last.key.executedOn in dates then [last] else []
  {
    assert (rows + [last])[..|rows|] == rows;
  }

  lemma {:induction false} NoClashOffDates(table: seq<Row>, r: Row, dates: set<int>)
    requires r.key.executedOn in dates && forall q | q in table :: q.key.executedOn !in dates
    ensures !Clashes(table, r)
  {
  }

  /** Other dates are untouched; and if the file's dates hold only rows of the broker, the table afterwards holds on
      those dates exactly the rows of the file, in file order. */
  lemma {:induction false} FileReplacesItsDates(table: seq<Row>, rows: seq<Row>)
    requires UniqueIds(rows) && FromBroker(rows)
    ensures OnDates(Imported(table, rows), DatesOf(rows), false) == OnDates(table, DatesOf(rows), false)
    ensures (forall q | q in table && q.key.executedOn in DatesOf(rows) :: q.source == SBI)
        ==> OnDates(Imported(table, rows), DatesOf(rows), true) == rows
  {
    var dates := DatesOf(rows);
    var left := Kept(table, SBI, dates);
    var added := Fresh(left, rows);
    ImportedIs(table, rows);
    FreshAre(left, rows);
    KeptElsewhere(table, dates);
    KeptAre(table, SBI, dates);
    hide Kept, Inserted, Fresh, OnDates;
    forall r | r in rows ensures r.key.executedOn in dates {
      DateOfRow(rows, r);
    }
    AllOnDates(added, dates);
    OnDatesConcat(left, added, dates, true);
    OnDatesConcat(left, added, dates, false);
    if forall q | q in table && q.key.executedOn in dates :: q.source == SBI {
      KeptNothingOn(table, dates);
      forall r | r in rows ensures !Clashes(left, r) {
        NoClashOffDates(left, r, dates);
      }
    }
  }
}
