/** Filing the lines of a transcript once each: what makes a replayed attempt write only what no
    earlier life of it had made durable. */
module LineFiling {
  import opened Options
  import opened Lines
  import opened Ledger

  /** A line as it is filed: the batches its reading writes, then the row that names its uuid. */
  datatype Entry = Entry(uuid: Option<string>, kind: string, front: seq<Batch>)

  /** The uuids known to be durable, and the batches written by this life. */
  datatype Shelf = Shelf(seen: set<string>, batches: seq<Batch>)

  function UuidOf(e: Entry): set<string> { if e.uuid.Some? then {e.uuid.value} else {} }

  predicate Known(seen: set<string>, e: Entry) { e.uuid.Some? && e.uuid.value in seen }

  function Batches(e: Entry): seq<Batch> { e.front + [[LineFiled(e.uuid, e.kind)]] }

  function Put(s: Shelf, e: Entry): Shelf {
    if Known(s.seen, e) then s else Shelf(s.seen + UuidOf(e), s.batches + Batches(e))
  }

  function FileAll(seen: set<string>, entries: seq<Entry>): Shelf {
    if entries == [] then Shelf(seen, []) else Put(FileAll(seen, Init(entries)), Last(entries))
  }

  lemma {:induction false} FileAllPush(seen: set<string>, entries: seq<Entry>, e: Entry)
    ensures FileAll(seen, entries + [e]) == Put(FileAll(seen, entries), e)
  {
    assert Init(entries + [e]) == entries;
  }

  /** A cut of what is written falls in what was written before the last entry, or in its batches. */
  lemma {:induction false} CutOfLast(seen: set<string>, entries: seq<Entry>, e: Entry, cut: nat)
    requires cut <= |FileAll(seen, entries + [e]).batches|
    ensures var done, all := FileAll(seen, entries), FileAll(seen, entries + [e]).batches;
            && (cut <= |done.batches| ==> all[..cut] == done.batches[..cut])
            && (cut > |done.batches| ==>
                  && !Known(done.seen, e) && cut - |done.batches| <= |Batches(e)|
                  && all[..cut] == done.batches + Batches(e)[..cut - |done.batches|])
  {
    FileAllPush(seen, entries, e);
  }

  lemma {:induction false} FileAllMore(seen: set<string>, entries: seq<Entry>, more: seq<Entry>)
    requires |more| <= 1
    ensures FileAll(seen, entries + more)
         == if more == [] then FileAll(seen, entries) else Put(FileAll(seen, entries), more[0])
  {
    if more == [] { assert entries + more == entries; } else {
      assert more == [more[0]];
      FileAllPush(seen, entries, more[0]);
    }
  }

  function Uuids(entries: seq<Entry>): set<string> {
    if entries == [] then {} else Uuids(Init(entries)) + UuidOf(Last(entries))
  }

  lemma {:induction false} FileAllSeen(seen: set<string>, entries: seq<Entry>)
    ensures FileAll(seen, entries).seen == seen + Uuids(entries)
  {
    if entries != [] { FileAllSeen(seen, Init(entries)); }
  }

  // ---------- What the ledger says is durable ----------

  function Named(r: Row): set<string> {
    if r.LineFiled? && r.uuid.Some? then {r.uuid.value} else {}
  }

  /** The uuids a ledger holds a progress row for: what a replay is told. */
  function SeenIn(rows: seq<Row>): set<string> {
    if rows == [] then {} else SeenIn(Init(rows)) + Named(Last(rows))
  }

  lemma {:induction false} SeenAppend(a: seq<Row>, b: seq<Row>)
    ensures SeenIn(a + b) == SeenIn(a) + SeenIn(b)
    decreases |b|
  {
    if b == [] {
      assert a + b == a;
    } else {
      SeenAppend(a, Init(b));
      assert Init(a + b) == a + Init(b) && Last(a + b) == Last(b);
    }
  }

  /** Rows that file no line. */
  predicate Unfiled(b: Batch) {
    forall k | 0 <= k < |b| :: !b[k].LineFiled?
  }

  predicate AllUnfiled(batches: seq<Batch>) {
    forall k | 0 <= k < |batches| :: Unfiled(batches[k])
  }

  lemma {:induction false} UnfiledNames(rows: seq<Row>)
    requires Unfiled(rows)
    ensures SeenIn(rows) == {}
  {
    if rows != [] { UnfiledNames(Init(rows)); }
  }

  lemma {:induction false} UnfiledRows(batches: seq<Batch>)
    requires AllUnfiled(batches)
    ensures SeenIn(Rows(batches)) == {}
  {
    if batches != [] {
      UnfiledRows(Init(batches));
      UnfiledNames(Last(batches));
      SeenAppend(Rows(Init(batches)), Last(batches));
    }
  }

  /** Only the last row of an entry files a line. */
  predicate WellFormed(entries: seq<Entry>) {
    forall k | 0 <= k < |entries| :: AllUnfiled(entries[k].front)
  }

  lemma {:induction false} EntryNames(e: Entry)
    requires AllUnfiled(e.front)
    ensures SeenIn(Rows(Batches(e))) == UuidOf(e)
  {
    var row := LineFiled(e.uuid, e.kind);
    UnfiledRows(e.front);
    RowsPush(e.front, [row]);
    SeenAppend(Rows(e.front), [row]);
    assert Init([row]) == [];
  }

  lemma {:induction false} FileAllNames(seen: set<string>, entries: seq<Entry>)
    requires WellFormed(entries)
    ensures seen + SeenIn(Rows(FileAll(seen, entries).batches)) == seen + Uuids(entries)
  {
    if entries != [] {
      var s, e := FileAll(seen, Init(entries)), Last(entries);
      FileAllNames(seen, Init(entries));
      FileAllSeen(seen, Init(entries));
      if !Known(s.seen, e) {
        EntryNames(e);
        RowsAppend(s.batches, Batches(e));
        SeenAppend(Rows(s.batches), Rows(Batches(e)));
      }
    }
  }

  // ---------- What is owed ----------

  /** How many rows of a kind the entries with a uuid still owe, once `seen` are durable: those of
      the first entry to carry each uuid. */
  function Owed(seen: set<string>, entries: seq<Entry>, p: Row -> bool): nat {
    if entries == [] then 0
    else
      var e := Last(entries);
      Owed(seen, Init(entries), p)
      + if e.uuid.Some? && e.uuid.value !in seen + Uuids(Init(entries)) then Count(Rows(Batches(e)), p) else 0
  }

  lemma {:induction false} NothingOwed(seen: set<string>, entries: seq<Entry>, p: Row -> bool)
    requires Uuids(entries) <= seen
    ensures Owed(seen, entries, p) == 0
  {
    if entries != [] { NothingOwed(seen, Init(entries), p); }
  }

  /** The first entry to carry its uuid owes all its rows. */
  lemma {:induction false} FirstOwes(entries: seq<Entry>, m: nat, p: Row -> bool)
    requires m < |entries| && entries[m].uuid.Some? && entries[m].uuid.value !in Uuids(entries[..m])
    ensures Owed({}, entries, p) >= Count(Rows(Batches(entries[m])), p)
    decreases |entries|
  {
    if m < |entries| - 1 {
      assert Init(entries)[..m] == entries[..m];
      FirstOwes(Init(entries), m, p);
    }
  }

  /** With what `rows` hold durable, no more is owed than `rows` do not already give. */
  predicate Covers(seen: set<string>, entries: seq<Entry>, rows: seq<Row>, p: Row -> bool) {
    && SeenIn(rows) <= seen + Uuids(entries)
    && Count(rows, p) + Owed(seen + SeenIn(rows), entries, p) >= Owed(seen, entries, p)
  }

  lemma {:induction false} CoversMore(seen: set<string>, entries: seq<Entry>, e: Entry, rows: seq<Row>, p: Row -> bool)
    requires Covers(seen, entries, rows, p)
    ensures Covers(seen, entries + [e], rows, p)
  {
    assert Init(entries + [e]) == entries;
    assert seen + SeenIn(rows) + Uuids(entries) == seen + Uuids(entries);
  }

  lemma {:induction false} CoversUnfiled(seen: set<string>, entries: seq<Entry>, rows: seq<Row>,
      more: seq<Row>, p: Row -> bool)
    requires Covers(seen, entries, rows, p) && SeenIn(more) == {}
    ensures Covers(seen, entries, rows + more, p)
  {
    SeenAppend(rows, more);
    CountAppend(rows, more, p);
    assert SeenIn(rows) + SeenIn(more) == SeenIn(rows);
  }

  lemma {:induction false} CoversEntry(seen: set<string>, entries: seq<Entry>, e: Entry, rows: seq<Row>, p: Row -> bool)
    requires Covers(seen, entries, rows, p) && AllUnfiled(e.front)
    requires seen + SeenIn(rows) == seen + Uuids(entries)
    ensures Covers(seen, entries + [e], rows + Rows(Batches(e)), p)
  {
    var own := Rows(Batches(e));
    EntryNames(e);
    SeenAppend(rows, own);
    CountAppend(rows, own, p);
    assert Init(entries + [e]) == entries;
    NothingOwed(seen + SeenIn(rows), entries, p);
  }

  /** A life cut anywhere covers what it owed. */
  lemma {:induction false} CutCovers(seen: set<string>, entries: seq<Entry>, cut: nat, p: Row -> bool)
    requires WellFormed(entries) && cut <= |FileAll(seen, entries).batches|
    ensures Covers(seen, entries, Rows(FileAll(seen, entries).batches[..cut]), p)
  {
    if entries == [] {
      assert Rows([]) == [];
    } else {
      var front, e := Init(entries), Last(entries);
      var done := |FileAll(seen, front).batches|;
      assert entries == front + [e];
      CutCovers(seen, front, if cut <= done then cut else done, p);
      CutLastCovers(seen, front, e, cut, p);
    }
  }

  lemma {:induction false} CutLastCovers(seen: set<string>, entries: seq<Entry>, e: Entry, cut: nat, p: Row -> bool)
    requires WellFormed(entries) && AllUnfiled(e.front) && cut <= |FileAll(seen, entries + [e]).batches|
    requires var done := FileAll(seen, entries).batches;
             Covers(seen, entries, Rows(done[..if cut <= |done| then cut else |done|]), p)
    ensures Covers(seen, entries + [e], Rows(FileAll(seen, entries + [e]).batches[..cut]), p)
  {
    var done := FileAll(seen, entries).batches;
    CutOfLast(seen, entries, e, cut);
    if cut <= |done| {
      CoversMore(seen, entries, e, Rows(done[..cut]), p);
    } else {
      assert done[..|done|] == done;
      CutInEntry(seen, entries, e, cut - |done|, p);
    }
  }

  lemma {:induction false} CutInEntry(seen: set<string>, entries: seq<Entry>, e: Entry, cut: nat, p: Row -> bool)
    requires WellFormed(entries) && AllUnfiled(e.front) && cut <= |Batches(e)|
    requires Covers(seen, entries, Rows(FileAll(seen, entries).batches), p)
    ensures Covers(seen, entries + [e], Rows(FileAll(seen, entries).batches + Batches(e)[..cut]), p)
  {
    var done := FileAll(seen, entries).batches;
    RowsAppend(done, Batches(e)[..cut]);
    if cut == |Batches(e)| {
      assert Batches(e)[..cut] == Batches(e);
      FileAllNames(seen, entries);
      CoversEntry(seen, entries, e, Rows(done), p);
    } else {
      assert Batches(e)[..cut] == e.front[..cut];
      UnfiledRows(e.front[..cut]);
      CoversMore(seen, entries, e, Rows(done), p);
      CoversUnfiled(seen, entries + [e], Rows(done), Rows(e.front[..cut]), p);
    }
  }

  // ---------- Once, and exactly ----------

  function NamesUuid(u: string): Row -> bool { (r: Row) => r.LineFiled? && r.uuid == Some(u) }

  /** `rows` file the line of `u` once if they file it. */
  predicate Single(rows: seq<Row>, u: string) {
    Count(rows, NamesUuid(u)) == if u in SeenIn(rows) then 1 else 0
  }

  /** ... and do not file it where it was durable. */
  predicate Once(seen: set<string>, rows: seq<Row>, u: string) {
    Single(rows, u) && (u in seen ==> u !in SeenIn(rows))
  }

  lemma {:induction false} SingleAppend(a: seq<Row>, b: seq<Row>, u: string)
    requires Single(a, u) && Single(b, u) && (u in SeenIn(b) ==> u !in SeenIn(a))
    ensures Single(a + b, u)
  {
    SeenAppend(a, b);
    CountAppend(a, b, NamesUuid(u));
  }

  lemma {:induction false} UnfiledSingle(rows: seq<Row>, u: string)
    requires Unfiled(rows)
    ensures Single(rows, u)
  {
    UnfiledNames(rows);
    if rows != [] { UnfiledSingle(Init(rows), u); UnfiledNames(Init(rows)); }
  }

  lemma {:induction false} AllUnfiledIsUnfiled(batches: seq<Batch>)
    requires AllUnfiled(batches)
    ensures Unfiled(Rows(batches))
  {
    if batches != [] { AllUnfiledIsUnfiled(Init(batches)); }
  }

  lemma {:induction false} EntrySingle(e: Entry, u: string)
    requires AllUnfiled(e.front)
    ensures Single(Rows(Batches(e)), u)
  {
    var row := LineFiled(e.uuid, e.kind);
    AllUnfiledIsUnfiled(e.front);
    UnfiledSingle(Rows(e.front), u);
    UnfiledNames(Rows(e.front));
    assert Init([row]) == [] && Last([row]) == row;
    RowsPush(e.front, [row]);
    SingleAppend(Rows(e.front), [row], u);
  }

  /** A life, cut anywhere, files no line twice, and none that was durable before it. */
  lemma {:induction false} CutSingle(seen: set<string>, entries: seq<Entry>, cut: nat, u: string)
    requires WellFormed(entries) && cut <= |FileAll(seen, entries).batches|
    ensures Once(seen, Rows(FileAll(seen, entries).batches[..cut]), u)
  {
    if entries == [] {
      assert Rows([]) == [];
      UnfiledSingle([], u);
      UnfiledNames([]);
    } else {
      var front, e := Init(entries), Last(entries);
      var done := |FileAll(seen, front).batches|;
      assert entries == front + [e];
      CutSingle(seen, front, if cut <= done then cut else done, u);
      CutLastSingle(seen, front, e, cut, u);
    }
  }

  lemma {:induction false} CutLastSingle(seen: set<string>, entries: seq<Entry>, e: Entry, cut: nat, u: string)
    requires WellFormed(entries) && AllUnfiled(e.front) && cut <= |FileAll(seen, entries + [e]).batches|
    requires var done := FileAll(seen, entries).batches;
             Once(seen, Rows(done[..if cut <= |done| then cut else |done|]), u)
    ensures Once(seen, Rows(FileAll(seen, entries + [e]).batches[..cut]), u)
  {
    var done := FileAll(seen, entries).batches;
    CutOfLast(seen, entries, e, cut);
    if cut > |done| {
      assert done[..|done|] == done;
      CutEntrySinglePart(seen, entries, e, cut - |done|, u);
    }
  }

  lemma {:induction false} CutEntrySinglePart(seen: set<string>, entries: seq<Entry>, e: Entry, cut: nat, u: string)
    requires WellFormed(entries) && AllUnfiled(e.front) && cut <= |Batches(e)|
    requires !Known(FileAll(seen, entries).seen, e)
    requires Once(seen, Rows(FileAll(seen, entries).batches), u)
    ensures Once(seen, Rows(FileAll(seen, entries).batches + Batches(e)[..cut]), u)
  {
    var s := FileAll(seen, entries);
    var part := Rows(Batches(e)[..cut]);
    FileAllNames(seen, entries);
    FileAllSeen(seen, entries);
    CutEntrySingle(e, cut, u);
    SingleAppend(Rows(s.batches), part, u);
    SeenAppend(Rows(s.batches), part);
    RowsAppend(s.batches, Batches(e)[..cut]);
  }

  lemma {:induction false} CutEntrySingle(e: Entry, cut: nat, u: string)
    requires AllUnfiled(e.front) && cut <= |Batches(e)|
    ensures var rows := Rows(Batches(e)[..cut]); Single(rows, u) && SeenIn(rows) <= UuidOf(e)
  {
    if cut == |Batches(e)| {
      assert Batches(e)[..cut] == Batches(e);
      EntrySingle(e, u);
      EntryNames(e);
    } else {
      assert Batches(e)[..cut] == e.front[..cut];
      AllUnfiledIsUnfiled(e.front[..cut]);
      UnfiledSingle(Rows(e.front[..cut]), u);
      UnfiledNames(Rows(e.front[..cut]));
    }
  }

  /** No entry without a uuid writes rows of this kind. */
  predicate OnlyNamed(entries: seq<Entry>, p: Row -> bool) {
    forall k | 0 <= k < |entries| :: entries[k].uuid.None? ==> Count(Rows(Batches(entries[k])), p) == 0
  }

  lemma {:induction false} FilesWhatIsOwed(seen: set<string>, entries: seq<Entry>, p: Row -> bool)
    requires OnlyNamed(entries, p)
    ensures Count(Rows(FileAll(seen, entries).batches), p) == Owed(seen, entries, p)
  {
    if entries != [] {
      var s, e := FileAll(seen, Init(entries)), Last(entries);
      FilesWhatIsOwed(seen, Init(entries), p);
      FileAllSeen(seen, Init(entries));
      CountRowsAppend(s.batches, Batches(e), p);
    }
  }

  /** The batches of the line a cut falls in: none where it falls between lines. */
  function Unfinished(seen: set<string>, entries: seq<Entry>, cut: nat): (part: seq<Batch>)
    requires cut <= |FileAll(seen, entries).batches|
  {
    if entries == [] then []
    else
      var done := |FileAll(seen, Init(entries)).batches|;
      if cut <= done then Unfinished(seen, Init(entries), cut)
      else if cut == |FileAll(seen, entries).batches| then []
      else Last(entries).front[..cut - done]
  }

  /** What `rows` give and what is then still owed is what was owed, and `extra` more. */
  predicate Balances(seen: set<string>, entries: seq<Entry>, rows: seq<Row>, p: Row -> bool, extra: nat) {
    && SeenIn(rows) <= seen + Uuids(entries)
    && Count(rows, p) + Owed(seen + SeenIn(rows), entries, p) == Owed(seen, entries, p) + extra
  }

  lemma {:induction false} BalancesMore(seen: set<string>, entries: seq<Entry>, e: Entry, rows: seq<Row>,
      p: Row -> bool, extra: nat)
    requires Balances(seen, entries, rows, p, extra)
    ensures Balances(seen, entries + [e], rows, p, extra)
  {
    assert Init(entries + [e]) == entries;
    assert seen + SeenIn(rows) + Uuids(entries) == seen + Uuids(entries);
  }

  lemma {:induction false} BalancesWhole(seen: set<string>, entries: seq<Entry>, p: Row -> bool)
    requires WellFormed(entries) && OnlyNamed(entries, p)
    ensures Balances(seen, entries, Rows(FileAll(seen, entries).batches), p, 0)
  {
    FilesWhatIsOwed(seen, entries, p);
    FileAllNames(seen, entries);
    NothingOwed(seen + SeenIn(Rows(FileAll(seen, entries).batches)), entries, p);
  }

  lemma {:induction false} BalancesUnfiled(seen: set<string>, entries: seq<Entry>, rows: seq<Row>,
      more: seq<Row>, p: Row -> bool)
    requires Balances(seen, entries, rows, p, 0) && SeenIn(more) == {}
    ensures Balances(seen, entries, rows + more, p, Count(more, p))
  {
    SeenAppend(rows, more);
    CountAppend(rows, more, p);
    assert SeenIn(rows) + SeenIn(more) == SeenIn(rows);
  }

  /** A life cut anywhere writes what it makes durable, and what it has begun of the line the cut falls
      in: that is owed again. */
  lemma {:induction false} CutBalances(seen: set<string>, entries: seq<Entry>, cut: nat, p: Row -> bool)
    requires WellFormed(entries) && OnlyNamed(entries, p) && cut <= |FileAll(seen, entries).batches|
    ensures Balances(seen, entries, Rows(FileAll(seen, entries).batches[..cut]), p,
             Count(Rows(Unfinished(seen, entries, cut)), p))
  {
    var all := FileAll(seen, entries).batches;
    if cut == |all| {
      assert all[..cut] == all;
      BalancesWhole(seen, entries, p);
      NothingUnfinished(seen, entries);
    } else {
      var front, e := Init(entries), Last(entries);
      var done := FileAll(seen, front).batches;
      assert entries == front + [e];
      if cut <= |done| {
        CutBalances(seen, front, cut, p);
        CutBeforeBalances(seen, front, e, cut, p);
      } else {
        CutOfLast(seen, front, e, cut);
        CutInsideBalances(seen, front, e, e.front[..cut - |done|], p);
        assert Batches(e)[..cut - |done|] == e.front[..cut - |done|];
      }
    }
  }

  lemma {:induction false} CutBeforeBalances(seen: set<string>, entries: seq<Entry>, e: Entry, cut: nat, p: Row -> bool)
    requires cut <= |FileAll(seen, entries).batches| && cut < |FileAll(seen, entries + [e]).batches|
    requires Balances(seen, entries, Rows(FileAll(seen, entries).batches[..cut]), p,
             Count(Rows(Unfinished(seen, entries, cut)), p))
    ensures Balances(seen, entries + [e], Rows(FileAll(seen, entries + [e]).batches[..cut]), p,
                     Count(Rows(Unfinished(seen, entries + [e], cut)), p))
  {
    CutOfLast(seen, entries, e, cut);
    assert Init(entries + [e]) == entries;
    BalancesMore(seen, entries, e, Rows(FileAll(seen, entries).batches[..cut]), p,
        Count(Rows(Unfinished(seen, entries, cut)), p));
  }

  lemma {:induction false} CutInsideBalances(seen: set<string>, entries: seq<Entry>, e: Entry,
      part: seq<Batch>, p: Row -> bool)
    requires WellFormed(entries) && OnlyNamed(entries, p) && AllUnfiled(part)
    ensures Balances(seen, entries + [e], Rows(FileAll(seen, entries).batches + part), p, Count(Rows(part), p))
  {
    var done := FileAll(seen, entries).batches;
    BalancesWhole(seen, entries, p);
    BalancesMore(seen, entries, e, Rows(done), p, 0);
    UnfiledRows(part);
    RowsAppend(done, part);
    BalancesUnfiled(seen, entries + [e], Rows(done), Rows(part), p);
  }

  lemma {:induction false} NothingUnfinished(seen: set<string>, entries: seq<Entry>)
    ensures Unfinished(seen, entries, |FileAll(seen, entries).batches|) == []
  {
    if entries != [] && Known(FileAll(seen, Init(entries)).seen, Last(entries)) {
      NothingUnfinished(seen, Init(entries));
    }
  }

  // ---------- Lives ----------

  /** One life of an attempt: what it writes before and after the lines, and how many batches it
      writes before it is killed, if it is. */
  datatype Life = Life(before: seq<Batch>, after: seq<Batch>, cut: Option<nat>)

  function Whole(seen: set<string>, entries: seq<Entry>, l: Life): seq<Batch> {
    l.before + FileAll(seen, entries).batches + l.after
  }

  function Written(seen: set<string>, entries: seq<Entry>, l: Life): seq<Batch> {
    var whole := Whole(seen, entries, l);
    if l.cut.Some? && l.cut.value < |whole| then whole[..l.cut.value] else whole
  }

  /** The ledger after some lives, each told what the ledger says is durable. */
  function History(entries: seq<Entry>, lives: seq<Life>): seq<Row> {
    if lives == [] then []
    else
      var h := History(entries, Init(lives));
      h + Rows(Written(SeenIn(h), entries, Last(lives)))
  }

  lemma {:induction false} HistoryPush(entries: seq<Entry>, lives: seq<Life>, l: Life)
    ensures History(entries, lives + [l])
         == History(entries, lives) + Rows(Written(SeenIn(History(entries, lives)), entries, l))
  {
    assert Init(lives + [l]) == lives;
  }

  predicate AroundLines(lives: seq<Life>) {
    forall k | 0 <= k < |lives| :: AllUnfiled(lives[k].before) && AllUnfiled(lives[k].after)
  }

  /** How many of the lines' batches a life writes. */
  function LinesCut(seen: set<string>, entries: seq<Entry>, l: Life): (cut: nat)
    ensures cut <= |FileAll(seen, entries).batches|
  {
    var n, lines := |Written(seen, entries, l)|, |FileAll(seen, entries).batches|;
    if n <= |l.before| then 0 else if n <= |l.before| + lines then n - |l.before| else lines
  }

  /** The rows a life writes: some that file nothing, a cut of the lines' rows, some that file
      nothing. */
  lemma {:induction false} WrittenParts(seen: set<string>, entries: seq<Entry>, l: Life)
      returns (a: seq<Batch>, cut: nat, b: seq<Batch>)
    requires AllUnfiled(l.before) && AllUnfiled(l.after)
    ensures AllUnfiled(a) && AllUnfiled(b) && cut == LinesCut(seen, entries, l)
    ensures a <= l.before && b <= l.after
    ensures Written(seen, entries, l) == a + FileAll(seen, entries).batches[..cut] + b
    ensures l.cut.None? ==> cut == |FileAll(seen, entries).batches|
  {
    var lines := FileAll(seen, entries).batches;
    var n := if l.cut.Some? && l.cut.value < |Whole(seen, entries, l)| then l.cut.value else |Whole(seen, entries, l)|;
    assert Written(seen, entries, l) == Whole(seen, entries, l)[..n];
    if n <= |l.before| {
      a, cut, b := l.before[..n], 0, [];
    } else if n <= |l.before| + |lines| {
      a, cut, b := l.before, n - |l.before|, [];
    } else {
      a, cut, b := l.before, |lines|, l.after[..n - |l.before| - |lines|];
    }
  }

  lemma {:induction false} RowsOfThree(a: seq<Batch>, b: seq<Batch>, c: seq<Batch>)
    ensures Rows(a + b + c) == Rows(a) + Rows(b) + Rows(c)
  {
    RowsAppend(a + b, c);
    RowsAppend(a, b);
  }

  lemma {:induction false} SeenOfThree(a: seq<Row>, b: seq<Row>, c: seq<Row>)
    requires SeenIn(a) == {} && SeenIn(c) == {}
    ensures SeenIn(a + b + c) == SeenIn(b)
  {
    SeenAppend(a + b, c);
    SeenAppend(a, b);
  }

  lemma {:induction false} LifeCovers(seen: set<string>, entries: seq<Entry>, l: Life, p: Row -> bool)
    requires WellFormed(entries) && AllUnfiled(l.before) && AllUnfiled(l.after)
    ensures Covers(seen, entries, Rows(Written(seen, entries, l)), p)
  {
    var a, cut, b := WrittenParts(seen, entries, l);
    var lines := FileAll(seen, entries).batches[..cut];
    CutCovers(seen, entries, cut, p);
    UnfiledRows(a);
    UnfiledRows(b);
    RowsOfThree(a, lines, b);
    SeenOfThree(Rows(a), Rows(lines), Rows(b));
    CountAppend(Rows(a) + Rows(lines), Rows(b), p);
    CountAppend(Rows(a), Rows(lines), p);
  }

  lemma {:induction false} LifeSingle(seen: set<string>, entries: seq<Entry>, l: Life, u: string)
    requires WellFormed(entries) && AllUnfiled(l.before) && AllUnfiled(l.after)
    ensures Once(seen, Rows(Written(seen, entries, l)), u)
  {
    var a, cut, b := WrittenParts(seen, entries, l);
    var lines := FileAll(seen, entries).batches[..cut];
    CutSingle(seen, entries, cut, u);
    AllUnfiledIsUnfiled(a);
    AllUnfiledIsUnfiled(b);
    UnfiledSingle(Rows(a), u);
    UnfiledSingle(Rows(b), u);
    UnfiledNames(Rows(a));
    UnfiledNames(Rows(b));
    SingleAppend(Rows(a), Rows(lines), u);
    SingleAppend(Rows(a) + Rows(lines), Rows(b), u);
    RowsOfThree(a, lines, b);
    SeenOfThree(Rows(a), Rows(lines), Rows(b));
  }

  lemma {:induction false} UncutLifeNames(seen: set<string>, entries: seq<Entry>, l: Life)
    requires WellFormed(entries) && AllUnfiled(l.before) && AllUnfiled(l.after) && l.cut.None?
    ensures seen + SeenIn(Rows(Written(seen, entries, l))) == seen + Uuids(entries)
  {
    var a, cut, b := WrittenParts(seen, entries, l);
    var lines := FileAll(seen, entries).batches;
    assert lines[..cut] == lines;
    UnfiledRows(a);
    UnfiledRows(b);
    RowsOfThree(a, lines, b);
    SeenOfThree(Rows(a), Rows(lines), Rows(b));
    FileAllNames(seen, entries);
  }

  lemma {:induction false} HistorySingle(entries: seq<Entry>, lives: seq<Life>, u: string)
    requires WellFormed(entries) && AroundLines(lives)
    ensures Single(History(entries, lives), u)
  {
    if lives != [] {
      var h := History(entries, Init(lives));
      HistorySingle(entries, Init(lives), u);
      LifeSingle(SeenIn(h), entries, Last(lives), u);
      SingleAppend(h, Rows(Written(SeenIn(h), entries, Last(lives))), u);
    }
  }

  lemma {:induction false} HistoryCovers(entries: seq<Entry>, lives: seq<Life>, p: Row -> bool)
    requires WellFormed(entries) && AroundLines(lives)
    ensures Covers({}, entries, History(entries, lives), p)
  {
    if lives != [] {
      var h := History(entries, Init(lives));
      var rows := Rows(Written(SeenIn(h), entries, Last(lives)));
      HistoryCovers(entries, Init(lives), p);
      LifeCovers(SeenIn(h), entries, Last(lives), p);
      SeenAppend(h, rows);
      CountAppend(h, rows, p);
      assert {} + SeenIn(h) == SeenIn(h) && {} + SeenIn(h + rows) == SeenIn(h) + SeenIn(rows);
    } else {
      assert {} + SeenIn([]) == {};
    }
  }

  lemma {:induction false} UncutHistoryNames(entries: seq<Entry>, lives: seq<Life>)
    requires WellFormed(entries) && AroundLines(lives) && lives != [] && Last(lives).cut.None?
    ensures Uuids(entries) <= SeenIn(History(entries, lives))
  {
    var h := History(entries, Init(lives));
    UncutLifeNames(SeenIn(h), entries, Last(lives));
    SeenAppend(h, Rows(Written(SeenIn(h), entries, Last(lives))));
  }

  lemma {:induction false} NothingOwedThen(entries: seq<Entry>, rows: seq<Row>, p: Row -> bool)
    requires Uuids(entries) <= SeenIn(rows)
    ensures Owed({} + SeenIn(rows), entries, p) == 0
  {
    NothingOwed({} + SeenIn(rows), entries, p);
  }

  /** After any number of lives killed anywhere and one that was not: every uuid has exactly one
      progress row, and of every other kind of row there are at least as many as the first lines to
      carry each uuid call for. */
  lemma {:induction false} ReplayFilesOnce(entries: seq<Entry>, lives: seq<Life>, u: string, p: Row -> bool)
    requires WellFormed(entries) && AroundLines(lives) && lives != [] && Last(lives).cut.None?
    ensures Count(History(entries, lives), NamesUuid(u)) == if u in Uuids(entries) then 1 else 0
    ensures Count(History(entries, lives), p) >= Owed({}, entries, p)
  {
    HistorySingle(entries, lives, u);
    HistoryCovers(entries, lives, p);
    UncutHistoryNames(entries, lives);
    NothingOwedThen(entries, History(entries, lives), p);
  }

  // ---------- Exactly ----------

  predicate Lacks(b: Batch, p: Row -> bool) { forall k | 0 <= k < |b| :: !p(b[k]) }

  predicate NoneIn(batches: seq<Batch>, p: Row -> bool) {
    forall k | 0 <= k < |batches| :: Lacks(batches[k], p)
  }

  predicate OnlyLinesWrite(lives: seq<Life>, p: Row -> bool) {
    forall k | 0 <= k < |lives| :: NoneIn(lives[k].before, p) && NoneIn(lives[k].after, p)
  }

  lemma {:induction false} NoneCountsNothing(b: Batch, p: Row -> bool)
    requires Lacks(b, p)
    ensures Count(b, p) == 0
  {
    if b != [] { NoneCountsNothing(Init(b), p); }
  }

  lemma {:induction false} NoneInCountsNothing(batches: seq<Batch>, p: Row -> bool)
    requires NoneIn(batches, p)
    ensures Count(Rows(batches), p) == 0
  {
    if batches != [] {
      NoneInCountsNothing(Init(batches), p);
      NoneCountsNothing(Last(batches), p);
      CountAppend(Rows(Init(batches)), Last(batches), p);
    }
  }

  /** What a life has begun of a line it did not finish. */
  function Begun(seen: set<string>, entries: seq<Entry>, l: Life): seq<Batch> {
    Unfinished(seen, entries, LinesCut(seen, entries, l))
  }

  function BegunCount(entries: seq<Entry>, before: seq<Life>, l: Life, p: Row -> bool): nat {
    Count(Rows(Begun(SeenIn(History(entries, before)), entries, l)), p)
  }

  function AllBegun(entries: seq<Entry>, lives: seq<Life>, p: Row -> bool): nat {
    if lives == [] then 0 else AllBegun(entries, Init(lives), p) + BegunCount(entries, Init(lives), Last(lives), p)
  }

  lemma {:induction false} LifeBalances(seen: set<string>, entries: seq<Entry>, l: Life, p: Row -> bool)
    requires WellFormed(entries) && OnlyNamed(entries, p)
    requires AllUnfiled(l.before) && AllUnfiled(l.after) && NoneIn(l.before, p) && NoneIn(l.after, p)
    ensures Balances(seen, entries, Rows(Written(seen, entries, l)), p, Count(Rows(Begun(seen, entries, l)), p))
  {
    var a, cut, b := WrittenParts(seen, entries, l);
    var lines := FileAll(seen, entries).batches[..cut];
    CutBalances(seen, entries, cut, p);
    UnfiledRows(a);
    UnfiledRows(b);
    RowsOfThree(a, lines, b);
    SeenOfThree(Rows(a), Rows(lines), Rows(b));
    NoneInCountsNothing(a, p);
    NoneInCountsNothing(b, p);
    CountAppend(Rows(a) + Rows(lines), Rows(b), p);
    CountAppend(Rows(a), Rows(lines), p);
  }

  lemma {:induction false} HistoryBalances(entries: seq<Entry>, lives: seq<Life>, p: Row -> bool)
    requires WellFormed(entries) && OnlyNamed(entries, p) && AroundLines(lives) && OnlyLinesWrite(lives, p)
    ensures Balances({}, entries, History(entries, lives), p, AllBegun(entries, lives, p))
  {
    if lives != [] {
      var h := History(entries, Init(lives));
      var rows := Rows(Written(SeenIn(h), entries, Last(lives)));
      HistoryBalances(entries, Init(lives), p);
      LifeBalances(SeenIn(h), entries, Last(lives), p);
      SeenAppend(h, rows);
      CountAppend(h, rows, p);
      assert {} + SeenIn(h) == SeenIn(h) && {} + SeenIn(h + rows) == SeenIn(h) + SeenIn(rows);
    } else {
      assert {} + SeenIn([]) == {};
    }
  }

  /** Of a kind of row that only lines with a uuid write, the ledger holds what the first lines to carry
      each uuid call for, and over that exactly what the killed lives had begun of lines they did not
      finish. */
  lemma {:induction false} ReplayIsExact(entries: seq<Entry>, lives: seq<Life>, p: Row -> bool)
    requires WellFormed(entries) && OnlyNamed(entries, p) && AroundLines(lives) && OnlyLinesWrite(lives, p)
    requires lives != [] && Last(lives).cut.None?
    ensures Count(History(entries, lives), p) == Owed({}, entries, p) + AllBegun(entries, lives, p)
  {
    HistoryBalances(entries, lives, p);
    UncutHistoryNames(entries, lives);
    NothingOwedThen(entries, History(entries, lives), p);
  }

  /** No life has begun a row of this kind in a line that it was killed inside. */
  predicate NoneBegun(entries: seq<Entry>, lives: seq<Life>, p: Row -> bool) {
    lives == [] || (NoneBegun(entries, Init(lives), p) && BegunCount(entries, Init(lives), Last(lives), p) == 0)
  }

  lemma {:induction false} NoneBegunMeans(entries: seq<Entry>, lives: seq<Life>, p: Row -> bool)
    ensures NoneBegun(entries, lives, p) <==> AllBegun(entries, lives, p) == 0
  {
    if lives != [] { NoneBegunMeans(entries, Init(lives), p); }
  }

  /** An only line that is not durable, and a life killed behind the first `k` of its batches. */
  lemma {:induction false} BegunOfOne(seen: set<string>, e: Entry, l: Life, k: nat)
    requires !Known(seen, e) && k <= |e.front| && l.cut == Some(|l.before| + k)
    ensures Begun(seen, [e], l) == e.front[..k]
  {
    assert Init([e]) == [] && Last([e]) == e;
    assert FileAll(seen, []).batches == [] && FileAll(seen, [e]).batches == [] + Batches(e);
    assert |Batches(e)| == |e.front| + 1;
    assert |Whole(seen, [e], l)| == |l.before| + |e.front| + 1 + |l.after|;
    assert Unfinished(seen, [], 0) == [];
  }

  lemma {:induction false} UncutBegins(seen: set<string>, entries: seq<Entry>, l: Life)
    requires l.cut.None?
    ensures Begun(seen, entries, l) == []
  {
    NothingUnfinished(seen, entries);
  }

  lemma {:induction false} UncutCount(entries: seq<Entry>, before: seq<Life>, l: Life, p: Row -> bool)
    requires l.cut.None?
    ensures BegunCount(entries, before, l, p) == 0
  {
    UncutBegins(SeenIn(History(entries, before)), entries, l);
  }

  lemma {:induction false} AllBegunPush(entries: seq<Entry>, lives: seq<Life>, l: Life, p: Row -> bool)
    ensures AllBegun(entries, lives + [l], p) == AllBegun(entries, lives, p) + BegunCount(entries, lives, l, p)
  {
    assert Init(lives + [l]) == lives;
  }

  lemma {:induction false} CountFirst(e: Entry, p: Row -> bool)
    requires |e.front| > 0 && |e.front[0]| == 1 && p(e.front[0][0])
    ensures Count(Rows(e.front[..1]), p) == 1
  {
    assert e.front[0] == [e.front[0][0]];
    assert e.front[..1] == [] + [[e.front[0][0]]];
    CountBatch([], e.front[0][0], p);
  }

  lemma {:induction false} KilledCount(e: Entry, killed: Life, p: Row -> bool)
    requires e.uuid.Some? && |e.front| > 0 && |e.front[0]| == 1 && p(e.front[0][0])
    requires killed.cut == Some(|killed.before| + 1)
    ensures BegunCount([e], [], killed, p) == 1
  {
    BegunOfOne({}, e, killed, 1);
    CountFirst(e, p);
  }

  lemma {:induction false} TwoLives(e: Entry, killed: Life, replay: Life, p: Row -> bool)
    requires e.uuid.Some? && |e.front| > 0 && |e.front[0]| == 1 && p(e.front[0][0])
    requires killed.cut == Some(|killed.before| + 1) && replay.cut.None?
    ensures AllBegun([e], [killed] + [replay], p) == 1
  {
    AllBegunPush([e], [], killed, p);
    AllBegunPush([e], [killed], replay, p);
    KilledCount(e, killed, p);
    UncutCount([e], [killed], replay, p);
    assert [] + [killed] == [killed];
  }

  lemma {:induction false} FileOne(e: Entry, p: Row -> bool)
    requires e.uuid.Some?
    ensures FileAll({}, [e]).batches == Batches(e) && Owed({}, [e], p) == Count(Rows(Batches(e)), p)
  {
    assert Init([e]) == [];
  }

  lemma {:induction false} KilledWrites(e: Entry, k: nat)
    requires e.uuid.Some? && k <= |e.front|
    ensures Written({}, [e], Life([], [], Some(k))) == e.front[..k]
  {
    var row := [LineFiled(e.uuid, e.kind)];
    FileOne(e, r => true);
    WholeIs({}, [e], Life([], [], Some(k)), e.front + [row]);
    TakeFront(e.front, row, k);
  }

  lemma {:induction false} WholeIs(seen: set<string>, entries: seq<Entry>, l: Life, lines: seq<Batch>)
    requires l.before == [] && l.after == [] && FileAll(seen, entries).batches == lines
    ensures Whole(seen, entries, l) == lines
  {
  }

  lemma {:induction false} TakeFront(a: seq<Batch>, b: Batch, k: nat)
    requires k <= |a|
    ensures (a + [b])[..k] == a[..k]
  {
  }

  lemma {:induction false} KilledLedger(e: Entry, k: nat)
    requires e.uuid.Some? && AllUnfiled(e.front) && k <= |e.front|
    ensures History([e], [Life([], [], Some(k))]) == Rows(e.front[..k]) && SeenIn(Rows(e.front[..k])) == {}
  {
    var killed := Life([], [], Some(k));
    KilledWrites(e, k);
    UnfiledRows(e.front[..k]);
    HistoryPush([e], [], killed);
    assert [] + [killed] == [killed];
  }

  /** One line with a uuid, killed behind the first `k` of its batches and replayed: their rows are in the
      ledger twice. */
  lemma {:induction false} KilledInsideRepeats(e: Entry, k: nat, p: Row -> bool)
    requires e.uuid.Some? && AllUnfiled(e.front) && k <= |e.front|
    ensures Count(History([e], [Life([], [], Some(k)), Life([], [], None)]), p)
         == Owed({}, [e], p) + Count(Rows(e.front[..k]), p)
  {
    var killed, replay := Life([], [], Some(k)), Life([], [], None);
    FileOne(e, p);
    KilledLedger(e, k);
    HistoryPush([e], [killed], replay);
    WholeIs({}, [e], replay, Batches(e));
    assert [killed] + [replay] == [killed, replay];
    CountAppend(Rows(e.front[..k]), Rows(Batches(e)), p);
  }

  lemma {:induction false} CountOne(row: Row, p: Row -> bool)
    ensures Count([row], p) == if p(row) then 1 else 0
  {
    assert Init([row]) == [];
  }

  lemma {:induction false} CountBatch(batches: seq<Batch>, row: Row, p: Row -> bool)
    ensures Count(Rows(batches + [[row]]), p) == Count(Rows(batches), p) + if p(row) then 1 else 0
  {
    RowsPush(batches, [row]);
    CountAppend(Rows(batches), [row], p);
    CountOne(row, p);
  }

  lemma {:induction false} SecondTime(e: Entry, row: Row, chunk: Row, p: Row -> bool)
    requires e.uuid.Some? && e.front == [[row], [chunk]] && AllUnfiled(e.front)
    requires p(row) && !p(chunk) && !p(LineFiled(e.uuid, e.kind))
    ensures Count(History([e], [Life([], [], Some(1)), Life([], [], None)]), p) == 2 && Owed({}, [e], p) == 1
  {
    KilledInsideRepeats(e, 1, p);
    FileOne(e, p);
    CountFirst(e, p);
    CountWhole(e, row, chunk, p);
  }

  lemma {:induction false} CountWhole(e: Entry, row: Row, chunk: Row, p: Row -> bool)
    requires e.front == [[row], [chunk]] && p(row) && !p(chunk) && !p(LineFiled(e.uuid, e.kind))
    ensures Count(Rows(Batches(e)), p) == 1
  {
    CountBatch(e.front, LineFiled(e.uuid, e.kind), p);
    CountBatch([[row]], chunk, p);
    CountBatch([], row, p);
    assert e.front == [[row]] + [[chunk]] && [] + [[row]] == [[row]];
  }

  /** A repeat: killed between a line's rate limit and the row that names the line, then replayed, an
      output has the limit reported twice. */
  lemma {:induction false} RateLimitRepeats()
    ensures var e := Entry(Some("u"), "rate_limit_event", [[RateLimited(Some(5), "x")], [Chunk("x")]]);
            var p := (r: Row) => r.RateLimited?;
            && Count(History([e], [Life([], [], Some(1)), Life([], [], None)]), p) == 2
            && Owed({}, [e], p) == 1
  {
    var limit, chunk := RateLimited(Some(5), "x"), Chunk("x");
    var e := Entry(Some("u"), "rate_limit_event", [[limit], [chunk]]);
    SecondTime(e, limit, chunk, (r: Row) => r.RateLimited?);
  }
}
