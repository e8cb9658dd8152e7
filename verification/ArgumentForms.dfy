/** The argv audit (argument-forms.ts): reading a built command line back against the argument
    declarations of the entry that built it. */
module ArgumentForms {
  import opened Options

  datatype Form =
    | InlineJson
    | AbsPath
    | Uuid
    | Enum(values: seq<string>)
    | Finite
    | FreeText

  datatype ShimArgument = ShimArgument(
    name: string,
    flag: Option<string>,  // none for a positional
    form: Form,
    valueless: bool,
    stripKeys: seq<string>)

  /** What the forms ask of the platform: JSON.parse, and Number with isFinite. */
  datatype Platform = Platform(parses: string -> bool, finite: string -> bool)

  datatype Problem = NotOfForm(form: Form) | NoValueFollows | Undeclared

  datatype Row = Row(token: Option<string>, argument: Option<ShimArgument>, value: Option<string>,
                     problem: Option<Problem>)

  // ---------- Forms ----------

  predicate HexDigit(c: char) {
    '0' <= c <= '9' || 'a' <= c <= 'f' || 'A' <= c <= 'F'
  }

  /** RFC 4122, versions 1 to 5: 8-4-4-4-12 hex digits, the version and the variant checked. */
  predicate IsUuid(s: string) {
    && |s| == 36
    && (forall k | 0 <= k < 36 :: if k == 8 || k == 13 || k == 18 || k == 23 then s[k] == '-' else HexDigit(s[k]))
    && '1' <= s[14] <= '5'
    && (s[19] == '8' || s[19] == '9' || s[19] == 'a' || s[19] == 'b' || s[19] == 'A' || s[19] == 'B')
  }

  predicate IsAbsolute(s: string) {
    s != "" && s[0] == '/'
  }

  predicate AllHex(s: string) { forall k | 0 <= k < |s| :: s[k] in "0123456789abcdefABCDEF" }

  lemma {:induction false} HexDigitIs(c: char)
    ensures HexDigit(c) <==> c in "0123456789abcdefABCDEF"
  {
    var all := "0123456789abcdefABCDEF";
    if '0' <= c <= '9' { assert c == all[c as int - '0' as int]; }
    if 'a' <= c <= 'f' { assert c == all[10 + (c as int - 'a' as int)]; }
    if 'A' <= c <= 'F' { assert c == all[16 + (c as int - 'A' as int)]; }
  }

  lemma {:induction false} HexOfSlice(s: string, from: nat, to: nat)
    requires from <= to <= |s|
    ensures AllHex(s[from..to]) <==> forall k | from <= k < to :: HexDigit(s[k])
  {
    forall c: char ensures HexDigit(c) <==> c in "0123456789abcdefABCDEF" { HexDigitIs(c); }
    assert forall k | from <= k < to :: s[from..to][k - from] == s[k];
  }

  /** Five groups of hex digits with dashes between them, the third opened by the version and the fourth by the
      variant. */
  predicate Grouped(s: string) {
    && |s| == 36 && s[8] == s[13] == s[18] == s[23] == '-'
    && AllHex(s[0..8]) && AllHex(s[9..13]) && AllHex(s[14..18]) && AllHex(s[19..23]) && AllHex(s[24..36])
    && s[14] in "12345" && s[19] in "89abAB"
  }

  lemma {:induction false} UuidIs(s: string)
    ensures IsUuid(s) <==> Grouped(s)
  {
    if |s| == 36 {
      HexOfSlice(s, 0, 8);
      HexOfSlice(s, 9, 13);
      HexOfSlice(s, 14, 18);
      HexOfSlice(s, 19, 23);
      HexOfSlice(s, 24, 36);
      VersionIs(s[14]);
      VariantIs(s[19]);
    }
  }

  lemma {:induction false} VersionIs(c: char)
    ensures c in "12345" <==> '1' <= c <= '5'
  {
    if '1' <= c <= '5' { assert c == "12345"[c as int - '1' as int]; }
  }

  lemma {:induction false} VariantIs(c: char)
    ensures c in "89abAB" <==> c == '8' || c == '9' || c == 'a' || c == 'b' || c == 'A' || c == 'B'
  {
  }

  /** What each form asks of a value. */
  lemma {:induction false} FormMeans(p: Platform, value: string)
    ensures OfForm(p, AbsPath, value) <==> "/" <= value
    ensures OfForm(p, Uuid, value) <==> Grouped(value)
    ensures OfForm(p, InlineJson, value) <==> p.parses(value)
    ensures OfForm(p, Finite, value) <==> p.finite(value)
    ensures OfForm(p, FreeText, value) <==> |value| > 0
    ensures forall values :: OfForm(p, Enum(values), value) <==> exists k :: 0 <= k < |values| && values[k] == value
  {
    UuidIs(value);
  }

  predicate OfForm(p: Platform, form: Form, value: string) {
    match form
    case InlineJson => p.parses(value)
    case AbsPath => IsAbsolute(value)
    case Uuid => IsUuid(value)
    case Enum(values) => value in values
    case Finite => p.finite(value)
    case FreeText => value != ""
  }

  function CheckForm(p: Platform, form: Form, value: string): (problem: Option<Problem>)
    ensures problem == None <==> OfForm(p, form, value)
  {
    if OfForm(p, form, value) then None else Some(NotOfForm(form))
  }

  // ---------- The audit ----------

  /** What the audit looks tokens up in: the flags, and the positionals in declaration order. */
  datatype Table = Table(byFlag: map<string, ShimArgument>, positionals: seq<ShimArgument>)

  /** A table of declarations; of two that share a flag, the later one is the one found. */
  function TableOf(declared: seq<ShimArgument>): Table {
    if declared == [] then Table(map[], [])
    else
      var t, last := TableOf(declared[..|declared| - 1]), declared[|declared| - 1];
      if last.flag.Some? then t.(byFlag := t.byFlag[last.flag.value := last])
      else t.(positionals := t.positionals + [last])
  }

  /** The rows of `argv` from `index` on, when `next` positionals have been met before it. */
  function Rows(p: Platform, t: Table, argv: seq<string>, index: nat, next: nat): seq<Row>
    decreases |argv| - index
  {
    if index >= |argv| then []
    else if argv[index] in t.byFlag then
      var flagged := t.byFlag[argv[index]];
      if flagged.valueless then
        [Row(Some(argv[index]), Some(flagged), None, None)] + Rows(p, t, argv, index + 1, next)
      else if index + 1 >= |argv| then
        [Row(Some(argv[index]), Some(flagged), None, Some(NoValueFollows))]
      else
        [FlaggedRow(p, flagged, argv[index], argv[index + 1])] + Rows(p, t, argv, index + 2, next)
    else
      [PositionalRow(p, t, argv[index], next)] + Rows(p, t, argv, index + 1, next + 1)
  }

  function FlaggedRow(p: Platform, flagged: ShimArgument, token: string, value: string): Row {
    Row(Some(token), Some(flagged), Some(value), CheckForm(p, flagged.form, value))
  }

  function PositionalRow(p: Platform, t: Table, token: string, next: nat): Row {
    if next < |t.positionals|
    then Row(None, Some(t.positionals[next]), Some(token), CheckForm(p, t.positionals[next].form, token))
    else Row(Some(token), None, Some(token), Some(Undeclared))
  }

  function Audit(p: Platform, declared: seq<ShimArgument>, argv: seq<string>): seq<Row> {
    Rows(p, TableOf(declared), argv, 0, 0)
  }

  method IndexTable(declared: seq<ShimArgument>) returns (t: Table)
    ensures t == TableOf(declared)
  {
    var byFlag: map<string, ShimArgument> := map[];
    var positionals := [];
    for n := 0 to |declared|
      invariant Table(byFlag, positionals) == TableOf(declared[..n])
    {
      assert declared[..n + 1][..n] == declared[..n];
      if declared[n].flag.Some? {
        byFlag := byFlag[declared[n].flag.value := declared[n]];
      } else {
        positionals := positionals + [declared[n]];
      }
    }
    assert declared[..|declared|] == declared;
    t := Table(byFlag, positionals);
  }

  method AuditArgv(p: Platform, declared: seq<ShimArgument>, argv: seq<string>) returns (rows: seq<Row>)
    ensures rows == Audit(p, declared, argv)
  {
    var t := IndexTable(declared);
    rows := [];
    var nextPositional := 0;
    var index := 0;
    while index < |argv|
      invariant 0 <= index && 0 <= nextPositional
      invariant rows + Rows(p, t, argv, index, nextPositional) == Audit(p, declared, argv)
    {
      var row;
      row, index, nextPositional := AuditToken(p, t, argv, index, nextPositional);
      rows := rows + [row];
    }
  }

  /** One turn of the audit's loop: the row of a token, and where the next one starts. */
  method AuditToken(p: Platform, t: Table, argv: seq<string>, index: nat, nextPositional: nat)
    returns (row: Row, after: nat, next: nat)
    requires index < |argv|
    ensures index < after && Rows(p, t, argv, index, nextPositional) == [row] + Rows(p, t, argv, after, next)
  {
    var token := argv[index];
    after, next := index, nextPositional;
    if token in t.byFlag {
      var flagged := t.byFlag[token];
      if flagged.valueless {
        row := Row(Some(token), Some(flagged), None, None);
      } else if after + 1 >= |argv| {
        row := Row(Some(token), Some(flagged), None, Some(NoValueFollows));
      } else {
        after := after + 1;
        row := FlaggedRow(p, flagged, token, argv[after]);
      }
    } else {
      row := PositionalRow(p, t, token, next);
      next := next + 1;
    }
    after := after + 1;
  }

  // ---------- Every token is judged ----------

  /** An audited row: its argument is one that was declared, found by the flag or met as a positional; and it has no
      problem exactly where it has an argument, and a value of the argument's form or no need of one. */
  predicate Judged(p: Platform, declared: seq<ShimArgument>, row: Row) {
    && (row.argument.Some? ==> row.argument.value in declared && row.argument.value.flag == row.token)
    && (row.argument.None? ==> row.token.Some? && row.token == row.value)
    && (row.problem == None <==>
          && row.argument.Some?
          && if row.value.Some? then OfForm(p, row.argument.value.form, row.value.value)
             else row.argument.value.valueless)
    && (row.problem == Some(Undeclared) <==> row.argument.None?)
    && (row.problem == Some(NoValueFollows) <==>
          row.argument.Some? && row.value.None? && !row.argument.value.valueless)
  }

  predicate AllDeclared(t: Table, declared: seq<ShimArgument>) {
    && (forall flag | flag in t.byFlag :: t.byFlag[flag] in declared && t.byFlag[flag].flag == Some(flag))
    && (forall k | 0 <= k < |t.positionals| :: t.positionals[k] in declared && t.positionals[k].flag.None?)
  }

  lemma {:induction false} TableIsDeclared(declared: seq<ShimArgument>)
    ensures AllDeclared(TableOf(declared), declared)
  {
    if declared != [] {
      var front := declared[..|declared| - 1];
      TableIsDeclared(front);
      assert declared == front + [declared[|declared| - 1]];
    }
  }

  lemma {:induction false} RowsAreJudged(p: Platform, declared: seq<ShimArgument>, t: Table, argv: seq<string>,
        index: nat, next: nat)
    requires AllDeclared(t, declared)
    ensures forall row | row in Rows(p, t, argv, index, next) :: Judged(p, declared, row)
    decreases |argv| - index
  {
    if index < |argv| {
      if argv[index] in t.byFlag {
        var flagged := t.byFlag[argv[index]];
        if flagged.valueless {
          RowsAreJudged(p, declared, t, argv, index + 1, next);
        } else if index + 1 < |argv| {
          RowsAreJudged(p, declared, t, argv, index + 2, next);
        }
      } else {
        RowsAreJudged(p, declared, t, argv, index + 1, next + 1);
      }
    }
  }

  /** Whatever the argv, every row of its audit is judged. */
  lemma {:induction false} AuditJudges(p: Platform, declared: seq<ShimArgument>, argv: seq<string>)
    ensures forall row | row in Audit(p, declared, argv) :: Judged(p, declared, row)
  {
    TableIsDeclared(declared);
    RowsAreJudged(p, declared, TableOf(declared), argv, 0, 0);
  }

  // ---------- Nothing is skipped ----------

  /** The argv elements a row accounts for. */
  function Elements(row: Row): seq<string> {
    (if row.argument.Some? && row.token.Some? then [row.token.value] else [])
    + (if row.value.Some? then [row.value.value] else [])
  }

  function AllElements(rows: seq<Row>): seq<string> {
    if rows == [] then [] else Elements(rows[0]) + AllElements(rows[1..])
  }

  /** For every table and every argv, declared or not: the rows cover it left to right. */
  lemma {:induction false} RowsCover(p: Platform, t: Table, argv: seq<string>, index: nat, next: nat)
    requires index <= |argv|
    ensures AllElements(Rows(p, t, argv, index, next)) == argv[index..]
    decreases |argv| - index
  {
    if index < |argv| {
      var rows := Rows(p, t, argv, index, next);
      if argv[index] in t.byFlag && !t.byFlag[argv[index]].valueless {
        if index + 1 < |argv| {
          RowsCover(p, t, argv, index + 2, next);
          assert rows[1..] == Rows(p, t, argv, index + 2, next);
          assert argv[index..] == [argv[index], argv[index + 1]] + argv[index + 2..];
        }
      } else {
        var n := if argv[index] in t.byFlag then next else next + 1;
        RowsCover(p, t, argv, index + 1, n);
        assert rows[1..] == Rows(p, t, argv, index + 1, n);
        assert argv[index..] == [argv[index]] + argv[index + 1..];
      }
    }
  }

  /** For every table and every argv, declared or not, the rows account for every element of it,
      left to right, once. */
  lemma {:induction false} AuditCovers(p: Platform, declared: seq<ShimArgument>, argv: seq<string>)
    ensures AllElements(Audit(p, declared, argv)) == argv
  {
    RowsCover(p, TableOf(declared), argv, 0, 0);
  }

  // ---------- Printing and reading back ----------

  /** One argument as a builder supplies it. */
  datatype Item =
    | Flagged(argument: ShimArgument, text: string)
    | Switch(argument: ShimArgument)
    | Positional(argument: ShimArgument, text: string)

  function Print(items: seq<Item>): seq<string> {
    if items == [] then [] else PrintItem(items[0]) + Print(items[1..])
  }

  function PrintItem(item: Item): seq<string> {
    match item
    case Flagged(a, text) => if a.flag.Some? then [a.flag.value, text] else [text]
    case Switch(a) => if a.flag.Some? then [a.flag.value] else []
    case Positional(_, text) => [text]
  }

  /** Items a table declares: flags found under their own declaration, with their arity, and the
      positionals in order, the first of them being number `next`. */
  predicate Fits(t: Table, items: seq<Item>, next: nat)
    decreases |items|
  {
    items != [] ==> FitsFirst(t, items[0], next)
                    && Fits(t, items[1..], if items[0].Positional? then next + 1 else next)
  }

  predicate FitsFirst(t: Table, item: Item, next: nat) {
    match item
    case Flagged(a, _) => Finds(t, a) && !a.valueless
    case Switch(a) => Finds(t, a) && a.valueless
    case Positional(a, text) =>
      next < |t.positionals| && a == t.positionals[next] && text !in t.byFlag
  }

  predicate Finds(t: Table, a: ShimArgument) {
    a.flag.Some? && a.flag.value in t.byFlag && t.byFlag[a.flag.value] == a
  }

  predicate DistinctFlags(declared: seq<ShimArgument>) {
    forall j, k | 0 <= j < k < |declared| && declared[j].flag.Some? :: declared[j].flag != declared[k].flag
  }

  /** The flags a table finds are the flags that were declared. */
  lemma {:induction false} TableKeys(declared: seq<ShimArgument>, token: string)
    ensures token in TableOf(declared).byFlag
       <==> exists k :: 0 <= k < |declared| && declared[k].flag == Some(token)
    decreases |declared|
  {
    if declared != [] {
      var n := |declared| - 1;
      TableKeys(declared[..n], token);
      if k :| 0 <= k < |declared[..n]| && declared[..n][k].flag == Some(token) {
        assert declared[k].flag == Some(token);
      }
      if k :| 0 <= k < |declared| && declared[k].flag == Some(token) {
        if k < n { assert declared[..n][k].flag == Some(token); }
      }
    }
  }

  /** Declaring flags adds no positional. */
  lemma {:induction false} FlagsAreNotPlaced(declared: seq<ShimArgument>, n: nat)
    requires n <= |declared| && forall k | n <= k < |declared| :: declared[k].flag.Some?
    ensures TableOf(declared).positionals == TableOf(declared[..n]).positionals
    decreases |declared|
  {
    if n == |declared| {
      assert declared[..n] == declared;
    } else {
      var front := declared[..|declared| - 1];
      FlagsAreNotPlaced(front, n);
      assert front[..n] == declared[..n];
    }
  }

  /** With distinct flags, every declaration is the one its flag finds. */
  lemma {:induction false} TableFinds(declared: seq<ShimArgument>, k: nat)
    requires DistinctFlags(declared) && k < |declared| && declared[k].flag.Some?
    ensures Finds(TableOf(declared), declared[k])
    decreases |declared|
  {
    var n := |declared| - 1;
    if k < n {
      assert declared[k].flag != declared[n].flag;
      TableFinds(declared[..n], k);
    }
  }

  /** The row that reads an item back as it was supplied. */
  function RowOf(p: Platform, item: Item): Row {
    match item
    case Flagged(a, text) => Row(a.flag, Some(a), Some(text), CheckForm(p, a.form, text))
    case Switch(a) => Row(a.flag, Some(a), None, None)
    case Positional(a, text) => Row(None, Some(a), Some(text), CheckForm(p, a.form, text))
  }

  function RowsOf(p: Platform, items: seq<Item>): seq<Row> {
    if items == [] then [] else [RowOf(p, items[0])] + RowsOf(p, items[1..])
  }

  /** Printing any items that fit a table and reading the result gives back exactly those items,
      one row each, in order, before the rows of whatever comes next. */
  lemma {:induction false} AuditReadsBack(p: Platform, t: Table, items: seq<Item>,
                                         argv: seq<string>, index: nat, next: nat)
    requires Fits(t, items, next)
    requires index + |Print(items)| <= |argv| && argv[index..index + |Print(items)|] == Print(items)
    ensures Rows(p, t, argv, index, next)
         == RowsOf(p, items) + Rows(p, t, argv, index + |Print(items)|, NextAfter(items, next))
    decreases |items|
  {
    if items != [] {
      var item, rest := items[0], items[1..];
      var i := index + |PrintItem(item)|;
      var m := if item.Positional? then next + 1 else next;
      var tail := Rows(p, t, argv, i + |Print(rest)|, NextAfter(rest, m));
      PrintedFirst(items, argv, index);
      assert Rows(p, t, argv, index, next) == [RowOf(p, item)] + Rows(p, t, argv, i, m) by {
        FirstRow(p, t, item, argv, index, next);
      }
      assert Rows(p, t, argv, i, m) == RowsOf(p, rest) + tail by {
        AuditReadsBack(p, t, rest, argv, i, m);
      }
      Regroup(RowOf(p, item), RowsOf(p, rest), tail);
    }
  }

  lemma {:induction false} Regroup(a: Row, b: seq<Row>, c: seq<Row>)
    ensures [a] + (b + c) == [a] + b + c
  {
  }

  lemma {:induction false} FirstRow(p: Platform, t: Table, item: Item, argv: seq<string>, index: nat, next: nat)
    requires FitsFirst(t, item, next)
    requires var n := |PrintItem(item)|; index + n <= |argv| && argv[index..index + n] == PrintItem(item)
    ensures Rows(p, t, argv, index, next)
         == [RowOf(p, item)] + Rows(p, t, argv, index + |PrintItem(item)|,
                                    if item.Positional? then next + 1 else next)
  {
    var n := |PrintItem(item)|;
    assert argv[index] == argv[index..index + n][0];
    if n > 1 { assert argv[index + 1] == argv[index..index + n][1]; }
  }

  function NextAfter(items: seq<Item>, next: nat): nat {
    if items == [] then next else NextAfter(items[1..], if items[0].Positional? then next + 1 else next)
  }

  lemma {:induction false} PrintedFirst(items: seq<Item>, argv: seq<string>, index: nat)
    requires items != []
    requires index + |Print(items)| <= |argv| && argv[index..index + |Print(items)|] == Print(items)
    ensures var n := |PrintItem(items[0])|;
            && |Print(items)| == n + |Print(items[1..])|
            && argv[index..index + n] == PrintItem(items[0])
            && argv[index + n..index + n + |Print(items[1..])|] == Print(items[1..])
  {
    StandsInParts(argv, index, PrintItem(items[0]), Print(items[1..]));
  }

  lemma {:induction false} StandsInParts(argv: seq<string>, index: nat, a: seq<string>, b: seq<string>)
    requires index + |a + b| <= |argv| && argv[index..index + |a + b|] == a + b
    ensures argv[index..index + |a|] == a && argv[index + |a|..index + |a| + |b|] == b
  {
    var both := argv[index..index + |a + b|];
    assert both[..|a|] == argv[index..index + |a|] && (a + b)[..|a|] == a;
    assert both[|a|..] == argv[index + |a|..index + |a| + |b|] && (a + b)[|a|..] == b;
  }

  /** The whole round trip: the audit of what was printed is exactly the rows of what was supplied. */
  lemma {:induction false} AuditOfPrint(p: Platform, declared: seq<ShimArgument>, items: seq<Item>)
    requires Fits(TableOf(declared), items, 0)
    ensures Audit(p, declared, Print(items)) == RowsOf(p, items)
  {
    var argv := Print(items);
    assert argv[0..0 + |argv|] == argv;
    AuditReadsBack(p, TableOf(declared), items, argv, 0, 0);
    assert RowsOf(p, items) + [] == RowsOf(p, items);
  }

  predicate Clean(rows: seq<Row>) {
    forall k | 0 <= k < |rows| :: rows[k].problem == None
  }

  /** A supplied value is of its declared form. */
  predicate ItemOk(p: Platform, item: Item) {
    item.Switch? || OfForm(p, item.argument.form, item.text)
  }

  lemma {:induction false} CleanMeans(p: Platform, items: seq<Item>)
    ensures |RowsOf(p, items)| == |items|
    ensures forall k | 0 <= k < |items| :: RowsOf(p, items)[k] == RowOf(p, items[k])
    ensures Clean(RowsOf(p, items)) <==> forall k | 0 <= k < |items| :: ItemOk(p, items[k])
    decreases |items|
  {
    if items != [] {
      CleanMeans(p, items[1..]);
      forall k | 0 <= k < |items| ensures RowsOf(p, items)[k] == RowOf(p, items[k]) {
        if k > 0 { assert items[1..][k - 1] == items[k]; }
      }
      assert forall k | 0 <= k < |items| :: RowOf(p, items[k]).problem == None <==> ItemOk(p, items[k]);
    }
  }

  /** A last element that is a flag is read as that flag, without a value. */
  lemma {:induction false} TrailingFlag(p: Platform, t: Table, body: seq<Item>, token: string)
    requires Fits(t, body, 0) && token in t.byFlag
    ensures var rows := Rows(p, t, Print(body) + [token], 0, 0);
            |rows| == |body| + 1 && rows[|body|].value == None
  {
    var argv, n := Print(body) + [token], |Print(body)|;
    assert argv[0..0 + n] == Print(body) && argv[n] == token;
    AuditReadsBack(p, t, body, argv, 0, 0);
    CleanMeans(p, body);
    assert |Rows(p, t, argv, n, NextAfter(body, 0))| == 1;
  }
}
