/** What the member scan answers on any text at all, JSON object or not (raw-frame.ts). */
module RoughFrame {
  import opened Options
  import opened JsonText
  import opened Spelling
  import opened RawFrame

  // ---------- A grammar of what the scan takes for members ----------

  /** A string's characters: a backslash takes the next one with it, whatever that is, and no quote
      stands on its own. */
  predicate Escaped(body: string, k: nat := 0)
    decreases |body| - k
  {
    if k >= |body| then k == |body|
    else if body[k] == '\\' then Escaped(body, k + 2)
    else body[k] != '\"' && Escaped(body, k + 1)
  }

  /** Characters, strings and groups: a group is closed by a bracket, not necessarily its own kind. */
  datatype Bits =
    | End
    | Plain(c: char, rest: Bits)
    | Str(body: string, rest: Bits)
    | Group(open: char, inside: Bits, close: char, rest: Bits)

  predicate ValidBits(bits: Bits) {
    match bits
    case End => true
    case Plain(c, rest) => c != '\"' && !Opens(c) && !Closes(c) && ValidBits(rest)
    case Str(body, rest) => Escaped(body) && ValidBits(rest)
    case Group(open, inside, close, rest) => Opens(open) && ValidBits(inside) && Closes(close) && ValidBits(rest)
  }

  function PrintBits(bits: Bits): string {
    match bits
    case End => ""
    case Plain(c, rest) => [c] + PrintBits(rest)
    case Str(body, rest) => Quoted(body) + PrintBits(rest)
    case Group(open, inside, close, rest) => [open] + (PrintBits(inside) + ([close] + PrintBits(rest)))
  }

  predicate ClosedString(t: string) {
    |t| >= 2 && t[0] == '\"' && t[|t| - 1] == '\"' && Escaped(t[1..|t| - 1])
  }

  ghost predicate Balanced(t: string) {
    exists open, inside, close ::
      Opens(open) && ValidBits(inside) && Closes(close) && t == [open] + (PrintBits(inside) + [close])
  }

  /** Anything that opens neither a string nor a group, up to what ends a literal; it may be empty. */
  predicate BareRun(t: string) {
    && (forall k | 0 <= k < |t| :: !EndsBare(t[k]))
    && (t != "" ==> t[0] != '\"' && !Opens(t[0]))
  }

  ghost predicate RoughText(t: string) { ClosedString(t) || Balanced(t) || BareRun(t) }

  /** What stands behind a value ends it. Only a bare run needs an end. */
  predicate Follows(s: string, end: nat, t: string)
    requires end <= |s|
  {
    BareRun(t) ==>
      if end == |s| then t != "" else EndsBare(s[end]) && (t == "" ==> !JsSpace(s[end]))
  }

  /** What the scan takes for a member: anything but a colon may stand between name and colon, and the
      value need not be one. */
  datatype Rough = Rough(gap: string, name: string, between: string, blanks: string, text: string)

  ghost predicate ValidRough(m: Rough) {
    Gap(m.gap) && Escaped(m.name) && ':' !in m.between && JsBlanks(m.blanks) && RoughText(m.text)
  }

  predicate Gap(t: string) { forall k | 0 <= k < |t| :: JsSpace(t[k]) || t[k] == ',' }

  predicate JsBlanks(t: string) { forall k | 0 <= k < |t| :: JsSpace(t[k]) }

  function PrintRough(m: Rough): string {
    m.gap + (Quoted(m.name) + (m.between + (":" + (m.blanks + m.text))))
  }

  /** Such a member stands at `i`. */
  ghost predicate RoughAt(s: string, i: nat, m: Rough) {
    ValidRough(m) && At(s, i, PrintRough(m)) && Follows(s, i + |PrintRough(m)|, m.text)
  }

  /** From `i` on stand these members, one behind the other, of which only the last is named `key`;
      its value is `t`, and that is JSON. */
  ghost predicate AnswersFrom(s: string, i: nat, ms: seq<Rough>, key: string, t: string)
    decreases |ms|
  {
    && ms != [] && RoughAt(s, i, ms[0])
    && if |ms| == 1 then ms[0].name == key && ms[0].text == t && Accepts(t)
       else ms[0].name != key && AnswersFrom(s, i + |PrintRough(ms[0])|, ms[1..], key, t)
  }

  /** Blanks, a brace, and such members. Nothing is asked of what follows. */
  ghost predicate Answers(s: string, key: string, t: string, opening: nat, ms: seq<Rough>) {
    && CharAt(s, opening, '{') && JsBlanks(s[..opening])
    && AnswersFrom(s, opening + 1, ms, key, t)
  }

  // ---------- Such a member is read ----------

  lemma {:induction false} EscapedSkips(s: string, i: nat, body: string, k: nat := 0)
    requires k <= |body| && Escaped(body, k) && At(s, i, body) && CharAt(s, i + |body|, '\"')
    ensures StringEnd(s, i + k) == i + |body| + 1
    decreases |body| - k
  {
    if k < |body| {
      assert body[k] == s[i + k];
      EscapedSkips(s, i, body, if body[k] == '\\' then k + 2 else k + 1);
    }
  }

  lemma {:induction false} BitsSkip(s: string, i: nat, bits: Bits, depth: int)
    requires ValidBits(bits) && At(s, i, PrintBits(bits)) && depth >= 1
    ensures NestedEnd(s, i, depth) == NestedEnd(s, i + |PrintBits(bits)|, depth)
    decreases bits
  {
    match bits
    case End =>
    case Plain(c, rest) =>
      PlainSkip(s, i, c, PrintBits(rest), depth);
      BitsSkip(s, i + 1, rest, depth);
    case Str(body, rest) =>
      StrSkip(s, i, body, PrintBits(rest), depth);
      BitsSkip(s, i + |Quoted(body)|, rest, depth);
    case Group(open, inside, close, rest) =>
      var width := |PrintBits(inside)| + 2;
      GroupSplit(s, i, open, PrintBits(inside), close, PrintBits(rest));
      BitsSkip(s, i + 1, inside, depth + 1);
      NestedAround(s, i, width, depth);
      BitsSkip(s, i + width, rest, depth);
  }

  lemma {:induction false} PlainSkip(s: string, i: nat, c: char, rest: string, depth: int)
    requires c != '\"' && !Opens(c) && !Closes(c) && At(s, i, [c] + rest)
    ensures At(s, i + 1, rest) && NestedEnd(s, i, depth) == NestedEnd(s, i + 1, depth) && |[c] + rest| == 1 + |rest|
  {
    AtSplit(s, i, [c], rest);
    AtOne(s, i, [c]);
  }

  lemma {:induction false} StrSkip(s: string, i: nat, body: string, rest: string, depth: int)
    requires Escaped(body) && At(s, i, Quoted(body) + rest)
    ensures At(s, i + |Quoted(body)|, rest) && NestedEnd(s, i, depth) == NestedEnd(s, i + |Quoted(body)|, depth)
  {
    AtSplit(s, i, Quoted(body), rest);
    QuotedSplit(s, i, body);
    EscapedSkips(s, i + 1, body);
  }

  lemma {:induction false} GroupSplit(s: string, i: nat, open: char, inside: string, close: char, rest: string)
    requires At(s, i, [open] + (inside + ([close] + rest)))
    ensures CharAt(s, i, open) && At(s, i + 1, inside) && CharAt(s, i + 1 + |inside|, close)
    ensures At(s, i + 2 + |inside|, rest) && |[open] + (inside + ([close] + rest))| == 2 + |inside| + |rest|
  {
    AtSplit(s, i, [open], inside + ([close] + rest));
    AtSplit(s, i + 1, inside, [close] + rest);
    AtSplit(s, i + 1 + |inside|, [close], rest);
    AtOne(s, i, [open]);
    AtOne(s, i + 1 + |inside|, [close]);
  }

  lemma {:induction false} BalancedStops(s: string, i: nat, t: string)
    requires Balanced(t) && At(s, i, t)
    ensures i < |s| && Opens(s[i]) && NestedEnd(s, i, 0) == i + |t|
  {
    var open, inside, close :|
      Opens(open) && ValidBits(inside) && Closes(close) && t == [open] + (PrintBits(inside) + [close]);
    assert [close] + "" == [close];
    GroupSplit(s, i, open, PrintBits(inside), close, "");
    BitsSkip(s, i + 1, inside, 1);
  }

  lemma {:induction false} RunStops(s: string, i: nat, n: nat)
    requires i + n <= |s| && (forall k | i <= k < i + n :: !EndsBare(s[k]))
    requires i + n < |s| ==> EndsBare(s[i + n])
    ensures BareEnd(s, i) == i + n
    decreases n
  {
    if n > 0 { RunStops(s, i + 1, n - 1); }
  }

  /** A value is scanned to exactly its own end. */
  lemma {:induction false} TextStops(s: string, i: nat, t: string)
    requires RoughText(t) && At(s, i, t) && Follows(s, i + |t|, t)
    ensures i < |s| && !JsSpace(s[i]) && ValueEnd(s, i) == i + |t|
  {
    if ClosedString(t) {
      StringStops(s, i, t);
    } else if Balanced(t) {
      BalancedStops(s, i, t);
    } else {
      BareStops(s, i, t);
    }
  }

  lemma {:induction false} StringStops(s: string, i: nat, t: string)
    requires ClosedString(t) && At(s, i, t)
    ensures i < |s| && s[i] == '\"' && StringEnd(s, i + 1) == i + |t|
  {
    var body := t[1..|t| - 1];
    assert s[i] == t[0] && s[i + (|t| - 1)] == t[|t| - 1];
    forall k | 0 <= k < |body| ensures s[i + 1 + k] == body[k] { assert s[i + (k + 1)] == t[k + 1]; }
    EscapedSkips(s, i + 1, body);
  }

  lemma {:induction false} BareStops(s: string, i: nat, t: string)
    requires BareRun(t) && At(s, i, t) && Follows(s, i + |t|, t)
    ensures i < |s| && !JsSpace(s[i]) && s[i] != '\"' && !Opens(s[i]) && BareEnd(s, i) == i + |t|
  {
    forall k | i <= k < i + |t| ensures !EndsBare(s[k]) { assert s[i + (k - i)] == t[k - i]; }
    if t != "" { assert s[i + 0] == t[0]; }
    RunStops(s, i, |t|);
  }

  lemma {:induction false} GapSkips(s: string, i: nat, j: nat)
    requires i <= j <= |s| && forall k | i <= k < j :: JsSpace(s[k]) || s[k] == ','
    ensures NextEntry(s, i) == NextEntry(s, j)
    decreases j - i
  {
    if i < j { GapSkips(s, i + 1, j); }
  }

  lemma {:induction false} BlanksSkip(s: string, i: nat, j: nat)
    requires i <= j <= |s| && forall k | i <= k < j :: JsSpace(s[k])
    ensures SkipSpace(s, i) == SkipSpace(s, j)
    decreases j - i
  {
    if i < j { BlanksSkip(s, i + 1, j); }
  }

  lemma {:induction false} ColonBehind(s: string, i: nat, j: nat)
    requires i <= j && CharAt(s, j, ':') && forall k | i <= k < j :: s[k] != ':'
    ensures IndexOf(s, ':', i) == j
    decreases j - i
  {
    if i < j { ColonBehind(s, i + 1, j); }
  }

  /** Where the parts of a member stand. */
  predicate Parts(s: string, i: nat, m: Rough, open: nat, nameEnd: nat, colon: nat, start: nat, end: nat) {
    && open == i + |m.gap| && nameEnd == open + |m.name| + 2 && colon == nameEnd + |m.between|
    && start == colon + 1 + |m.blanks| && end == start + |m.text|
    && At(s, i, m.gap) && QuotedAt(s, open, m.name) && At(s, nameEnd, m.between) && CharAt(s, colon, ':')
    && At(s, colon + 1, m.blanks) && At(s, start, m.text)
  }

  lemma {:induction false} PartsOf(s: string, i: nat, m: Rough)
    returns (open: nat, nameEnd: nat, colon: nat, start: nat, end: nat)
    requires At(s, i, PrintRough(m))
    ensures Parts(s, i, m, open, nameEnd, colon, start, end) && end == i + |PrintRough(m)|
  {
    open := i + |m.gap|;
    nameEnd := open + |m.name| + 2;
    colon := nameEnd + |m.between|;
    start := colon + 1 + |m.blanks|;
    end := start + |m.text|;
    AtSplit(s, i, m.gap, Quoted(m.name) + (m.between + (":" + (m.blanks + m.text))));
    AtSplit(s, open, Quoted(m.name), m.between + (":" + (m.blanks + m.text)));
    QuotedSplit(s, open, m.name);
    AtSplit(s, nameEnd, m.between, ":" + (m.blanks + m.text));
    AtSplit(s, colon, ":", m.blanks + m.text);
    AtOne(s, colon, ":");
    AtSplit(s, colon + 1, m.blanks, m.text);
  }

  lemma {:induction false} GapIsSkipped(s: string, i: nat, gap: string, open: nat)
    requires At(s, i, gap) && Gap(gap) && open == i + |gap| && CharAt(s, open, '\"')
    ensures NextEntry(s, i) == ReadEntry(s, open)
  {
    forall k | i <= k < open ensures JsSpace(s[k]) || s[k] == ',' { assert s[i + (k - i)] == gap[k - i]; }
    GapSkips(s, i, open);
  }

  lemma {:induction false} NameIsRead(s: string, open: nat, name: string, nameEnd: nat)
    requires Escaped(name) && QuotedAt(s, open, name) && nameEnd == open + |name| + 2
    ensures StringEnd(s, open + 1) == nameEnd && s[open + 1..nameEnd - 1] == name
  {
    EscapedSkips(s, open + 1, name);
  }

  lemma {:induction false} ColonIsFound(s: string, i: nat, between: string, colon: nat)
    requires ':' !in between && At(s, i, between) && colon == i + |between| && CharAt(s, colon, ':')
    ensures IndexOf(s, ':', i) == colon
  {
    forall k | i <= k < colon ensures s[k] != ':' { assert s[i + (k - i)] == between[k - i]; }
    ColonBehind(s, i, colon);
  }

  lemma {:induction false} BlanksAreSkipped(s: string, i: nat, blanks: string, start: nat)
    requires At(s, i, blanks) && JsBlanks(blanks)
    requires start == i + |blanks| < |s| && !JsSpace(s[start])
    ensures SkipSpace(s, i) == start
  {
    forall k | i <= k < start ensures JsSpace(s[k]) { assert s[i + (k - i)] == blanks[k - i]; }
    BlanksSkip(s, i, start);
  }

  lemma {:induction false} PartsRead(s: string, i: nat, m: Rough, open: nat, nameEnd: nat, colon: nat, start: nat,
        end: nat)
    requires ValidRough(m) && Parts(s, i, m, open, nameEnd, colon, start, end) && Follows(s, end, m.text)
    ensures NextEntry(s, i) == Some(Entry(m.name, start, end))
  {
    GapIsSkipped(s, i, m.gap, open);
    NameIsRead(s, open, m.name, nameEnd);
    ColonIsFound(s, nameEnd, m.between, colon);
    TextStops(s, start, m.text);
    BlanksAreSkipped(s, colon + 1, m.blanks, start);
    ReadEntryIs(s, open, nameEnd, colon, start, end);
  }

  lemma {:induction false} RoughIsRead(s: string, i: nat, m: Rough) returns (e: Entry)
    requires RoughAt(s, i, m)
    ensures NextEntry(s, i) == Some(e) && e.name == m.name && e.end == i + |PrintRough(m)|
    ensures s[e.start..e.end] == m.text
  {
    var open, nameEnd, colon, start, end := PartsOf(s, i, m);
    PartsRead(s, i, m, open, nameEnd, colon, start, end);
    e := Entry(m.name, start, end);
  }

  /** `t` is what stands at the entry found for `key`, and it is JSON. */
  ghost predicate Finds(s: string, i: nat, key: string, t: string) {
    var e := FindEntry(s, i, key);
    e.Some? && s[e.value.start..e.value.end] == t && Accepts(t)
  }

  lemma {:induction false} FindsNext(s: string, i: nat, key: string, t: string, e: Entry)
    requires NextEntry(s, i) == Some(e)
    ensures Finds(s, i, key, t) <==>
            if e.name == key then s[e.start..e.end] == t && Accepts(t) else Finds(s, e.end, key, t)
  {
  }

  lemma {:induction false} ListIsFound(s: string, i: nat, ms: seq<Rough>, key: string, t: string)
    requires AnswersFrom(s, i, ms, key, t)
    ensures Finds(s, i, key, t)
    decreases |ms|
  {
    var e := RoughIsRead(s, i, ms[0]);
    if |ms| > 1 { ListIsFound(s, e.end, ms[1..], key, t); }
    FindsNext(s, i, key, t, e);
  }

  // ---------- What is read is such a member ----------

  lemma {:induction false} StringIsEscaped(s: string, i: nat, k: nat)
    requires StringEnd(s, i + k) != -1
    ensures i + k < StringEnd(s, i + k) && Escaped(s[i..StringEnd(s, i + k) - 1], k)
    decreases |s| - (i + k)
  {
    if s[i + k] == '\\' {
      StringIsEscaped(s, i, k + 2);
    } else if s[i + k] != '\"' {
      StringIsEscaped(s, i, k + 1);
    }
  }

  /** From `i` to the bracket at `k`, which closes the innermost group, stand these bits. */
  predicate BitsUpTo(s: string, i: nat, depth: int, bits: Bits, k: nat) {
    && ValidBits(bits) && i <= k < |s| && s[i..k] == PrintBits(bits) && Closes(s[k])
    && NestedEnd(s, i, depth) == if depth == 1 then k + 1 else NestedEnd(s, k + 1, depth - 1)
  }

  lemma {:induction false} NestedIsBits(s: string, i: nat, depth: int) returns (bits: Bits, k: nat)
    requires depth >= 1 && NestedEnd(s, i, depth) != -1
    ensures BitsUpTo(s, i, depth, bits, k)
    decreases |s| - i
  {
    var c := s[i];
    var rest;
    if c == '\"' {
      rest, k := NestedIsBits(s, StringEnd(s, i + 1), depth);
      bits := StrBits(s, i, depth, rest, k);
    } else if Opens(c) {
      var inside, close := NestedIsBits(s, i + 1, depth + 1);
      rest, k := NestedIsBits(s, close + 1, depth);
      bits := GroupBits(s, i, depth, inside, close, rest, k);
    } else if Closes(c) {
      bits, k := End, i;
    } else {
      rest, k := NestedIsBits(s, i + 1, depth);
      bits := PlainBits(s, i, depth, rest, k);
    }
  }

  lemma {:induction false} PlainBits(s: string, i: nat, depth: int, rest: Bits, k: nat) returns (bits: Bits)
    requires i < |s| && s[i] != '\"' && !Opens(s[i]) && !Closes(s[i]) && BitsUpTo(s, i + 1, depth, rest, k)
    ensures BitsUpTo(s, i, depth, bits, k)
  {
    bits := Plain(s[i], rest);
    HeadSplit(s, i, k);
  }

  lemma {:induction false} StrBits(s: string, i: nat, depth: int, rest: Bits, k: nat) returns (bits: Bits)
    requires i < |s| && s[i] == '\"' && StringEnd(s, i + 1) != -1
    requires BitsUpTo(s, StringEnd(s, i + 1), depth, rest, k)
    ensures BitsUpTo(s, i, depth, bits, k)
  {
    var after := StringEnd(s, i + 1);
    StringIsEscaped(s, i + 1, 0);
    bits := Str(s[i + 1..after - 1], rest);
    StringJoins(s, i, after, k);
  }

  lemma {:induction false} GroupBits(s: string, i: nat, depth: int, inside: Bits, close: nat, rest: Bits, k: nat)
    returns (bits: Bits)
    requires i < |s| && Opens(s[i]) && depth >= 1
    requires BitsUpTo(s, i + 1, depth + 1, inside, close) && BitsUpTo(s, close + 1, depth, rest, k)
    ensures BitsUpTo(s, i, depth, bits, k)
  {
    bits := Group(s[i], inside, s[close], rest);
    GroupJoins(s, i, close, k);
  }

  lemma {:induction false} StringJoins(s: string, i: nat, after: nat, k: nat)
    requires i + 1 < after <= k <= |s| && s[i] == '\"' && s[after - 1] == '\"'
    ensures s[i..k] == Quoted(s[i + 1..after - 1]) + s[after..k]
  {
    SplitAt(s, i, after, k);
    QuotedStretch(s, i, after);
  }

  lemma {:induction false} GroupJoins(s: string, i: nat, close: nat, k: nat)
    requires i < close < k <= |s|
    ensures s[i..k] == [s[i]] + (s[i + 1..close] + ([s[close]] + s[close + 1..k]))
  {
    HeadSplit(s, i, k);
    SplitAt(s, i + 1, close, k);
    HeadSplit(s, close, k);
  }

  lemma {:induction false} NestedIsBalanced(s: string, i: nat)
    requires i < |s| && Opens(s[i]) && NestedEnd(s, i, 0) != -1
    ensures Balanced(s[i..NestedEnd(s, i, 0)])
  {
    var inside, k := NestedIsBits(s, i + 1, 1);
    assert s[i..k + 1] == [s[i]] + (PrintBits(inside) + [s[k]]);
  }

  lemma {:induction false} BareIsRun(s: string, i: nat)
    requires i <= |s|
    ensures var end := BareEnd(s, i); end < |s| ==> EndsBare(s[end])
    decreases |s| - i
  {
    if i < |s| && !EndsBare(s[i]) { BareIsRun(s, i + 1); }
  }

  lemma {:induction false} TextIsRough(s: string, i: nat)
    requires i < |s| && !JsSpace(s[i]) && ValueEnd(s, i) != -1
    ensures var end := ValueEnd(s, i); RoughText(s[i..end]) && Follows(s, end, s[i..end])
  {
    var end := ValueEnd(s, i);
    if s[i] == '\"' {
      StringIsEscaped(s, i + 1, 0);
      assert s[i..end][1..end - i - 1] == s[i + 1..end - 1];
    } else if Opens(s[i]) {
      NestedIsBalanced(s, i);
    } else {
      BareIsRun(s, i);
      BareIsSpaceless(s, i);
    }
  }

  lemma {:induction false} GapIsRough(s: string, i: nat) returns (open: nat)
    requires NextEntry(s, i).Some?
    ensures i <= open < |s| && s[open] == '\"' && NextEntry(s, i) == ReadEntry(s, open)
    ensures Gap(s[i..open])
    decreases |s| - i
  {
    if JsSpace(s[i]) || s[i] == ',' {
      open := GapIsRough(s, i + 1);
      HeadSplit(s, i, open);
    } else {
      open := i;
    }
  }

  lemma {:induction false} HeadSplit(s: string, i: nat, k: nat)
    requires i < k <= |s|
    ensures s[i..k] == [s[i]] + s[i + 1..k]
  {
  }

  lemma {:induction false} ColonIsFirst(s: string, i: nat)
    requires i <= |s| && IndexOf(s, ':', i) != -1
    ensures ':' !in s[i..IndexOf(s, ':', i)]
    decreases |s| - i
  {
    if s[i] != ':' {
      ColonIsFirst(s, i + 1);
      HeadSplit(s, i, IndexOf(s, ':', i));
    }
  }

  lemma {:induction false} BlanksAreBlank(s: string, i: nat)
    requires i <= |s|
    ensures JsBlanks(s[i..SkipSpace(s, i)])
    decreases |s| - i
  {
    if i < |s| && JsSpace(s[i]) {
      BlanksAreBlank(s, i + 1);
      HeadSplit(s, i, SkipSpace(s, i));
    }
  }

  /** Where the scan found the parts of a member. */
  predicate Found(s: string, open: nat, nameEnd: nat, colon: nat, start: nat, end: nat) {
    && open < |s| && s[open] == '\"' && StringEnd(s, open + 1) == nameEnd
    && nameEnd <= |s| && IndexOf(s, ':', nameEnd) == colon
    && SkipSpace(s, colon + 1) == start && start < |s| && ValueEnd(s, start) == end
  }

  lemma {:induction false} ReadIsFound(s: string, open: nat)
    returns (nameEnd: nat, colon: nat, start: nat, end: nat)
    requires open < |s| && s[open] == '\"' && ReadEntry(s, open).Some?
    ensures Found(s, open, nameEnd, colon, start, end)
    ensures ReadEntry(s, open) == Some(Entry(s[open + 1..nameEnd - 1], start, end))
  {
    nameEnd := StringEnd(s, open + 1);
    colon := IndexOf(s, ':', nameEnd);
    start := SkipSpace(s, colon + 1);
    end := ValueEnd(s, start);
  }

  lemma {:induction false} FoundIsRough(s: string, i: nat, open: nat, nameEnd: nat, colon: nat, start: nat, end: nat)
    returns (m: Rough)
    requires Found(s, open, nameEnd, colon, start, end)
    requires i <= open && Gap(s[i..open])
    ensures m == Rough(s[i..open], s[open + 1..nameEnd - 1], s[nameEnd..colon], s[colon + 1..start], s[start..end])
    ensures ValidRough(m) && Follows(s, end, m.text)
  {
    StringIsEscaped(s, open + 1, 0);
    ColonIsFirst(s, nameEnd);
    BlanksAreBlank(s, colon + 1);
    SpaceStops(s, colon + 1);
    TextIsRough(s, start);
    m := Rough(s[i..open], s[open + 1..nameEnd - 1], s[nameEnd..colon], s[colon + 1..start], s[start..end]);
  }

  /** The member that was read, piece by piece. */
  lemma {:induction false} ReadIsRough(s: string, i: nat, open: nat) returns (m: Rough)
    requires i <= open < |s| && s[open] == '\"' && ReadEntry(s, open).Some?
    requires Gap(s[i..open])
    ensures var e := ReadEntry(s, open).value;
            && ValidRough(m) && s[i..e.end] == PrintRough(m) && m.name == e.name && m.text == s[e.start..e.end]
            && Follows(s, e.end, m.text)
  {
    var nameEnd, colon, start, end := ReadIsFound(s, open);
    m := FoundIsRough(s, i, open, nameEnd, colon, start, end);
    PiecesJoin(s, i, open, nameEnd, colon, start, end);
  }

  lemma {:induction false} PiecesJoin(s: string, i: nat, open: nat, nameEnd: nat, colon: nat, start: nat, end: nat)
    requires i <= open < nameEnd - 1 < nameEnd <= colon < start <= end <= |s|
    requires s[open] == s[nameEnd - 1] == '\"' && s[colon] == ':'
    ensures s[i..end] == s[i..open] + (Quoted(s[open + 1..nameEnd - 1])
                         + (s[nameEnd..colon] + (":" + (s[colon + 1..start] + s[start..end]))))
  {
    SplitAt(s, colon + 1, start, end);
    HeadSplit(s, colon, end);
    SplitAt(s, nameEnd, colon, end);
    QuotedStretch(s, open, nameEnd);
    SplitAt(s, open, nameEnd, end);
    SplitAt(s, i, open, end);
  }

  lemma {:induction false} QuotedStretch(s: string, i: nat, k: nat)
    requires i < k - 1 < k <= |s| && s[i] == s[k - 1] == '\"'
    ensures s[i..k] == Quoted(s[i + 1..k - 1])
  {
    HeadSplit(s, i, k);
    SplitAt(s, i + 1, k - 1, k);
  }

  lemma {:induction false} SplitAt(s: string, i: nat, j: nat, k: nat)
    requires i <= j <= k <= |s|
    ensures s[i..k] == s[i..j] + s[j..k]
  {
  }

  lemma {:induction false} NextIsRough(s: string, i: nat) returns (m: Rough)
    requires NextEntry(s, i).Some?
    ensures var e := NextEntry(s, i).value;
            RoughAt(s, i, m) && i + |PrintRough(m)| == e.end && m.name == e.name && m.text == s[e.start..e.end]
  {
    var open := GapIsRough(s, i);
    m := ReadIsRough(s, i, open);
    StretchStands(s, i, NextEntry(s, i).value.end);
  }

  lemma {:induction false} StretchStands(s: string, i: nat, j: nat)
    requires i <= j <= |s|
    ensures At(s, i, s[i..j]) && |s[i..j]| == j - i
  {
  }

  lemma {:induction false} ListOf(s: string, i: nat, key: string, t: string) returns (ms: seq<Rough>)
    requires Finds(s, i, key, t)
    ensures AnswersFrom(s, i, ms, key, t)
    decreases |s| - i
  {
    var e := NextEntry(s, i).value;
    var m := NextIsRough(s, i);
    FindsNext(s, i, key, t, e);
    if e.name == key {
      ms := [m];
    } else {
      var rest := ListOf(s, e.end, key, t);
      ms := ListMore(s, i, m, rest, key, t);
    }
  }

  lemma {:induction false} ListMore(s: string, i: nat, m: Rough, rest: seq<Rough>, key: string, t: string)
    returns (ms: seq<Rough>)
    requires RoughAt(s, i, m) && m.name != key && AnswersFrom(s, i + |PrintRough(m)|, rest, key, t)
    ensures AnswersFrom(s, i, ms, key, t) && ms == [m] + rest
  {
    ms := [m] + rest;
    assert ms[1..] == rest;
  }

  // ---------- Exactly what is answered ----------

  lemma {:induction false} SliceFinds(s: string, key: string, t: string, parses: string -> bool)
    requires forall x :: parses(x) <==> Accepts(x)
    ensures var opening := IndexOf(s, '{', 0);
            Slice(s, key, parses) == Some(t) <==>
            opening != -1 && JsBlanks(s[..opening]) && Finds(s, opening + 1, key, t)
  {
    var opening := IndexOf(s, '{', 0);
    if opening != -1 { assert JsBlanks(s[..opening]) <==> forall k | 0 <= k < opening :: JsSpace(s[k]); }
  }

  lemma {:induction false} AnswersFound(s: string, key: string, t: string, opening: nat, ms: seq<Rough>)
    requires Answers(s, key, t, opening, ms)
    ensures IndexOf(s, '{', 0) == opening && JsBlanks(s[..opening]) && Finds(s, opening + 1, key, t)
  {
    forall k | 0 <= k < opening ensures JsSpace(s[k]) { assert s[k] == s[..opening][k]; }
    FirstBrace(s, 0, opening);
    ListIsFound(s, opening + 1, ms, key, t);
  }

  /** On any text at all: the slice is `t` exactly where behind blanks and a brace stand members, however
      rough, of which the last is the first named `key` and its value `t` is JSON. That it is one
      object is not asked. */
  lemma {:induction false} SliceExactly(s: string, key: string, t: string, parses: string -> bool)
    requires forall x :: parses(x) <==> Accepts(x)
    ensures Slice(s, key, parses) == Some(t) <==> exists opening: nat, ms :: Answers(s, key, t, opening, ms)
  {
    SliceFinds(s, key, t, parses);
    if Slice(s, key, parses) == Some(t) {
      var opening := IndexOf(s, '{', 0);
      var ms := ListOf(s, opening + 1, key, t);
      assert Answers(s, key, t, opening, ms);
    }
    if opening: nat, ms :| Answers(s, key, t, opening, ms) { AnswersFound(s, key, t, opening, ms); }
  }

  /** So the promise of null for a text that is no JSON object is kept exactly where no such members stand
      in it. */
  lemma {:induction false} NullExactly(s: string, key: string, parses: string -> bool)
    requires forall x :: parses(x) <==> Accepts(x)
    ensures Slice(s, key, parses) == None <==> forall t, opening: nat, ms :: !Answers(s, key, t, opening, ms)
  {
    forall t, opening: nat, ms | Answers(s, key, t, opening, ms) ensures Slice(s, key, parses) == Some(t) {
      SliceExactly(s, key, t, parses);
    }
    if Slice(s, key, parses).Some? { SliceExactly(s, key, Slice(s, key, parses).value, parses); }
  }

  // ---------- Texts that are no object ----------

  /** Nothing behind an object is looked at. A text that goes on behind it with anything whose last
      character is no blank and no brace is no JSON text, and is answered exactly where the object has
      such a member, as for the object alone. */
  lemma {:induction false} TrailedFrameAnswers(obj: Json, trail: string, key: string, parses: string -> bool)
    requires obj.Obj? && Valid(obj) && trail != ""
    requires var last := trail[|trail| - 1]; !JsSpace(last) && last != '}'
    requires forall t :: parses(t) <==> Accepts(t)
    ensures var s := Print(obj) + trail;
            && !Accepts(s)
            && Slice(s, key, parses) == Slice(Print(obj), key, parses)
            && (Slice(s, key, parses).Some? <==> FirstNamed(obj.members, key).Member?)
  {
    var s := Print(obj) + trail;
    assert s == "" + Print(obj) + trail && Print(obj) == "" + Print(obj) + "";
    SliceOfObject(s, "", obj, trail, key, parses);
    SliceOfObject(Print(obj), "", obj, "", key, parses);
    assert s[0] == '{' && s[|s| - 1] == trail[|trail| - 1];
    if Accepts(s) { OpensWithBrace(s); assert false; }
  }

  lemma {:induction false} OpensWithBrace(text: string)
    requires Accepts(text) && text != "" && text[0] == '{' && !JsSpace(text[|text| - 1])
    ensures text[|text| - 1] == '}'
  {
    NoBlankEdges(text);
    var v :| Valid(v) && text == Print(v);
    if v.Bare? { BareTokenChars(v.token); }
  }

  lemma {:induction false} ValueIsRough(v: Json)
    requires Valid(v)
    ensures RoughText(Print(v)) && Print(v) != ""
  {
    var t := Print(v);
    assert At(t, 0, t);
    PrintSpells(t, 0, v);
    ValueStops(t, 0, v);
    TextIsRough(t, 0);
    assert t[0..|t|] == t;
  }

  lemma {:induction false} BodyIsEscaped(body: string, k: nat := 0)
    requires k <= |body| && StringBody(body, k)
    ensures Escaped(body, k)
    decreases |body| - k
  {
    if k < |body| {
      if body[k] != '\\' {
        BodyIsEscaped(body, k + 1);
      } else if k + 1 < |body| && ShortEscape(body[k + 1]) {
        BodyIsEscaped(body, k + 2);
      } else {
        BodyIsEscaped(body, k + 6);
        HexIsEscaped(body, k + 2);
      }
    }
  }

  lemma {:induction false} HexIsEscaped(body: string, k: nat)
    requires k + 4 <= |body| && Escaped(body, k + 4)
    requires Hex(body[k]) && Hex(body[k + 1]) && Hex(body[k + 2]) && Hex(body[k + 3])
    ensures Escaped(body, k)
  {
    assert Escaped(body, k + 3);
    assert Escaped(body, k + 2);
    assert Escaped(body, k + 1);
  }

  /** An object of one member of which name and colon are `rubbish` apart. */
  function Rubbished(name: string, rubbish: string, text: string): string {
    "{" + (PrintRough(Rough("", name, rubbish, "", text)) + "}")
  }

  lemma {:induction false} RubbishedStands(name: string, rubbish: string, text: string)
    ensures var s, m := Rubbished(name, rubbish, text), Rough("", name, rubbish, "", text);
            CharAt(s, 0, '{') && At(s, 1, PrintRough(m)) && CharAt(s, 1 + |PrintRough(m)|, '}')
  {
    BracedStands(Rubbished(name, rubbish, text), PrintRough(Rough("", name, rubbish, "", text)));
  }

  lemma {:induction false} BracedStands(s: string, inside: string)
    requires s == "{" + (inside + "}")
    ensures CharAt(s, 0, '{') && At(s, 1, inside) && CharAt(s, 1 + |inside|, '}')
  {
  }

  lemma {:induction false} RubbishedObject(name: string, rubbish: string, v: Json)
    requires StringBody(name) && Valid(v) && Blanks(rubbish)
    ensures Accepts(Rubbished(name, rubbish, Print(v)))
  {
    var m, s := Member("", name, rubbish, "", v, "", NoMembers), Rubbished(name, rubbish, Print(v));
    assert Print(v) + (m.after + CommaMembers(m.rest)) == Print(v);
    assert PrintMembers(m) == PrintRough(Rough("", name, rubbish, "", Print(v)));
    assert Print(Obj("", m)) == s && Valid(Obj("", m)) && Blanks("") && s == "" + s + "";
  }

  /** The first member of an object that stands at 0, with nothing before its name. */
  lemma {:induction false} FirstStands(s: string, obj: Json) returns (m: Members)
    requires obj.Obj? && Valid(obj) && ValueAt(s, 0, obj) && CharAt(s, 1, '\"')
    ensures m.Member? && StringBody(m.name) && Blanks(m.afterName) && QuotedAt(s, 1, m.name)
    ensures At(s, 3 + |m.name|, m.afterName) && CharAt(s, 3 + |m.name| + |m.afterName|, ':')
  {
    m := obj.members;
    BlankHead(s, 1, obj.pad);
    assert m.Member?;
    BlankHead(s, 1, m.before);
  }

  lemma {:induction false} BlankHead(s: string, i: nat, blanks: string)
    requires At(s, i, blanks) && Blanks(blanks) && i < |s|
    ensures blanks == "" || Blank(s[i])
  {
    if blanks != "" { assert s[i + 0] == blanks[0]; }
  }

  lemma {:induction false} RubbishIsBlank(s: string, name: string, rubbish: string, m: Members)
    requires Escaped(name) && QuotedAt(s, 1, name) && ':' !in rubbish && At(s, 3 + |name|, rubbish)
    requires CharAt(s, 3 + |name| + |rubbish|, ':')
    requires m.Member? && StringBody(m.name) && Blanks(m.afterName) && QuotedAt(s, 1, m.name)
    requires At(s, 3 + |m.name|, m.afterName) && CharAt(s, 3 + |m.name| + |m.afterName|, ':')
    ensures Blanks(rubbish)
  {
    var i := 3 + |name|;
    BodyIsEscaped(m.name);
    EscapedSkips(s, 2, name);
    EscapedSkips(s, 2, m.name);
    ColonIsFound(s, i, rubbish, i + |rubbish|);
    ColonIsFound(s, i, m.afterName, i + |m.afterName|);
    forall k | 0 <= k < |rubbish| ensures Blank(rubbish[k]) { assert rubbish[k] == s[i + k] == m.afterName[k]; }
  }

  /** Nor is what stands between a name and its colon: whatever it is, the member is answered, and the
      text is JSON exactly where it is blank. */
  lemma {:induction false} RubbishBeforeColonAnswers(name: string, rubbish: string, v: Json, parses: string -> bool)
    requires StringBody(name) && Valid(v) && ':' !in rubbish
    requires forall t :: parses(t) <==> Accepts(t)
    ensures var s := Rubbished(name, rubbish, Print(v));
            Slice(s, name, parses) == Some(Print(v)) && (Accepts(s) <==> Blanks(rubbish))
  {
    var s, m := Rubbished(name, rubbish, Print(v)), Rough("", name, rubbish, "", Print(v));
    RubbishedStands(name, rubbish, Print(v));
    BodyIsEscaped(name);
    ValueIsRough(v);
    assert Blanks("") && Print(v) == "" + Print(v) + "";
    assert Answers(s, name, Print(v), 0, [m]);
    SliceExactly(s, name, Print(v), parses);
    if Blanks(rubbish) { RubbishedObject(name, rubbish, v); }
    if Accepts(s) { RubbishedAccepted(name, rubbish, Print(v)); }
  }

  lemma {:induction false} RubbishedAccepted(name: string, rubbish: string, text: string)
    requires Escaped(name) && ':' !in rubbish && Accepts(Rubbished(name, rubbish, text))
    ensures Blanks(rubbish)
  {
    var s, m := Rubbished(name, rubbish, text), Rough("", name, rubbish, "", text);
    RubbishedStands(name, rubbish, text);
    var open, nameEnd, colon, start, end := PartsOf(s, 1, m);
    var first := AcceptedFirst(s);
    RubbishIsBlank(s, name, rubbish, first);
  }

  lemma {:induction false} AcceptedFirst(s: string) returns (m: Members)
    requires Accepts(s) && CharAt(s, 0, '{') && CharAt(s, 1, '\"') && !JsSpace(s[|s| - 1])
    ensures m.Member? && StringBody(m.name) && Blanks(m.afterName) && QuotedAt(s, 1, m.name)
    ensures At(s, 3 + |m.name|, m.afterName) && CharAt(s, 3 + |m.name| + |m.afterName|, ':')
  {
    NoBlankEdges(s);
    var obj :| Valid(obj) && s == Print(obj);
    if obj.Bare? { BareTokenChars(obj.token); }
    assert At(s, 0, Print(obj));
    PrintSpells(s, 0, obj);
    m := FirstStands(s, obj);
  }

  const MALFORMED := "{\"x\":tru \"a\":1"

  lemma {:induction false} MalformedFirst()
    ensures var m := Rough("", "x", "", "", "tru");
            RoughAt(MALFORMED, 1, m) && |PrintRough(m)| == 7
  {
    PlainRough(Rough("", "x", "", "", "tru"));
    assert Quoted("x") == "\"x\"" && PrintRough(Rough("", "x", "", "", "tru")) == "\"x\":tru";
    assert Escaped("x");
  }

  lemma {:induction false} MalformedLast()
    ensures AnswersFrom(MALFORMED, 8, [Rough(" ", "a", "", "", "1")], "a", "1")
  {
    PlainRough(Rough(" ", "a", "", "", "1"));
    assert Quoted("a") == "\"a\"" && PrintRough(Rough(" ", "a", "", "", "1")) == " \"a\":1";
    assert Escaped("a") && Number("1");
    NumberIsAccepted("1");
  }

  /** Nor need what is passed over be JSON, or a comma stand behind it. */
  lemma {:induction false} MalformedTextAnswers(parses: string -> bool)
    requires forall t :: parses(t) <==> Accepts(t)
    ensures Slice("{\"x\":tru \"a\":1", "a", parses) == Some("1") && !Accepts("{\"x\":tru \"a\":1")
  {
    MalformedFirst();
    MalformedLast();
    var ms := ListMore(MALFORMED, 1, Rough("", "x", "", "", "tru"), [Rough(" ", "a", "", "", "1")], "a", "1");
    assert Answers(MALFORMED, "a", "1", 0, ms);
    SliceExactly(MALFORMED, "a", "1", parses);
    MalformedIsNoText();
  }

  lemma {:induction false} MalformedIsNoText()
    ensures !Accepts(MALFORMED)
  {
    if Accepts(MALFORMED) { OpensWithBrace(MALFORMED); assert false; }
  }

  lemma {:induction false} PlainRough(m: Rough)
    requires m.between == "" && m.blanks == ""
    ensures PrintRough(m) == m.gap + (Quoted(m.name) + (":" + m.text))
  {
    assert m.between + (":" + (m.blanks + m.text)) == ":" + m.text;
  }
}
