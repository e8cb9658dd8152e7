/** Taking one member out of a JSON frame without reformatting it (raw-frame.ts). */
module RawFrame {
  import opened Options
  import opened JsonText
  import opened Spelling

  // ---------- What each scanning loop computes ----------

  /** The characters `\s` matches and `trim` strips: WhiteSpace and LineTerminator of ECMA-262. */
  predicate JsSpace(c: char) {
    '\t' <= c <= '\r' || c == ' ' || (c >= '\U{00A0}' && WideSpace(c))
  }

  predicate WideSpace(c: char) {
    || c == '\U{00A0}' || c == '\U{1680}' || '\U{2000}' <= c <= '\U{200A}' || c == '\U{2028}'
    || c == '\U{2029}' || c == '\U{202F}' || c == '\U{205F}' || c == '\U{3000}' || c == '\U{FEFF}'
  }

  predicate Opens(c: char) { c == '{' || c == '[' }

  predicate Closes(c: char) { c == '}' || c == ']' }

  predicate EndsBare(c: char) { c == ',' || Closes(c) || JsSpace(c) }

  /** The index after the closing quote, scanning a string's characters from `i`; -1 without one. */
  function StringEnd(s: string, i: nat): (r: int)
    ensures r == -1 || i < r <= |s|
    ensures r != -1 ==> s[r - 1] == '\"'
    decreases |s| - i
  {
    if i >= |s| then -1
    else if s[i] == '\\' then StringEnd(s, i + 2)
    else if s[i] == '\"' then i + 1
    else StringEnd(s, i + 1)
  }

  /** The index after the bracket that brings `depth` back to zero; -1 without one. */
  function NestedEnd(s: string, i: nat, depth: int): (r: int)
    ensures r == -1 || i < r <= |s|
    ensures r != -1 ==> Closes(s[r - 1])
    decreases |s| - i
  {
    if i >= |s| then -1
    else if s[i] == '\"' then
      var after := StringEnd(s, i + 1);
      if after == -1 then -1 else NestedEnd(s, after, depth)
    else if Opens(s[i]) then NestedEnd(s, i + 1, depth + 1)
    else if !Closes(s[i]) then NestedEnd(s, i + 1, depth)
    else if depth == 1 then i + 1
    else NestedEnd(s, i + 1, depth - 1)
  }

  /** The index of the first character at or after `i` that ends a literal or a number. */
  function BareEnd(s: string, i: nat): (r: nat)
    requires i <= |s|
    ensures i <= r <= |s|
    decreases |s| - i
  {
    if i == |s| || EndsBare(s[i]) then i else BareEnd(s, i + 1)
  }

  function ValueEnd(s: string, start: nat): (r: int)
    requires start <= |s|
    ensures r == -1 || start <= r <= |s|
  {
    if start < |s| && s[start] == '\"' then StringEnd(s, start + 1)
    else if start < |s| && Opens(s[start]) then NestedEnd(s, start, 0)
    else BareEnd(s, start)
  }

  function IndexOf(s: string, c: char, i: nat): (r: int)
    requires i <= |s|
    ensures r == -1 || (i <= r < |s| && s[r] == c)
    decreases |s| - i
  {
    if i == |s| then -1 else if s[i] == c then i else IndexOf(s, c, i + 1)
  }

  function SkipSpace(s: string, i: nat): (r: nat)
    requires i <= |s|
    ensures i <= r <= |s|
    decreases |s| - i
  {
    if i < |s| && JsSpace(s[i]) then SkipSpace(s, i + 1) else i
  }

  /** One member as the scan reads it: its undecoded name and the span of its value. */
  datatype Entry = Entry(name: string, start: nat, end: nat)

  /** The member whose name opens at `i`; none when the text ends before its value does. */
  function ReadEntry(s: string, i: nat): (r: Option<Entry>)
    requires i < |s|
    ensures r.Some? ==> i < r.value.start <= r.value.end <= |s|
  {
    var nameEnd := StringEnd(s, i + 1);
    if nameEnd == -1 then None else AfterName(s, s[i + 1..nameEnd - 1], nameEnd)
  }

  function AfterName(s: string, name: string, nameEnd: nat): (r: Option<Entry>)
    requires nameEnd <= |s|
    ensures r.Some? ==> nameEnd < r.value.start <= r.value.end <= |s|
  {
    var colon := IndexOf(s, ':', nameEnd);
    if colon == -1 then None else ReadValue(s, name, SkipSpace(s, colon + 1))
  }

  function ReadValue(s: string, name: string, start: nat): (r: Option<Entry>)
    requires start <= |s|
    ensures r.Some? ==> start == r.value.start <= r.value.end <= |s|
  {
    var end := ValueEnd(s, start);
    if end == -1 || start >= |s| then None else Some(Entry(name, start, end))
  }

  /** The next member at or after `i`, past blanks and commas. */
  function NextEntry(s: string, i: nat): (r: Option<Entry>)
    ensures r.Some? ==> i < r.value.start <= r.value.end <= |s|
    decreases |s| - i
  {
    if i >= |s| then None
    else if JsSpace(s[i]) || s[i] == ',' then NextEntry(s, i + 1)
    else if s[i] != '\"' then None
    else ReadEntry(s, i)
  }

  /** The entry the member scan stops at for `key`, from index `i` on. */
  function FindEntry(s: string, i: nat, key: string): (r: Option<Entry>)
    ensures r.Some? ==> r.value.start <= r.value.end <= |s|
    decreases |s| - i
  {
    var entry := NextEntry(s, i);
    if entry.None? || entry.value.name == key then entry
    else FindEntry(s, entry.value.end, key)
  }

  /** `sliceMember`, with `parses` standing for "JSON.parse does not throw". */
  function Slice(s: string, key: string, parses: string -> bool): Option<string> {
    var opening := IndexOf(s, '{', 0);
    if opening == -1 || !(forall k | 0 <= k < opening :: JsSpace(s[k])) then None
    else
      var entry := FindEntry(s, opening + 1, key);
      if entry.Some? && parses(s[entry.value.start..entry.value.end])
      then Some(s[entry.value.start..entry.value.end])
      else None
  }

  // ---------- The loops ----------

  method EndOfString(source: string, start: nat) returns (end: int)
    ensures end == StringEnd(source, start + 1)
  {
    var index := start + 1;
    while index < |source|
      invariant start < index
      invariant StringEnd(source, index) == StringEnd(source, start + 1)
    {
      var character := source[index];
      if character == '\\' {
        index := index + 2;
      } else {
        if character == '\"' { return index + 1; }
        index := index + 1;
      }
    }
    return -1;
  }

  method EndOfValue(source: string, start: nat) returns (end: int)
    requires start <= |source|
    ensures end == ValueEnd(source, start)
  {
    if start < |source| && source[start] == '\"' {
      end := EndOfString(source, start);
      return;
    }
    if start < |source| && Opens(source[start]) {
      var depth := 0;
      var index := start;
      while index < |source|
        invariant start <= index
        invariant depth >= 0 && (depth == 0 ==> index == start)
        invariant NestedEnd(source, index, depth) == NestedEnd(source, start, 0)
      {
        var character := source[index];
        if character == '\"' {
          var after := EndOfString(source, index);
          if after == -1 { return -1; }
          index := after;
        } else {
          if Opens(character) {
            depth := depth + 1;
          } else if Closes(character) {
            depth := depth - 1;
            if depth == 0 { return index + 1; }
          }
          index := index + 1;
        }
      }
      return -1;
    }
    var index := start;
    while index < |source|
      invariant start <= index <= |source|
      invariant BareEnd(source, index) == BareEnd(source, start)
    {
      if EndsBare(source[index]) { return index; }
      index := index + 1;
    }
    return |source|;
  }

  /** One pass of `sliceMember`'s loop: the member whose name opens at `index`. */
  method ReadMember(source: string, index: nat) returns (entry: Option<Entry>)
    requires index < |source|
    ensures entry == ReadEntry(source, index)
  {
    var nameEnd := EndOfString(source, index);
    if nameEnd == -1 { return None; }
    var name := source[index + 1..nameEnd - 1];

    var colon := IndexOf(source, ':', nameEnd);
    if colon == -1 { return None; }

    var valueStart := colon + 1;
    while valueStart < |source| && JsSpace(source[valueStart])
      invariant colon < valueStart <= |source|
      invariant SkipSpace(source, valueStart) == SkipSpace(source, colon + 1)
    {
      valueStart := valueStart + 1;
    }

    var valueEnd := EndOfValue(source, valueStart);
    if valueEnd == -1 || valueStart >= |source| { return None; }
    return Some(Entry(name, valueStart, valueEnd));
  }

  /** `sliceMember`'s loop over the members, from just inside the opening brace. */
  method FindMember(source: string, start: nat, key: string) returns (found: Option<Entry>)
    ensures found == FindEntry(source, start, key)
  {
    var index := start;
    while index < |source|
      invariant FindEntry(source, index, key) == FindEntry(source, start, key)
    {
      var character := source[index];
      if JsSpace(character) || character == ',' {
        index := index + 1;
      } else {
        if character == '}' { return None; }
        if character != '\"' { return None; }
        var entry := ReadMember(source, index);
        if entry.None? { return None; }
        if entry.value.name == key { return entry; }
        index := entry.value.end;
      }
    }
    return None;
  }

  method SliceMember(source: string, key: string, parses: string -> bool)
    returns (r: Option<string>)
    ensures r == Slice(source, key, parses)
  {
    var opening := IndexOf(source, '{', 0);
    if opening == -1 || !(forall k | 0 <= k < opening :: JsSpace(source[k])) { return None; }
    var found := FindMember(source, opening + 1, key);
    if found.None? { return None; }
    var sliced := source[found.value.start..found.value.end];
    if !parses(sliced) { return None; }
    return Some(sliced);
  }

  // ---------- Scanning what a value spells ----------

  lemma {:induction false} StringSkips(s: string, i: nat, body: string, k: nat := 0)
    requires k <= |body| && StringBody(body, k)
    requires At(s, i, body) && CharAt(s, i + |body|, '\"')
    ensures StringEnd(s, i + k) == i + |body| + 1
    decreases |body| - k
  {
    if k < |body| {
      assert body[k] == s[i + k];
      if body[k] != '\\' {
        StringSkips(s, i, body, k + 1);
      } else if k + 1 < |body| && ShortEscape(body[k + 1]) {
        StringSkips(s, i, body, k + 2);
      } else {
        HexSkips(s, i + k + 2, body, k + 2);
        StringSkips(s, i, body, k + 6);
      }
    }
  }

  lemma {:induction false} HexSkips(s: string, i: nat, body: string, k: nat)
    requires k + 4 <= |body| && Hex(body[k]) && Hex(body[k + 1]) && Hex(body[k + 2]) && Hex(body[k + 3])
    requires i + 4 <= |s| && s[i] == body[k] && s[i + 1] == body[k + 1]
    requires s[i + 2] == body[k + 2] && s[i + 3] == body[k + 3]
    ensures StringEnd(s, i) == StringEnd(s, i + 4)
  {
    assert StringEnd(s, i) == StringEnd(s, i + 1);
    assert StringEnd(s, i + 1) == StringEnd(s, i + 2);
    assert StringEnd(s, i + 2) == StringEnd(s, i + 3);
  }

  lemma {:induction false} NestedInert(s: string, i: nat, n: nat, depth: int)
    requires i + n <= |s| && forall k | i <= k < i + n :: s[k] != '\"' && !Opens(s[k]) && !Closes(s[k])
    ensures NestedEnd(s, i, depth) == NestedEnd(s, i + n, depth)
    decreases n
  {
    if n > 0 { NestedInert(s, i + 1, n - 1, depth); }
  }

  lemma {:induction false} NestedBlanks(s: string, i: nat, blanks: string, depth: int)
    requires At(s, i, blanks) && Blanks(blanks)
    ensures NestedEnd(s, i, depth) == NestedEnd(s, i + |blanks|, depth)
  {
    forall k | i <= k < i + |blanks| ensures Blank(s[k]) { assert s[i + (k - i)] == blanks[k - i]; }
    NestedInert(s, i, |blanks|, depth);
  }

  lemma {:induction false} NestedToken(s: string, i: nat, token: string, depth: int)
    requires At(s, i, token) && BareToken(token)
    ensures NestedEnd(s, i, depth) == NestedEnd(s, i + |token|, depth)
  {
    BareTokenChars(token);
    forall k | i <= k < i + |token| ensures TokenChar(s[k]) { assert s[i + (k - i)] == token[k - i]; }
    NestedInert(s, i, |token|, depth);
  }

  lemma {:induction false} NestedQuoted(s: string, i: nat, body: string, depth: int)
    requires StringBody(body) && QuotedAt(s, i, body)
    ensures NestedEnd(s, i, depth) == NestedEnd(s, i + |body| + 2, depth)
  {
    StringSkips(s, i + 1, body);
  }

  /** Around a container: one deeper behind its opening bracket, and back behind its closing one. */
  lemma {:induction false} NestedAround(s: string, i: nat, width: nat, depth: int)
    requires depth >= 1 && width >= 2 && i + width <= |s| && Opens(s[i]) && Closes(s[i + width - 1])
    requires NestedEnd(s, i + 1, depth + 1) == NestedEnd(s, i + width - 1, depth + 1)
    ensures NestedEnd(s, i, depth) == NestedEnd(s, i + width, depth)
  {
  }

  /** Inside a container, scanning passes a whole value and comes out at the same depth. */
  lemma {:induction false} NestedValue(s: string, i: nat, v: Json, depth: int)
    requires Valid(v) && ValueAt(s, i, v) && depth >= 1
    ensures NestedEnd(s, i, depth) == NestedEnd(s, i + Width(v), depth)
    decreases v, 2
  {
    match v
    case Text(body) => NestedQuoted(s, i, body, depth);
    case Bare(token) => NestedToken(s, i, token, depth);
    case _ => NestedContainer(s, i, v, depth);
  }

  lemma {:induction false} NestedContainer(s: string, i: nat, v: Json, depth: int)
    requires Valid(v) && (v.Arr? || v.Obj?) && ValueAt(s, i, v) && depth >= 1
    ensures NestedEnd(s, i, depth) == NestedEnd(s, i + Width(v), depth)
    decreases v, 1
  {
    NestedBody(s, i, v, depth + 1);
    NestedAround(s, i, Width(v), depth);
  }

  /** From just inside a container to its closing bracket, at any depth. */
  lemma {:induction false} NestedBody(s: string, i: nat, v: Json, depth: int)
    requires Valid(v) && (v.Arr? || v.Obj?) && ValueAt(s, i, v) && depth >= 1
    ensures i + Width(v) <= |s| && Opens(s[i]) && Closes(s[i + Width(v) - 1])
    ensures NestedEnd(s, i + 1, depth) == NestedEnd(s, i + Width(v) - 1, depth)
    decreases v, 0
  {
    match v
    case Arr(pad, items) => NestedArray(s, i, pad, items, depth);
    case Obj(pad, members) => NestedObject(s, i, pad, members, depth);
  }

  lemma {:induction false} NestedArray(s: string, i: nat, pad: string, items: Items, depth: int)
    requires Blanks(pad) && ValidItems(items) && At(s, i + 1, pad) && ItemsAt(s, i + 1 + |pad|, items) && depth >= 1
    ensures NestedEnd(s, i + 1, depth) == NestedEnd(s, i + 1 + |pad| + ItemsWidth(items), depth)
    decreases items, 2
  {
    NestedBlanks(s, i + 1, pad, depth);
    NestedItems(s, i + 1 + |pad|, items, depth);
  }

  lemma {:induction false} NestedObject(s: string, i: nat, pad: string, members: Members, depth: int)
    requires Blanks(pad) && ValidMembers(members) && At(s, i + 1, pad) && MembersAt(s, i + 1 + |pad|, members)
             && depth >= 1
    ensures NestedEnd(s, i + 1, depth) == NestedEnd(s, i + 1 + |pad| + MembersWidth(members), depth)
    decreases members, 2
  {
    NestedBlanks(s, i + 1, pad, depth);
    NestedMembers(s, i + 1 + |pad|, members, depth);
  }

  lemma {:induction false} NestedItems(s: string, i: nat, items: Items, depth: int)
    requires ValidItems(items) && ItemsAt(s, i, items) && depth >= 1
    ensures NestedEnd(s, i, depth) == NestedEnd(s, i + ItemsWidth(items), depth)
    decreases items, 1
  {
    if items.Item? {
      var end := i + |items.before| + Width(items.value) + |items.after|;
      NestedItem(s, i, items, depth);
      if items.rest.Item? {
        NestedInert(s, end, 1, depth);
        NestedItems(s, end + 1, items.rest, depth);
      }
    }
  }

  lemma {:induction false} NestedItem(s: string, i: nat, items: Items, depth: int)
    requires items.Item? && Blanks(items.before) && Valid(items.value) && Blanks(items.after) && depth >= 1
    requires At(s, i, items.before) && ValueAt(s, i + |items.before|, items.value)
    requires At(s, i + |items.before| + Width(items.value), items.after)
    ensures NestedEnd(s, i, depth) == NestedEnd(s, i + |items.before| + Width(items.value) + |items.after|, depth)
    decreases items, 0
  {
    NestedBlanks(s, i, items.before, depth);
    NestedValue(s, i + |items.before|, items.value, depth);
    NestedBlanks(s, i + |items.before| + Width(items.value), items.after, depth);
  }

  lemma {:induction false} NestedMembers(s: string, i: nat, m: Members, depth: int)
    requires ValidMembers(m) && MembersAt(s, i, m) && depth >= 1
    ensures NestedEnd(s, i, depth) == NestedEnd(s, i + MembersWidth(m), depth)
    decreases m, 1
  {
    if m.Member? {
      var end := i + NameWidth(m) + Width(m.value) + |m.after|;
      NestedMember(s, i, m, depth);
      if m.rest.Member? {
        NestedInert(s, end, 1, depth);
        NestedMembers(s, end + 1, m.rest, depth);
      }
    }
  }

  lemma {:induction false} NestedMember(s: string, i: nat, m: Members, depth: int)
    requires m.Member? && ValidName(m) && Valid(m.value) && Blanks(m.after) && depth >= 1
    requires NameAt(s, i, m) && ValueAt(s, i + NameWidth(m), m.value)
    requires At(s, i + NameWidth(m) + Width(m.value), m.after)
    ensures NestedEnd(s, i, depth)
         == NestedEnd(s, i + NameWidth(m) + Width(m.value) + |m.after|, depth)
    decreases m, 0
  {
    NestedName(s, i, m, depth);
    NestedValue(s, i + NameWidth(m), m.value, depth);
    NestedBlanks(s, i + NameWidth(m) + Width(m.value), m.after, depth);
  }

  lemma {:induction false} NestedName(s: string, i: nat, m: Members, depth: int)
    requires m.Member? && ValidName(m) && NameAt(s, i, m)
    ensures NestedEnd(s, i, depth) == NestedEnd(s, i + NameWidth(m), depth)
  {
    var j := i + |m.before|;
    var k := j + |m.name| + 2;
    var colon := k + |m.afterName|;
    NestedBlanks(s, i, m.before, depth);
    NestedQuoted(s, j, m.name, depth);
    NestedBlanks(s, k, m.afterName, depth);
    NestedInert(s, colon, 1, depth);
    NestedBlanks(s, colon + 1, m.beforeValue, depth);
  }

  lemma {:induction false} BareStops(s: string, i: nat, n: nat)
    requires i + n <= |s| && (forall k | i <= k < i + n :: TokenChar(s[k]))
    requires i + n < |s| ==> EndsBare(s[i + n])
    ensures BareEnd(s, i) == i + n
    decreases n
  {
    if n > 0 { BareStops(s, i + 1, n - 1); }
  }

  /** A value is scanned to exactly its own end. */
  lemma {:induction false} ValueStops(s: string, i: nat, v: Json)
    requires Valid(v) && ValueAt(s, i, v)
    requires i + Width(v) < |s| ==> EndsBare(s[i + Width(v)])
    ensures i < |s| && !JsSpace(s[i]) && ValueEnd(s, i) == i + Width(v)
  {
    match v
    case Text(body) => StringSkips(s, i + 1, body);
    case Bare(token) =>
      BareTokenChars(token);
      forall k | i <= k < i + |token| ensures TokenChar(s[k]) { assert s[i + (k - i)] == token[k - i]; }
      BareStops(s, i, |token|);
    case Arr(_, _) => NestedBody(s, i, v, 1);
    case Obj(_, _) => NestedBody(s, i, v, 1);
  }

  // ---------- Reading members ----------

  /** A run of blanks in `s`. */
  predicate BlankRun(s: string, i: nat, j: nat) {
    i <= j <= |s| && forall k | i <= k < j :: Blank(s[k])
  }

  lemma {:induction false} BlanksRun(s: string, i: nat, j: nat, blanks: string)
    requires At(s, i, blanks) && Blanks(blanks) && j == i + |blanks|
    ensures BlankRun(s, i, j)
  {
    forall k | i <= k < j ensures Blank(s[k]) { assert s[i + (k - i)] == blanks[k - i]; }
  }

  lemma {:induction false} SpaceSkips(s: string, i: nat, j: nat)
    requires BlankRun(s, i, j)
    ensures SkipSpace(s, i) == SkipSpace(s, j)
    decreases j - i
  {
    if i < j { SpaceSkips(s, i + 1, j); }
  }

  lemma {:induction false} ColonFound(s: string, i: nat, j: nat)
    requires BlankRun(s, i, j) && CharAt(s, j, ':')
    ensures IndexOf(s, ':', i) == j
    decreases j - i
  {
    if i < j { ColonFound(s, i + 1, j); }
  }

  lemma {:induction false} EntrySkips(s: string, i: nat, j: nat)
    requires BlankRun(s, i, j)
    ensures NextEntry(s, i) == NextEntry(s, j)
    decreases j - i
  {
    if i < j { EntrySkips(s, i + 1, j); }
  }

  /** Reading one member: its name, its colon and its value, each where it was printed. */
  lemma {:induction false} ReadsMember(s: string, m: Members, i: nat, j: nat, start: nat, end: nat)
    requires m.Member? && ValidName(m) && Valid(m.value)
    requires NameAt(s, i, m) && ValueAt(s, start, m.value)
    requires j == i + |m.before| && start == i + NameWidth(m) && end == start + Width(m.value)
    requires end < |s| && EndsBare(s[end])
    ensures ReadEntry(s, j) == Some(Entry(m.name, start, end))
  {
    var k := j + |m.name| + 2;
    var colon := k + |m.afterName|;
    ReadsName(s, j, k, m.name);
    BlanksRun(s, k, colon, m.afterName);
    ColonFound(s, k, colon);
    ValueStops(s, start, m.value);
    BlanksRun(s, colon + 1, start, m.beforeValue);
    SpaceSkips(s, colon + 1, start);
    ReadEntryIs(s, j, k, colon, start, end);
  }

  lemma {:induction false} ReadsName(s: string, i: nat, end: nat, name: string)
    requires StringBody(name) && QuotedAt(s, i, name) && end == i + |name| + 2
    ensures StringEnd(s, i + 1) == end && s[i + 1..end - 1] == name
  {
    StringSkips(s, i + 1, name);
  }

  lemma {:induction false} ReadEntryIs(s: string, i: nat, nameEnd: nat, colon: nat, start: nat, end: nat)
    requires i < nameEnd - 1 < colon < start < |s| && StringEnd(s, i + 1) == nameEnd
    requires IndexOf(s, ':', nameEnd) == colon && SkipSpace(s, colon + 1) == start
    requires ValueEnd(s, start) == end
    ensures ReadEntry(s, i) == Some(Entry(s[i + 1..nameEnd - 1], start, end))
  {
  }

  /** `entry` is where the value of the member `first` stands, or none when there is no member. */
  predicate Stands(s: string, entry: Option<Entry>, first: Members) {
    match entry
    case None => first.NoMembers?
    case Some(e) =>
      first.Member? && e.end == e.start + Width(first.value) && ValueAt(s, e.start, first.value)
  }

  /** The member scan over a well-formed object finds the first member of that name. */
  lemma {:induction false} EntryOfMembers(s: string, i: nat, m: Members, key: string)
    requires ValidMembers(m) && MembersAt(s, i, m) && CharAt(s, i + MembersWidth(m), '}')
    ensures Stands(s, FindEntry(s, i, key), FirstNamed(m, key))
    decreases m
  {
    if m.Member? {
      var next := i + NameWidth(m) + Width(m.value) + |m.after|;
      if m.rest.Member? {
        RestAt(s, i, m, next);
        EntryOfMembers(s, next + 1, m.rest, key);
      }
      EntryOfFirst(s, i, m, key, next);
    }
  }

  lemma {:induction false} RestAt(s: string, i: nat, m: Members, next: nat)
    requires m.Member? && m.rest.Member? && ValidMembers(m) && MembersAt(s, i, m)
    requires CharAt(s, i + MembersWidth(m), '}')
    requires next == i + NameWidth(m) + Width(m.value) + |m.after|
    ensures ValidMembers(m.rest) && MembersAt(s, next + 1, m.rest) && CharAt(s, next + 1 + MembersWidth(m.rest), '}')
  {
  }

  lemma {:induction false} EntryOfFirst(s: string, i: nat, m: Members, key: string, next: nat)
    requires m.Member? && ValidMembers(m) && MembersAt(s, i, m) && CharAt(s, i + MembersWidth(m), '}')
    requires next == i + NameWidth(m) + Width(m.value) + |m.after|
    requires m.rest.Member? ==> Stands(s, FindEntry(s, next + 1, key), FirstNamed(m.rest, key))
    ensures Stands(s, FindEntry(s, i, key), FirstNamed(m, key))
  {
    var start := i + NameWidth(m);
    var end := start + Width(m.value);
    FindStep(s, m, i, start, end, next, key);
    if m.name == key || !m.rest.Member? { StandsOrEnds(s, m, start, end, key); }
  }

  lemma {:induction false} StandsOrEnds(s: string, m: Members, start: nat, end: nat, key: string)
    requires m.Member? && (m.name == key || !m.rest.Member?)
    requires ValueAt(s, start, m.value) && end == start + Width(m.value)
    ensures Stands(s, if m.name == key then Some(Entry(m.name, start, end)) else None, FirstNamed(m, key))
  {
  }

  lemma {:induction false} FindStep(s: string, m: Members, i: nat, start: nat, end: nat, next: nat, key: string)
    requires m.Member? && ValidMembers(m) && MembersAt(s, i, m)
    requires CharAt(s, i + MembersWidth(m), '}')
    requires start == i + NameWidth(m) && end == start + Width(m.value) && next == end + |m.after|
    ensures ValueAt(s, start, m.value)
    ensures m.rest.Member? ==> CharAt(s, next + 1 + MembersWidth(m.rest), '}')
    ensures FindEntry(s, i, key) == if m.name == key then Some(Entry(m.name, start, end))
                                    else if m.rest.Member? then FindEntry(s, next + 1, key) else None
  {
    OneMember(s, m, i, start, end, next);
    if m.name != key { AfterEntry(s, m, end, next, key); }
  }

  lemma {:induction false} OneMember(s: string, m: Members, i: nat, start: nat, end: nat, next: nat)
    requires m.Member? && ValidMembers(m) && MembersAt(s, i, m)
    requires CharAt(s, i + MembersWidth(m), '}')
    requires start == i + NameWidth(m) && end == start + Width(m.value) && next == end + |m.after|
    ensures NextEntry(s, i) == Some(Entry(m.name, start, end)) && ValueAt(s, start, m.value)
    ensures BlankRun(s, end, next) && next < |s| && s[next] == if m.rest.Member? then ',' else '}'
    ensures m.rest.Member? ==> CharAt(s, next + 1 + MembersWidth(m.rest), '}')
  {
    BlanksRun(s, end, next, m.after);
    FirstEntry(s, m, i, start, end);
  }

  /** From the end of a value to the next member, or to the end of the object. */
  lemma {:induction false} AfterEntry(s: string, m: Members, end: nat, next: nat, key: string)
    requires m.Member? && BlankRun(s, end, next) && next < |s|
    requires s[next] == if m.rest.Member? then ',' else '}'
    ensures FindEntry(s, end, key) == if m.rest.Member? then FindEntry(s, next + 1, key) else None
  {
    EntrySkips(s, end, next);
  }

  lemma {:induction false} FirstEntry(s: string, m: Members, i: nat, start: nat, end: nat)
    requires m.Member? && ValidName(m) && Valid(m.value)
    requires NameAt(s, i, m) && ValueAt(s, start, m.value)
    requires start == i + NameWidth(m) && end == start + Width(m.value)
    requires end < |s| && EndsBare(s[end])
    ensures NextEntry(s, i) == Some(Entry(m.name, start, end))
  {
    var j := i + |m.before|;
    ReadsMember(s, m, i, j, start, end);
    BlanksRun(s, i, j, m.before);
    EntrySkips(s, i, j);
  }

  lemma {:induction false} EntryOfObject(s: string, i: nat, v: Json, key: string)
    requires v.Obj? && Valid(v) && ValueAt(s, i, v)
    ensures Stands(s, FindEntry(s, i + 1, key), FirstNamed(v.members, key))
  {
    var j := i + 1 + |v.pad|;
    EntryOfMembers(s, j, v.members, key);
    BlanksRun(s, i + 1, j, v.pad);
    EntrySkips(s, i + 1, j);
  }

  // ---------- Well-formed object texts ----------

  /** A frame: an object, whatever `trim` strips before it, and anything after it. */
  ghost predicate IsFrame(s: string, lead: string, obj: Json, trail: string) {
    && obj.Obj? && Valid(obj) && s == lead + Print(obj) + trail
    && forall k | 0 <= k < |lead| :: JsSpace(lead[k])
  }

  lemma {:induction false} FrameEntry(s: string, lead: string, obj: Json, trail: string, key: string)
    requires IsFrame(s, lead, obj, trail)
    ensures |lead| < |s| && IndexOf(s, '{', 0) == |lead|
    ensures forall k | 0 <= k < |lead| :: JsSpace(s[k])
    ensures Stands(s, FindEntry(s, |lead| + 1, key), FirstNamed(obj.members, key))
  {
    assert At(s, |lead|, Print(obj));
    PrintSpells(s, |lead|, obj);
    forall k | 0 <= k < |lead| ensures JsSpace(s[k]) { assert s[k] == lead[k]; }
    FirstBrace(s, 0, |lead|);
    EntryOfObject(s, |lead|, obj, key);
  }

  lemma {:induction false} FirstBrace(s: string, i: nat, j: nat)
    requires i <= j && CharAt(s, j, '{') && forall k | i <= k < j :: JsSpace(s[k])
    ensures IndexOf(s, '{', i) == j
    decreases j - i
  {
    if i < j { FirstBrace(s, i + 1, j); }
  }

  /** For every object text, with any nesting, escapes and blanks, and whatever follows it: the
      slice is exactly the source of the first top-level member of that undecoded name, and there
      is none when no member has it. */
  lemma {:induction false} SliceOfObject(s: string, lead: string, obj: Json, trail: string, key: string,
                      parses: string -> bool)
    requires IsFrame(s, lead, obj, trail)
    requires forall t :: parses(t) <==> Accepts(t)
    ensures var first := FirstNamed(obj.members, key);
            Slice(s, key, parses) == if first.Member? then Some(Print(first.value)) else None
  {
    FrameEntry(s, lead, obj, trail, key);
    SliceOfStanding(s, |lead|, key, FirstNamed(obj.members, key), parses);
  }

  lemma {:induction false} SliceOfStanding(s: string, opening: nat, key: string, first: Members, parses: string -> bool)
    requires opening < |s| && IndexOf(s, '{', 0) == opening && forall k | 0 <= k < opening :: JsSpace(s[k])
    requires Stands(s, FindEntry(s, opening + 1, key), first) && (first.Member? ==> Valid(first.value))
    requires forall t :: parses(t) <==> Accepts(t)
    ensures Slice(s, key, parses) == if first.Member? then Some(Print(first.value)) else None
  {
    var entry := FindEntry(s, opening + 1, key);
    if entry.Some? { WholeValue(s, entry.value, first.value, parses); }
  }

  // ---------- Arbitrary texts ----------

  lemma {:induction false} SpaceStops(s: string, i: nat)
    requires i <= |s|
    ensures var r := SkipSpace(s, i); r < |s| ==> !JsSpace(s[r])
    decreases |s| - i
  {
    if i < |s| && JsSpace(s[i]) { SpaceStops(s, i + 1); }
  }

  lemma {:induction false} BareIsSpaceless(s: string, i: nat)
    requires i <= |s|
    ensures forall k | i <= k < BareEnd(s, i) :: !EndsBare(s[k])
    decreases |s| - i
  {
    if i < |s| && !EndsBare(s[i]) { BareIsSpaceless(s, i + 1); }
  }

  /** An entry stands between characters that are not blank. */
  predicate Trimmed(s: string, e: Entry) {
    && e.start < |s| && e.start <= e.end <= |s| && !JsSpace(s[e.start])
    && (e.start < e.end ==> !JsSpace(s[e.end - 1]))
  }

  lemma {:induction false} ReadIsTrimmed(s: string, i: nat)
    requires i < |s| && ReadEntry(s, i).Some?
    ensures Trimmed(s, ReadEntry(s, i).value)
  {
    var nameEnd := StringEnd(s, i + 1);
    var colon := IndexOf(s, ':', nameEnd);
    SpaceStops(s, colon + 1);
    BareIsSpaceless(s, SkipSpace(s, colon + 1));
  }

  lemma {:induction false} NextIsTrimmed(s: string, i: nat)
    ensures var e := NextEntry(s, i); e.Some? ==> Trimmed(s, e.value)
    decreases |s| - i
  {
    if i < |s| {
      if JsSpace(s[i]) || s[i] == ',' { NextIsTrimmed(s, i + 1); }
      else if s[i] == '\"' && ReadEntry(s, i).Some? { ReadIsTrimmed(s, i); }
    }
  }

  lemma {:induction false} FoundIsTrimmed(s: string, i: nat, key: string)
    ensures var e := FindEntry(s, i, key); e.Some? ==> i < e.value.start && Trimmed(s, e.value)
    decreases |s| - i
  {
    NextIsTrimmed(s, i);
    var e := NextEntry(s, i);
    if e.Some? && e.value.name != key { FoundIsTrimmed(s, e.value.end, key); }
  }

  lemma {:induction false} PrintIsNotEmpty(v: Json)
    requires Valid(v)
    ensures Print(v) != ""
  {
    if v.Bare? { BareTokenChars(v.token); }
  }

  lemma {:induction false} NoBlankEdges(text: string)
    requires Accepts(text)
    requires text != "" ==> !JsSpace(text[0]) && !JsSpace(text[|text| - 1])
    ensures exists v :: Valid(v) && text == Print(v)
  {
    var pre, v, post :| Blanks(pre) && Valid(v) && Blanks(post) && text == pre + Print(v) + post;
    PrintIsNotEmpty(v);
    var last := |text| - 1;
    assert text[0] == (pre + Print(v) + post)[0] && text[last] == (pre + Print(v) + post)[last];
    assert pre == "" && post == "";
    assert text == Print(v);
  }

  /** On any text at all, a slice is a contiguous piece of the source, standing where a value
      stands, and is the text of one JSON value with no blank at either end. */
  lemma {:induction false} SliceOfAnything(s: string, key: string, parses: string -> bool)
    requires forall t :: parses(t) <==> Accepts(t)
    ensures var r := Slice(s, key, parses);
            r.Some? ==> exists v, i: nat :: Valid(v) && r.value == Print(v) && At(s, i, Print(v))
  {
    var r := Slice(s, key, parses);
    if r.Some? {
      var i := IndexOf(s, '{', 0) + 1;
      FoundIsTrimmed(s, i, key);
      var e := FindEntry(s, i, key).value;
      EntryText(s, e);
    }
  }

  lemma {:induction false} EntryText(s: string, e: Entry)
    requires Trimmed(s, e) && Accepts(s[e.start..e.end])
    ensures exists v :: Valid(v) && s[e.start..e.end] == Print(v) && At(s, e.start, Print(v))
  {
    NoBlankEdges(s[e.start..e.end]);
    var v :| Valid(v) && s[e.start..e.end] == Print(v);
    assert At(s, e.start, Print(v));
  }

  // ---------- Truncated texts ----------

  lemma {:induction false} StringEndCut(s: string, c: nat, i: nat)
    requires c <= |s|
    ensures var r := StringEnd(s, i); StringEnd(s[..c], i) == if r <= c then r else -1
    decreases |s| - i
  {
    if i < c && s[i] == '\\' {
      StringEndCut(s, c, i + 2);
    } else if i < c && s[i] != '\"' {
      StringEndCut(s, c, i + 1);
    }
  }

  lemma {:induction false} NestedEndCut(s: string, c: nat, i: nat, depth: int)
    requires c <= |s|
    ensures var r := NestedEnd(s, i, depth); NestedEnd(s[..c], i, depth) == if r <= c then r else -1
    decreases |s| - i
  {
    if i < c {
      if s[i] == '\"' {
        StringEndCut(s, c, i + 1);
        var after := StringEnd(s, i + 1);
        if after != -1 { NestedEndCut(s, c, after, depth); }
      } else {
        NestedEndCut(s, c, i + 1, if Opens(s[i]) then depth + 1 else if Closes(s[i]) then depth - 1 else depth);
      }
    }
  }

  lemma {:induction false} BareEndCut(s: string, c: nat, i: nat)
    requires i <= c <= |s|
    ensures var r := BareEnd(s, i); BareEnd(s[..c], i) == if r <= c then r else c
    decreases c - i
  {
    if i < c { BareEndCut(s, c, i + 1); }
  }

  lemma {:induction false} IndexOfCut(s: string, c: nat, i: nat, ch: char)
    requires i <= c <= |s|
    ensures var r := IndexOf(s, ch, i); IndexOf(s[..c], ch, i) == if r < c then r else -1
    decreases c - i
  {
    if i < c { IndexOfCut(s, c, i + 1, ch); }
  }

  lemma {:induction false} SkipSpaceCut(s: string, c: nat, i: nat)
    requires i <= c <= |s|
    ensures var r := SkipSpace(s, i); SkipSpace(s[..c], i) == if r <= c then r else c
    decreases c - i
  {
    if i < c { SkipSpaceCut(s, c, i + 1); }
  }

  /** What becomes of an entry when the text is cut at `c`: a literal or a number that was begun
      is read up to the cut, any other value that was not finished is lost. */
  function CutEntry(s: string, e: Entry, c: nat): Option<Entry>
    requires e.start < |s|
  {
    if e.start >= c then None
    else if e.end <= c then Some(e)
    else if s[e.start] == '\"' || Opens(s[e.start]) then None
    else Some(e.(end := c))
  }

  /** Reading the cut text gives what the cut leaves of reading the whole one. */
  predicate IsCut(s: string, c: nat, whole: Option<Entry>, cut: Option<Entry>) {
    match whole
    case None => cut.None?
    case Some(e) => e.start < |s| && cut == CutEntry(s, e, c)
  }

  lemma {:induction false} ReadEntryCut(s: string, c: nat, i: nat)
    requires i < c <= |s|
    ensures IsCut(s, c, ReadEntry(s, i), ReadEntry(s[..c], i))
  {
    StringEndCut(s, c, i + 1);
    var nameEnd := StringEnd(s, i + 1);
    if nameEnd != -1 && nameEnd <= c {
      ReadsBehindName(s, i, nameEnd);
      ReadsBehindName(s[..c], i, nameEnd);
      NameCut(s, c, i + 1, nameEnd - 1);
      AfterNameCut(s, c, s[i + 1..nameEnd - 1], nameEnd);
    } else {
      NameIsPast(s, c, i);
      PastIsCut(s, c, ReadEntry(s, i), ReadEntry(s[..c], i));
    }
  }

  lemma {:induction false} ReadsBehindName(s: string, i: nat, nameEnd: nat)
    requires i < |s| && StringEnd(s, i + 1) == nameEnd
    ensures i + 1 < nameEnd <= |s| && ReadEntry(s, i) == AfterName(s, s[i + 1..nameEnd - 1], nameEnd)
  {
  }

  lemma {:induction false} PastIsCut(s: string, c: nat, whole: Option<Entry>, cut: Option<Entry>)
    requires cut.None? && (whole.Some? ==> c <= whole.value.start < |s|)
    ensures IsCut(s, c, whole, cut)
  {
  }

  /** A name the cut falls in or before: whatever entry it starts lies behind the cut. */
  lemma {:induction false} NameIsPast(s: string, c: nat, i: nat)
    requires i < c <= |s| && (StringEnd(s, i + 1) == -1 || StringEnd(s, i + 1) > c)
    ensures ReadEntry(s, i).Some? ==> c <= ReadEntry(s, i).value.start < |s|
  {
  }

  lemma {:induction false} AfterNameCut(s: string, c: nat, name: string, i: nat)
    requires i <= c <= |s|
    ensures IsCut(s, c, AfterName(s, name, i), AfterName(s[..c], name, i))
  {
    IndexOfCut(s, c, i, ':');
    var colon := IndexOf(s, ':', i);
    if colon != -1 && colon < c { ReadValueCut(s, c, name, colon + 1); }
  }

  lemma {:induction false} ReadValueCut(s: string, c: nat, name: string, i: nat)
    requires i <= c <= |s|
    ensures IsCut(s, c, ReadValue(s, name, SkipSpace(s, i)), ReadValue(s[..c], name, SkipSpace(s[..c], i)))
  {
    SkipSpaceCut(s, c, i);
    if SkipSpace(s, i) < c { ValueEndCut(s, c, SkipSpace(s, i)); }
  }

  lemma {:induction false} NameCut(s: string, c: nat, i: nat, j: nat)
    requires i <= j <= c <= |s|
    ensures s[..c][i..j] == s[i..j]
  {
  }

  lemma {:induction false} ValueEndCut(s: string, c: nat, start: nat)
    requires start < c <= |s|
    ensures var r := ValueEnd(s, start);
            ValueEnd(s[..c], start) == if r <= c then r
                                       else if s[start] == '\"' || Opens(s[start]) then -1 else c
  {
    StringEndCut(s, c, start + 1);
    NestedEndCut(s, c, start, 0);
    BareEndCut(s, c, start);
  }

  lemma {:induction false} NextEntryCut(s: string, c: nat, i: nat)
    requires c <= |s|
    ensures IsCut(s, c, NextEntry(s, i), NextEntry(s[..c], i))
    decreases |s| - i
  {
    if i < c {
      if JsSpace(s[i]) || s[i] == ',' { NextEntryCut(s, c, i + 1); }
      else if s[i] == '\"' { ReadEntryCut(s, c, i); }
    } else {
      NextIsTrimmed(s, i);
    }
  }

  lemma {:induction false} FindEntryCut(s: string, c: nat, i: nat, key: string)
    requires c <= |s|
    ensures IsCut(s, c, FindEntry(s, i, key), FindEntry(s[..c], i, key))
    decreases |s| - i
  {
    NextEntryCut(s, c, i);
    var e := NextEntry(s, i);
    if e.Some? && e.value.name != key {
      FindEntryCut(s, c, e.value.end, key);
      FoundIsTrimmed(s, e.value.end, key);
      if e.value.start < c < e.value.end { NextEntryCut(s, c, c); }
    }
  }

  lemma {:induction false} NumberIsAccepted(t: string)
    requires Number(t)
    ensures Accepts(t)
  {
    assert Valid(Bare(t)) && Print(Bare(t)) == t && Blanks("") && t == "" + Print(Bare(t)) + "";
  }

  lemma {:induction false} AcceptedTokenPart(token: string, n: nat)
    requires BareToken(token) && 0 < n <= |token| && Accepts(token[..n])
    ensures BareToken(token[..n])
  {
    var t := token[..n];
    BareTokenChars(token);
    assert TokenChar(t[0]) && TokenChar(t[n - 1]);
    NoBlankEdges(t);
    var v :| Valid(v) && t == Print(v);
    assert Print(v)[0] == t[0];
    assert v.Bare?;
  }

  /** The part of a token before a cut is a JSON text exactly when it is a number. */
  lemma {:induction false} TokenPrefix(token: string, n: nat)
    requires BareToken(token) && 0 < n < |token|
    ensures Accepts(token[..n]) <==> Number(token[..n])
  {
    if Number(token[..n]) { NumberIsAccepted(token[..n]); }
    if Accepts(token[..n]) { AcceptedTokenPart(token, n); }
  }

  /** Where the documentation promises null and the code answers: a frame cut at `c` gives the
      whole first member of that name when the cut is behind its value, the digits before the cut
      when the cut falls inside a number at a place where those digits are a number themselves,
      and null in every other case. */
  lemma {:induction false} SliceOfTruncated(s: string, lead: string, obj: Json, c: nat, key: string,
                                            parses: string -> bool)
    requires IsFrame(s, lead, obj, "") && c <= |s|
    requires forall t :: parses(t) <==> Accepts(t)
    ensures var first, entry := FirstNamed(obj.members, key), FindEntry(s, |lead| + 1, key);
            && Stands(s, entry, first)
            && Slice(s[..c], key, parses) == if entry.None? then None else LeftOf(first.value, entry.value, c)
  {
    FrameEntry(s, lead, obj, "", key);
    if c <= |lead| {
      CutInLead(s, |lead|, c, key, parses);
    } else {
      CutStanding(s, |lead|, c, key, FirstNamed(obj.members, key), parses);
    }
  }

  /** What is answered of the value `v`, which stands at `e`, when the text is cut at `c`. */
  function LeftOf(v: Json, e: Entry, c: nat): Option<string>
    requires e.end == e.start + Width(v)
  {
    if e.end <= c then Some(Print(v))
    else if e.start < c && v.Bare? && Number(v.token[..c - e.start]) then Some(v.token[..c - e.start])
    else None
  }

  lemma {:induction false} CutStanding(s: string, opening: nat, c: nat, key: string, first: Members,
      parses: string -> bool)
    requires opening < c <= |s| && IndexOf(s, '{', 0) == opening && forall k | 0 <= k < opening :: JsSpace(s[k])
    requires Stands(s, FindEntry(s, opening + 1, key), first) && (first.Member? ==> Valid(first.value))
    requires forall t :: parses(t) <==> Accepts(t)
    ensures var entry := FindEntry(s, opening + 1, key);
            Slice(s[..c], key, parses) == if entry.None? then None else LeftOf(first.value, entry.value, c)
  {
    var entry := FindEntry(s, opening + 1, key);
    CutSlice(s, opening, c, key, parses);
    if entry.Some? { CutValue(s, c, entry.value, first.value, parses); }
  }

  lemma {:induction false} CutInLead(s: string, opening: nat, c: nat, key: string, parses: string -> bool)
    requires c <= opening < |s| && IndexOf(s, '{', 0) == opening
    ensures Slice(s[..c], key, parses) == None
    ensures FindEntry(s, opening + 1, key).Some? ==> c < FindEntry(s, opening + 1, key).value.start
  {
    IndexOfCut(s, c, 0, '{');
    FoundIsTrimmed(s, opening + 1, key);
  }

  lemma {:induction false} CutSlice(s: string, opening: nat, c: nat, key: string, parses: string -> bool)
    requires opening < c <= |s| && IndexOf(s, '{', 0) == opening
    requires forall k | 0 <= k < opening :: JsSpace(s[k])
    ensures var entry := FindEntry(s, opening + 1, key);
            && (entry.Some? ==> entry.value.start < |s|)
            && Slice(s[..c], key, parses) ==
               if entry.None? then None else SliceCut(s, CutEntry(s, entry.value, c), parses)
  {
    IndexOfCut(s, c, 0, '{');
    FindEntryCut(s, c, opening + 1, key);
    SliceIs(s[..c], opening, key, parses);
    SliceCutStays(s, c, FindEntry(s[..c], opening + 1, key), parses);
  }

  lemma {:induction false} SliceIs(s: string, opening: nat, key: string, parses: string -> bool)
    requires opening < |s| && IndexOf(s, '{', 0) == opening && forall k | 0 <= k < opening :: JsSpace(s[k])
    ensures Slice(s, key, parses) == SliceCut(s, FindEntry(s, opening + 1, key), parses)
  {
  }

  lemma {:induction false} SliceCutStays(s: string, c: nat, e: Option<Entry>, parses: string -> bool)
    requires c <= |s| && (e.Some? ==> e.value.start <= e.value.end <= c)
    ensures SliceCut(s[..c], e, parses) == SliceCut(s, e, parses)
  {
    if e.Some? { NameCut(s, c, e.value.start, e.value.end); }
  }

  function SliceCut(s: string, e: Option<Entry>, parses: string -> bool): Option<string> {
    if e.Some? && e.value.start <= e.value.end <= |s| && parses(s[e.value.start..e.value.end])
    then Some(s[e.value.start..e.value.end])
    else None
  }

  /** What is left of a value when the text is cut at `c`. */
  lemma {:induction false} CutValue(s: string, c: nat, e: Entry, v: Json, parses: string -> bool)
    requires Valid(v) && ValueAt(s, e.start, v) && e.end == e.start + Width(v) && c <= |s|
    requires forall t :: parses(t) <==> Accepts(t)
    ensures e.start < e.end <= |s|
    ensures SliceCut(s, CutEntry(s, e, c), parses) == LeftOf(v, e, c)
  {
    WholeValue(s, e, v, parses);
    CutEntryIs(s, c, e, v);
    if e.start < c < e.end && v.Bare? { CutToken(s, c, e, v.token, parses); }
  }

  lemma {:induction false} CutEntryIs(s: string, c: nat, e: Entry, v: Json)
    requires Valid(v) && ValueAt(s, e.start, v) && e.start < |s|
    ensures CutEntry(s, e, c)
         == if e.start >= c then None else if e.end <= c then Some(e) else if v.Bare? then Some(e.(end := c)) else None
  {
    ValueOpens(s, e.start, v);
  }

  lemma {:induction false} CutToken(s: string, c: nat, e: Entry, token: string, parses: string -> bool)
    requires BareToken(token) && At(s, e.start, token) && e.start < c < e.end == e.start + |token|
    requires forall t :: parses(t) <==> Accepts(t)
    ensures c <= |s|
    ensures SliceCut(s, Some(e.(end := c)), parses)
         == if Number(token[..c - e.start]) then Some(token[..c - e.start]) else None
  {
    TokenCut(s, e.start, c, token);
  }

  lemma {:induction false} WholeValue(s: string, e: Entry, v: Json, parses: string -> bool)
    requires Valid(v) && ValueAt(s, e.start, v) && e.end == e.start + Width(v)
    requires forall t :: parses(t) <==> Accepts(t)
    ensures e.start < e.end <= |s| && s[e.start..e.end] == Print(v) && parses(Print(v))
  {
    SpelledText(s, e.start, v);
    PrintIsNotEmpty(v);
    assert Blanks("") && Print(v) == "" + Print(v) + "";
  }

  lemma {:induction false} ValueOpens(s: string, i: nat, v: Json)
    requires Valid(v) && ValueAt(s, i, v) && i < |s|
    ensures v.Bare? <==> !(s[i] == '\"' || Opens(s[i]))
  {
    if v.Bare? {
      BareTokenChars(v.token);
      assert s[i] == v.token[0];
    }
  }

  lemma {:induction false} TokenCut(s: string, i: nat, c: nat, token: string)
    requires BareToken(token) && At(s, i, token) && i < c < i + |token|
    ensures s[i..c] == token[..c - i]
    ensures Accepts(token[..c - i]) <==> Number(token[..c - i])
  {
    TokenPrefix(token, c - i);
  }

  const SMALLEST := "{\"a\":1}"

  const SMALLEST_OBJECT := Obj("", Member("", "a", "", "", Bare("1"), "", NoMembers))

  lemma {:induction false} SmallestIsFrame()
    requires Print(SMALLEST_OBJECT) == SMALLEST
    ensures IsFrame(SMALLEST, "", SMALLEST_OBJECT, "")
  {
    assert Number("1");
    assert StringBody("a");
    assert "" + SMALLEST + "" == SMALLEST;
  }

  lemma {:induction false} SmallestFrame()
    ensures Print(SMALLEST_OBJECT) == SMALLEST
  {
    var m := Member("", "a", "", "", Bare("1"), "", NoMembers);
    assert Print(m.value) + (m.after + CommaMembers(m.rest)) == "1";
    assert ":" + (m.beforeValue + "1") == ":1";
    assert Quoted("a") == "\"a\"";
    assert m.before + (Quoted("a") + (m.afterName + ":1")) == "\"a\":1";
    assert PrintMembers(m) == "\"a\":1";
    assert "" + (PrintMembers(m) + "}") == "\"a\":1}";
    assert "{" + "\"a\":1}" == "{\"a\":1}";
  }

  /** The smallest of them: a truncated frame that is not refused. */
  lemma {:induction false} TruncatedFrameAnswers(parses: string -> bool)
    requires forall t :: parses(t) <==> Accepts(t)
    ensures Slice("{\"a\":1", "a", parses) == Some("1")
  {
    SmallestFrame();
    SmallestIsFrame();
    SliceOfTruncated(SMALLEST, "", SMALLEST_OBJECT, 6, "a", parses);
    assert SMALLEST[..6] == "{\"a\":1";
  }
}
