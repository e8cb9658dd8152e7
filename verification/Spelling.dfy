/** Where the parts of a printed JSON value stand in a text, without the concatenations: the
    scanners are reasoned about over this relation, position by position, and `PrintSpells` and
    `SpelledText` tie it to what `Print` makes of the whole value. */
module Spelling {
  import opened JsonText

  /** `piece` stands in `s` at index `i`. */
  predicate At(s: string, i: nat, piece: string) {
    i + |piece| <= |s| && forall k | 0 <= k < |piece| :: s[i + k] == piece[k]
  }

  predicate CharAt(s: string, i: nat, c: char) {
    i < |s| && s[i] == c
  }

  /** The length of a value's text. */
  function Width(v: Json): (n: nat) {
    match v
    case Text(body) => |body| + 2
    case Bare(token) => |token|
    case Arr(pad, items) => |pad| + ItemsWidth(items) + 2
    case Obj(pad, members) => |pad| + MembersWidth(members) + 2
  }

  function ItemsWidth(items: Items): (n: nat) {
    match items
    case NoItems => 0
    case Item(before, value, after, rest) =>
      |before| + Width(value) + |after| + (if rest.NoItems? then 0 else 1 + ItemsWidth(rest))
  }

  function MembersWidth(members: Members): (n: nat) {
    match members
    case NoMembers => 0
    case Member(before, name, afterName, beforeValue, value, after, rest) =>
      NameWidth(members) + Width(value) + |after|
      + (if rest.NoMembers? then 0 else 1 + MembersWidth(rest))
  }

  /** From the start of a member to its value. */
  function NameWidth(m: Members): (n: nat)
    requires m.Member?
  {
    |m.before| + |m.name| + |m.afterName| + |m.beforeValue| + 3
  }

  predicate QuotedAt(s: string, i: nat, body: string) {
    CharAt(s, i, '\"') && At(s, i + 1, body) && CharAt(s, i + 1 + |body|, '\"')
  }

  /** `s` spells the value `v` at `i`. */
  predicate ValueAt(s: string, i: nat, v: Json)
    decreases v
  {
    match v
    case Text(body) => QuotedAt(s, i, body)
    case Bare(token) => At(s, i, token)
    case Arr(pad, items) =>
      && CharAt(s, i, '[') && At(s, i + 1, pad) && ItemsAt(s, i + 1 + |pad|, items)
      && CharAt(s, i + 1 + |pad| + ItemsWidth(items), ']')
    case Obj(pad, members) =>
      && CharAt(s, i, '{') && At(s, i + 1, pad) && MembersAt(s, i + 1 + |pad|, members)
      && CharAt(s, i + 1 + |pad| + MembersWidth(members), '}')
  }

  predicate ItemsAt(s: string, i: nat, items: Items)
    decreases items
  {
    match items
    case NoItems => true
    case Item(before, value, after, rest) =>
      var j := i + |before|;
      var k := j + Width(value);
      && At(s, i, before) && ValueAt(s, j, value) && At(s, k, after)
      && (rest.Item? ==> CharAt(s, k + |after|, ',') && ItemsAt(s, k + |after| + 1, rest))
  }

  /** The name, the colon and the blanks of the first member of `m`. */
  predicate NameAt(s: string, i: nat, m: Members)
    requires m.Member?
  {
    var colon := i + |m.before| + |m.name| + 2 + |m.afterName|;
    && At(s, i, m.before) && QuotedAt(s, i + |m.before|, m.name)
    && At(s, i + |m.before| + |m.name| + 2, m.afterName)
    && CharAt(s, colon, ':') && At(s, colon + 1, m.beforeValue)
  }

  predicate MembersAt(s: string, i: nat, members: Members)
    decreases members
  {
    match members
    case NoMembers => true
    case Member(before, name, afterName, beforeValue, value, after, rest) =>
      var j := i + NameWidth(members);
      var k := j + Width(value);
      && NameAt(s, i, members) && ValueAt(s, j, value) && At(s, k, after)
      && (rest.Member? ==> CharAt(s, k + |after|, ',') && MembersAt(s, k + |after| + 1, rest))
  }

  // ---------- A printed value is spelled ----------

  lemma {:induction false} AtSplit(s: string, i: nat, a: string, b: string)
    requires At(s, i, a + b)
    ensures At(s, i, a) && At(s, i + |a|, b)
  {
    forall k | 0 <= k < |a| ensures s[i + k] == a[k] { assert (a + b)[k] == a[k]; }
    forall k | 0 <= k < |b| ensures s[i + |a| + k] == b[k] { assert (a + b)[|a| + k] == b[k]; }
  }

  lemma {:induction false} AtOne(s: string, i: nat, piece: string)
    requires At(s, i, piece) && |piece| == 1
    ensures CharAt(s, i, piece[0])
  {
  }

  lemma {:induction false} QuotedSplit(s: string, i: nat, body: string)
    requires At(s, i, Quoted(body))
    ensures QuotedAt(s, i, body) && |Quoted(body)| == |body| + 2
  {
    assert Quoted(body) == "\"" + (body + "\"");
    AtSplit(s, i, "\"", body + "\"");
    AtSplit(s, i + 1, body, "\"");
    AtOne(s, i, "\"");
    AtOne(s, i + 1 + |body|, "\"");
  }

  lemma {:induction false} ContainerSplit(s: string, i: nat, open: string, pad: string, inside: string, close: string)
    requires |open| == |close| == 1 && At(s, i, open + (pad + (inside + close)))
    ensures CharAt(s, i, open[0]) && At(s, i + 1, pad) && At(s, i + 1 + |pad|, inside)
    ensures CharAt(s, i + 1 + |pad| + |inside|, close[0])
  {
    AtSplit(s, i, open, pad + (inside + close));
    AtSplit(s, i + 1, pad, inside + close);
    AtSplit(s, i + 1 + |pad|, inside, close);
    AtOne(s, i, open);
    AtOne(s, i + 1 + |pad| + |inside|, close);
  }

  lemma {:induction false} PrintSpells(s: string, i: nat, v: Json)
    requires At(s, i, Print(v))
    ensures ValueAt(s, i, v) && Width(v) == |Print(v)|
    decreases v
  {
    match v
    case Text(body) => QuotedSplit(s, i, body);
    case Bare(token) =>
    case Arr(pad, items) =>
      ContainerSplit(s, i, "[", pad, PrintItems(items), "]");
      ItemsSpell(s, i + 1 + |pad|, items);
    case Obj(pad, members) =>
      ContainerSplit(s, i, "{", pad, PrintMembers(members), "}");
      MembersSpell(s, i + 1 + |pad|, members);
  }

  lemma {:induction false} ItemsSpell(s: string, i: nat, items: Items)
    requires At(s, i, PrintItems(items))
    ensures ItemsAt(s, i, items) && ItemsWidth(items) == |PrintItems(items)|
    decreases items
  {
    match items
    case NoItems =>
    case Item(before, value, after, rest) =>
      var j := i + |before|;
      var k := j + |Print(value)|;
      AtSplit(s, i, before, Print(value) + (after + CommaItems(rest)));
      AtSplit(s, j, Print(value), after + CommaItems(rest));
      AtSplit(s, k, after, CommaItems(rest));
      PrintSpells(s, j, value);
      if rest.Item? {
        AtSplit(s, k + |after|, ",", PrintItems(rest));
        AtOne(s, k + |after|, ",");
        ItemsSpell(s, k + |after| + 1, rest);
      }
  }

  /** A member's text, up to its value and from it. */
  lemma {:induction false} NameSpells(s: string, i: nat, m: Members, tail: string)
    requires m.Member?
    requires At(s, i, m.before + (Quoted(m.name) + (m.afterName + (":" + (m.beforeValue + tail)))))
    ensures NameAt(s, i, m) && At(s, i + NameWidth(m), tail)
  {
    var j := i + |m.before|;
    var k := j + |m.name| + 2;
    var colon := k + |m.afterName|;
    AtSplit(s, i, m.before, Quoted(m.name) + (m.afterName + (":" + (m.beforeValue + tail))));
    AtSplit(s, j, Quoted(m.name), m.afterName + (":" + (m.beforeValue + tail)));
    QuotedSplit(s, j, m.name);
    AtSplit(s, k, m.afterName, ":" + (m.beforeValue + tail));
    AtSplit(s, colon, ":", m.beforeValue + tail);
    AtOne(s, colon, ":");
    AtSplit(s, colon + 1, m.beforeValue, tail);
  }

  lemma {:induction false} MembersSpell(s: string, i: nat, m: Members)
    requires At(s, i, PrintMembers(m))
    ensures MembersAt(s, i, m) && MembersWidth(m) == |PrintMembers(m)|
    decreases m
  {
    if m.Member? {
      var j := i + NameWidth(m);
      var k := j + |Print(m.value)|;
      NameSpells(s, i, m, Print(m.value) + (m.after + CommaMembers(m.rest)));
      AtSplit(s, j, Print(m.value), m.after + CommaMembers(m.rest));
      AtSplit(s, k, m.after, CommaMembers(m.rest));
      PrintSpells(s, j, m.value);
      if m.rest.Member? {
        AtSplit(s, k + |m.after|, ",", PrintMembers(m.rest));
        AtOne(s, k + |m.after|, ",");
        MembersSpell(s, k + |m.after| + 1, m.rest);
      }
    }
  }

  // ---------- A spelled value is printed ----------

  lemma {:induction false} AtJoin(s: string, i: nat, a: string, b: string)
    requires At(s, i, a) && At(s, i + |a|, b)
    ensures At(s, i, a + b)
  {
    forall k | 0 <= k < |a + b| ensures s[i + k] == (a + b)[k] {
      if k >= |a| { assert s[i + |a| + (k - |a|)] == b[k - |a|]; }
    }
  }

  lemma {:induction false} QuotedJoin(s: string, i: nat, body: string)
    requires QuotedAt(s, i, body)
    ensures At(s, i, Quoted(body)) && |Quoted(body)| == |body| + 2
  {
    AtJoin(s, i, "\"", body);
    AtJoin(s, i, "\"" + body, "\"");
  }

  lemma {:induction false} ContainerJoin(s: string, i: nat, open: string, pad: string, inside: string, close: string)
    requires |open| == |close| == 1
    requires CharAt(s, i, open[0]) && At(s, i + 1, pad) && At(s, i + 1 + |pad|, inside)
    requires CharAt(s, i + 1 + |pad| + |inside|, close[0])
    ensures At(s, i, open + (pad + (inside + close)))
  {
    AtJoin(s, i + 1 + |pad|, inside, close);
    AtJoin(s, i + 1, pad, inside + close);
    AtJoin(s, i, open, pad + (inside + close));
  }

  /** The relation says no more and no less than `Print` does. */
  lemma {:induction false} SpelledIsPrinted(s: string, i: nat, v: Json)
    requires ValueAt(s, i, v)
    ensures At(s, i, Print(v)) && |Print(v)| == Width(v)
    decreases v
  {
    match v
    case Text(body) => QuotedJoin(s, i, body);
    case Bare(token) =>
    case Arr(pad, items) =>
      ItemsPrinted(s, i + 1 + |pad|, items);
      ContainerJoin(s, i, "[", pad, PrintItems(items), "]");
    case Obj(pad, members) =>
      MembersPrinted(s, i + 1 + |pad|, members);
      ContainerJoin(s, i, "{", pad, PrintMembers(members), "}");
  }

  lemma {:induction false} ItemsPrinted(s: string, i: nat, items: Items)
    requires ItemsAt(s, i, items)
    requires i + ItemsWidth(items) <= |s|
    ensures At(s, i, PrintItems(items)) && |PrintItems(items)| == ItemsWidth(items)
    decreases items
  {
    match items
    case NoItems =>
    case Item(before, value, after, rest) =>
      var j := i + |before|;
      var k := j + Width(value);
      SpelledIsPrinted(s, j, value);
      if rest.Item? {
        ItemsPrinted(s, k + |after| + 1, rest);
        AtJoin(s, k + |after|, ",", PrintItems(rest));
      }
      AtJoin(s, k, after, CommaItems(rest));
      AtJoin(s, j, Print(value), after + CommaItems(rest));
      AtJoin(s, i, before, Print(value) + (after + CommaItems(rest)));
  }

  lemma {:induction false} NamePrinted(s: string, i: nat, m: Members, tail: string)
    requires m.Member? && NameAt(s, i, m) && At(s, i + NameWidth(m), tail)
    ensures At(s, i, m.before + (Quoted(m.name) + (m.afterName + (":" + (m.beforeValue + tail)))))
  {
    var j := i + |m.before|;
    var k := j + |m.name| + 2;
    var colon := k + |m.afterName|;
    QuotedJoin(s, j, m.name);
    AtJoin(s, colon + 1, m.beforeValue, tail);
    AtJoin(s, colon, ":", m.beforeValue + tail);
    AtJoin(s, k, m.afterName, ":" + (m.beforeValue + tail));
    AtJoin(s, j, Quoted(m.name), m.afterName + (":" + (m.beforeValue + tail)));
    AtJoin(s, i, m.before, Quoted(m.name) + (m.afterName + (":" + (m.beforeValue + tail))));
  }

  lemma {:induction false} MembersPrinted(s: string, i: nat, m: Members)
    requires MembersAt(s, i, m)
    requires i + MembersWidth(m) <= |s|
    ensures At(s, i, PrintMembers(m)) && |PrintMembers(m)| == MembersWidth(m)
    decreases m
  {
    if m.Member? {
      var j := i + NameWidth(m);
      var k := j + Width(m.value);
      SpelledIsPrinted(s, j, m.value);
      if m.rest.Member? {
        MembersPrinted(s, k + |m.after| + 1, m.rest);
        AtJoin(s, k + |m.after|, ",", PrintMembers(m.rest));
      }
      AtJoin(s, k, m.after, CommaMembers(m.rest));
      AtJoin(s, j, Print(m.value), m.after + CommaMembers(m.rest));
      NamePrinted(s, i, m, Print(m.value) + (m.after + CommaMembers(m.rest)));
      MemberText(m);
    }
  }

  lemma {:induction false} MemberText(m: Members)
    requires m.Member?
    ensures PrintMembers(m)
         == m.before + (Quoted(m.name) + (m.afterName + (":" + (m.beforeValue
                     + (Print(m.value) + (m.after + CommaMembers(m.rest)))))))
    ensures |PrintMembers(m)| == NameWidth(m) + |Print(m.value)| + |m.after| + |CommaMembers(m.rest)|
  {
  }

  lemma {:induction false} SpelledText(s: string, i: nat, v: Json)
    requires ValueAt(s, i, v)
    ensures i + Width(v) <= |s| && s[i..i + Width(v)] == Print(v)
  {
    SpelledIsPrinted(s, i, v);
  }
}
