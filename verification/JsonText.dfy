/** JSON texts as RFC 8259 sections 2, 4, 5, 6 and 7 define them: concrete syntax trees that
    keep every blank, every escape and every digit, and the text each tree stands for. A text is
    accepted exactly where some tree prints to it, with blanks around it. */
module JsonText {

  datatype Json =
    | Text(body: string)   // a string; `body` is what stands between the quotes, undecoded
    | Bare(token: string)  // a number or one of the three literals
    | Arr(pad: string, items: Items)
    | Obj(pad: string, members: Members)

  datatype Items =
    | NoItems
    | Item(before: string, value: Json, after: string, rest: Items)

  datatype Members =
    | NoMembers
    | Member(before: string, name: string, afterName: string, beforeValue: string,
             value: Json, after: string, rest: Members)

  // ---------- The text of a tree ----------

  function Quoted(body: string): string {
    "\"" + body + "\""
  }

  function Print(v: Json): string
    decreases v, 0
  {
    match v
    case Text(body) => Quoted(body)
    case Bare(token) => token
    case Arr(pad, items) => "[" + (pad + (PrintItems(items) + "]"))
    case Obj(pad, members) => "{" + (pad + (PrintMembers(members) + "}"))
  }

  function PrintItems(items: Items): string
    decreases items, 0
  {
    match items
    case NoItems => ""
    case Item(before, value, after, rest) => before + (Print(value) + (after + CommaItems(rest)))
  }

  function CommaItems(rest: Items): string
    decreases rest, 1
  {
    if rest.NoItems? then "" else "," + PrintItems(rest)
  }

  function PrintMembers(members: Members): string
    decreases members, 0
  {
    match members
    case NoMembers => ""
    case Member(before, name, afterName, beforeValue, value, after, rest) =>
      before + (Quoted(name) + (afterName + (":" + (beforeValue
             + (Print(value) + (after + CommaMembers(rest)))))))
  }

  function CommaMembers(rest: Members): string
    decreases rest, 1
  {
    if rest.NoMembers? then "" else "," + PrintMembers(rest)
  }

  // ---------- Which trees are well formed ----------

  predicate Blank(c: char) {
    c == ' ' || c == '\t' || c == '\n' || c == '\r'
  }

  predicate Blanks(s: string) {
    forall k | 0 <= k < |s| :: Blank(s[k])
  }

  predicate Digit(c: char) {
    '0' <= c <= '9'
  }

  predicate Hex(c: char) {
    Digit(c) || 'a' <= c <= 'f' || 'A' <= c <= 'F'
  }

  predicate ShortEscape(c: char) {
    c == '\"' || c == '\\' || c == '/' || c == 'b' || c == 'f' || c == 'n' || c == 'r' || c == 't'
  }

  /** Section 7: unescaped characters, two-character escapes and \uXXXX, from index `k` on. */
  predicate StringBody(s: string, k: nat := 0)
    decreases |s| - k
  {
    if k >= |s| then k == |s|
    else if s[k] != '\\' then s[k] != '\"' && s[k] >= ' ' && StringBody(s, k + 1)
    else if k + 1 < |s| && ShortEscape(s[k + 1]) then StringBody(s, k + 2)
    else HexEscape(s, k + 1) && StringBody(s, k + 6)
  }

  predicate HexEscape(s: string, k: nat) {
    k + 5 <= |s| && s[k] == 'u' && Hex(s[k + 1]) && Hex(s[k + 2]) && Hex(s[k + 3]) && Hex(s[k + 4])
  }

  /** The index after the run of digits at `i`. */
  function DigitsEnd(s: string, i: nat): (r: nat)
    requires i <= |s|
    ensures i <= r <= |s|
    decreases |s| - i
  {
    if i < |s| && Digit(s[i]) then DigitsEnd(s, i + 1) else i
  }

  /** Section 6: an optional minus, an integer with no leading zero, a fraction, an exponent. */
  predicate Number(s: string) {
    var i := if s != "" && s[0] == '-' then 1 else 0;
    IntegerEnd(s, i) > i && FractionFrom(s, IntegerEnd(s, i))
  }

  function IntegerEnd(s: string, i: nat): (r: nat)
    requires i <= |s|
    ensures i <= r <= |s|
  {
    if i < |s| && s[i] == '0' then i + 1 else DigitsEnd(s, i)
  }

  predicate FractionFrom(s: string, i: nat)
    requires i <= |s|
  {
    if i < |s| && s[i] == '.' then DigitsEnd(s, i + 1) > i + 1 && ExponentFrom(s, DigitsEnd(s, i + 1))
    else ExponentFrom(s, i)
  }

  predicate ExponentFrom(s: string, i: nat)
    requires i <= |s|
  {
    i == |s| || ((s[i] == 'e' || s[i] == 'E') && DigitsFrom(s, AfterSign(s, i + 1)))
  }

  function AfterSign(s: string, i: nat): (r: nat)
    requires i <= |s|
    ensures i <= r <= |s|
  {
    if i < |s| && (s[i] == '+' || s[i] == '-') then i + 1 else i
  }

  predicate DigitsFrom(s: string, i: nat)
    requires i <= |s|
  {
    i < |s| && DigitsEnd(s, i) == |s|
  }

  predicate BareToken(s: string) {
    s == "true" || s == "false" || s == "null" || Number(s)
  }

  predicate Valid(v: Json) {
    match v
    case Text(body) => StringBody(body)
    case Bare(token) => BareToken(token)
    case Arr(pad, items) => Blanks(pad) && ValidItems(items)
    case Obj(pad, members) => Blanks(pad) && ValidMembers(members)
  }

  predicate ValidItems(items: Items) {
    match items
    case NoItems => true
    case Item(before, value, after, rest) =>
      Blanks(before) && Valid(value) && Blanks(after) && ValidItems(rest)
  }

  predicate ValidMembers(members: Members) {
    match members
    case NoMembers => true
    case Member(_, _, _, _, value, after, rest) =>
      ValidName(members) && Valid(value) && Blanks(after) && ValidMembers(rest)
  }

  predicate ValidName(m: Members)
    requires m.Member?
  {
    Blanks(m.before) && StringBody(m.name) && Blanks(m.afterName) && Blanks(m.beforeValue)
  }

  /** What a conforming parser accepts (section 2): one value between blanks. */
  ghost predicate Accepts(text: string) {
    exists pre, v, post ::
      Blanks(pre) && Valid(v) && Blanks(post) && text == pre + Print(v) + post
  }

  /** The first member of an object whose undecoded name is `key`. */
  function FirstNamed(members: Members, key: string): (r: Members)
    ensures r.Member? ==> r.name == key
    ensures r.Member? && ValidMembers(members) ==> Valid(r.value)
  {
    match members
    case NoMembers => NoMembers
    case Member(_, name, _, _, _, _, rest) => if name == key then members else FirstNamed(rest, key)
  }

  // ---------- Facts about tokens ----------

  /** No character of a bare token is structural. */
  predicate TokenChar(c: char) {
    Digit(c) || 'a' <= c <= 'z' || c == '+' || c == '-' || c == '.' || c == 'E'
  }

  predicate TokenChars(s: string, i: nat, j: nat) {
    i <= j <= |s| && forall k | i <= k < j :: TokenChar(s[k])
  }

  lemma {:induction false} BareTokenChars(s: string)
    requires BareToken(s)
    ensures s != "" && TokenChars(s, 0, |s|)
  {
    if Number(s) {
      var i := if s[0] == '-' then 1 else 0;
      DigitChars(s, i);
      FractionChars(s, IntegerEnd(s, i));
    }
  }

  lemma {:induction false} DigitChars(s: string, i: nat)
    requires i <= |s|
    ensures TokenChars(s, i, DigitsEnd(s, i))
    decreases |s| - i
  {
    if i < |s| && Digit(s[i]) { DigitChars(s, i + 1); }
  }

  lemma {:induction false} FractionChars(s: string, i: nat)
    requires i <= |s| && FractionFrom(s, i)
    ensures TokenChars(s, i, |s|)
  {
    if i < |s| && s[i] == '.' {
      DigitChars(s, i + 1);
      ExponentChars(s, DigitsEnd(s, i + 1));
    } else {
      ExponentChars(s, i);
    }
  }

  lemma {:induction false} ExponentChars(s: string, i: nat)
    requires i <= |s| && ExponentFrom(s, i)
    ensures TokenChars(s, i, |s|)
  {
    if i < |s| { DigitChars(s, AfterSign(s, i + 1)); }
  }
}
