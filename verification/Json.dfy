/** JSON text (RFC 8259) as JSON.parse reads it and JSON.stringify writes it without spacing. */
module Json {
  import opened Wrappers
  import opened Text

  /** A number is kept as its literal; an object as its members in order. */
  datatype Value =
    | Null | Bool(b: bool) | Num(literal: string) | Str(s: string)
    | Arr(items: seq<Value>) | Obj(members: seq<Member>)

  datatype Member = Member(name: string, value: Value)

  // ----- printing -----

  function HexDigit(n: nat): (c: char)
    requires n < 16
    ensures '0' <= c <= '9' || 'a' <= c <= 'f'
  {
    (if n < 10 then n + '0' as int else n - 10 + 'a' as int) as char
  }

  /** The letter of a two-character escape. */
  function ShortEscape(c: char): Option<char> {
    if c == '\"' || c == '\\' then Some(c)
    else if c == '\U{8}' then Some('b')
    else if c == '\U{C}' then Some('f')
    else if c == '\n' then Some('n')
    else if c == '\r' then Some('r')
    else if c == '\t' then Some('t')
    else None
  }

  /** Escaping in a string literal, section 7 of RFC 8259. */
  function Escape(c: char): string {
    if ShortEscape(c).Some? then ['\\', ShortEscape(c).value]
    else if c < ' ' then ['\\', 'u', '0', '0', HexDigit(c as int / 16), HexDigit(c as int % 16)]
    else [c]
  }

  function QuoteBody(s: string): string {
    if s == [] then "" else Escape(s[0]) + QuoteBody(s[1..])
  }

  function Quote(s: string): string { "\"" + QuoteBody(s) + "\"" }

  function Print(v: Value): string {
    match v
    case Null => "null"
    case Bool(b) => if b then "true" else "false"
    case Num(literal) => literal
    case Str(s) => Quote(s)
    case Arr(items) => "[" + PrintItems(items) + "]"
    case Obj(members) => "{" + PrintMembers(members) + "}"
  }

  function PrintItems(items: seq<Value>): string {
    if items == [] then ""
    else if |items| == 1 then Print(items[0])
    else Print(items[0]) + "," + PrintItems(items[1..])
  }

  function PrintMember(m: Member): string { Quote(m.name) + ":" + Print(m.value) }

  function PrintMembers(members: seq<Member>): string {
    if members == [] then ""
    else if |members| == 1 then PrintMember(members[0])
    else PrintMember(members[0]) + "," + PrintMembers(members[1..])
  }

  // ----- parsing -----

  predicate Space(c: char) { c == ' ' || c == '\t' || c == '\n' || c == '\r' }

  function SkipSpace(s: string): string { TrimLeft(s, Space) }

  lemma SkipShrinks(s: string)
    ensures |SkipSpace(s)| <= |s|
  {
    TrimLeftStarts(s, Space);
  }

  function HexValue(c: char): Option<nat> {
    if '0' <= c <= '9' then Some(c as int - '0' as int)
    else if 'a' <= c <= 'f' then Some(c as int - 'a' as int + 10)
    else if 'A' <= c <= 'F' then Some(c as int - 'A' as int + 10)
    else None
  }

  /** The code unit written by four hexadecimal digits. */
  function Hex4(s: string): Option<nat> {
    if |s| < 4 then None
    else
      match (HexValue(s[0]), HexValue(s[1]), HexValue(s[2]), HexValue(s[3]))
      case (Some(a), Some(b), Some(c), Some(d)) => Some(((a * 16 + b) * 16 + c) * 16 + d)
      case _ => None
  }

  const REPLACEMENT := '\U{FFFD}'

  /** A `\u` escape: one code unit, or two that form a surrogate pair. */
  function ParseUnicode(s: string): (r: Option<(char, string)>)
    ensures r.Some? ==> |r.value.1| < |s|
  {
    var unit := Hex4(s);
    if unit.None? then None
    else if unit.value < 0xD800 || 0xE000 <= unit.value < 0x1_0000 then Some((unit.value as char, s[4..]))
    else if unit.value < 0xDC00 && |s| >= 10 && s[4] == '\\' && s[5] == 'u' && Hex4(s[6..]).Some?
            && 0xDC00 <= Hex4(s[6..]).value < 0xE000 then
      Some(((0x1_0000 + (unit.value - 0xD800) * 0x400 + (Hex4(s[6..]).value - 0xDC00)) as char, s[10..]))
    else Some((REPLACEMENT, s[4..]))
  }

  /** The character that a two-character escape stands for. */
  function ShortUnescape(e: char): Option<char> {
    if e == '\"' || e == '\\' || e == '/' then Some(e)
    else if e == 'b' then Some('\U{8}')
    else if e == 'f' then Some('\U{C}')
    else if e == 'n' then Some('\n')
    else if e == 'r' then Some('\r')
    else if e == 't' then Some('\t')
    else None
  }

  function ParseEscape(s: string): (r: Option<(char, string)>)
    ensures r.Some? ==> |r.value.1| < |s|
  {
    if s == [] then None
    else if s[0] == 'u' then ParseUnicode(s[1..])
    else if ShortUnescape(s[0]).Some? then Some((ShortUnescape(s[0]).value, s[1..]))
    else None
  }

  /** The rest of a string literal after its opening quote. */
  function ParseString(s: string): (r: Option<(string, string)>)
    ensures r.Some? ==> |r.value.1| < |s|
    decreases |s|
  {
    if s == [] || s[0] < ' ' then None
    else if s[0] == '\"' then Some(("", s[1..]))
    else if s[0] == '\\' then
      match ParseEscape(s[1..])
      case None => None
      case Some((c, rest)) =>
        (match ParseString(rest)
         case None => None
         case Some((tail, rest')) => Some(([c] + tail, rest')))
    else
      match ParseString(s[1..])
      case None => None
      case Some((tail, rest)) => Some(([s[0]] + tail, rest))
  }

  /** How many digits `s` has from position `i` on. */
  function Digits(s: string, i: nat): (n: nat)
    requires i <= |s|
    ensures i + n <= |s|
    decreases |s| - i
  {
    if i < |s| && IsDigit(s[i]) then 1 + Digits(s, i + 1) else 0
  }

  predicate At(s: string, i: nat, c: char) { i < |s| && s[i] == c }

  /** The end of an optional fraction that starts at `i`; `None` when it is malformed. */
  function FractionEnd(s: string, i: nat): (r: Option<nat>)
    requires i <= |s|
    ensures r.Some? ==> i <= r.value <= |s|
  {
    if !At(s, i, '.') then Some(i)
    else if Digits(s, i + 1) == 0 then None
    else Some(i + 1 + Digits(s, i + 1))
  }

  function ExponentEnd(s: string, i: nat): (r: Option<nat>)
    requires i <= |s|
    ensures r.Some? ==> i <= r.value <= |s|
  {
    if !At(s, i, 'e') && !At(s, i, 'E') then Some(i)
    else
      var j := if At(s, i + 1, '+') || At(s, i + 1, '-') then i + 2 else i + 1;
      if Digits(s, j) == 0 then None else Some(j + Digits(s, j))
  }

  /** The length of the number literal at the start of `s`, section 6 of RFC 8259. */
  function NumberLength(s: string): (r: Option<nat>)
    ensures r.Some? ==> 0 < r.value <= |s|
  {
    var start := if At(s, 0, '-') then 1 else 0;
    var digits := Digits(s, start);
    if digits == 0 then None
    else
      var whole := if s[start] == '0' then start + 1 else start + digits;
      var fraction := FractionEnd(s, whole);
      if fraction.None? then None else ExponentEnd(s, fraction.value)
  }

  function ParseNumber(s: string): (r: Option<(Value, string)>)
    ensures r.Some? ==> |r.value.1| < |s|
  {
    var n := NumberLength(s);
    if n.None? then None else Some((Num(s[..n.value]), s[n.value..]))
  }

  function ParseWord(s: string, word: string, v: Value): (r: Option<(Value, string)>)
    requires word != []
    ensures r.Some? ==> |r.value.1| < |s|
  {
    if word <= s then Some((v, s[|word|..])) else None
  }

  /** One value at the start of `s`, blanks before it skipped. */
  function ParseValue(s: string): (r: Option<(Value, string)>)
    ensures r.Some? ==> |r.value.1| < |s|
    decreases |s|, 1
  {
    SkipShrinks(s);
    var t := SkipSpace(s);
    if t == [] then None
    else if t[0] == 'n' then ParseWord(t, "null", Null)
    else if t[0] == 't' then ParseWord(t, "true", Bool(true))
    else if t[0] == 'f' then ParseWord(t, "false", Bool(false))
    else if t[0] == '\"' then
      (match ParseString(t[1..])
       case None => None
       case Some((text, rest)) => Some((Str(text), rest)))
    else if t[0] == '[' then
      SkipShrinks(t[1..]);
      var u := SkipSpace(t[1..]);
      if u != [] && u[0] == ']' then Some((Arr([]), u[1..]))
      else
        (match ParseItems(u)
         case None => None
         case Some((items, rest)) => Some((Arr(items), rest)))
    else if t[0] == '{' then
      SkipShrinks(t[1..]);
      var u := SkipSpace(t[1..]);
      if u != [] && u[0] == '}' then Some((Obj([]), u[1..]))
      else
        (match ParseMembers(u)
         case None => None
         case Some((members, rest)) => Some((Obj(Distinct(members)), rest)))
    else ParseNumber(t)
  }

  /** Values separated by commas, up to and including the closing bracket. */
  function ParseItems(s: string): (r: Option<(seq<Value>, string)>)
    ensures r.Some? ==> |r.value.1| < |s|
    decreases |s|, 2
  {
    match ParseValue(s)
    case None => None
    case Some((item, rest)) =>
      SkipShrinks(rest);
      var t := SkipSpace(rest);
      if t == [] then None
      else if t[0] == ']' then Some(([item], t[1..]))
      else if t[0] == ',' then
        (match ParseItems(t[1..])
         case None => None
         case Some((items, rest')) => Some(([item] + items, rest')))
      else None
  }

  /** Members separated by commas, up to and including the closing brace. */
  function ParseMembers(s: string): (r: Option<(seq<Member>, string)>)
    ensures r.Some? ==> |r.value.1| < |s|
    decreases |s|, 2
  {
    match ParseMember(s)
    case None => None
    case Some((member, rest)) =>
      SkipShrinks(rest);
      var t := SkipSpace(rest);
      if t == [] then None
      else if t[0] == '}' then Some(([member], t[1..]))
      else if t[0] == ',' then
        (match ParseMembers(t[1..])
         case None => None
         case Some((members, rest')) => Some(([member] + members, rest')))
      else None
  }

  function ParseMember(s: string): (r: Option<(Member, string)>)
    ensures r.Some? ==> |r.value.1| < |s|
    decreases |s|, 1
  {
    SkipShrinks(s);
    var t := SkipSpace(s);
    if t == [] || t[0] != '\"' then None
    else
      match ParseString(t[1..])
      case None => None
      case Some((name, rest)) =>
        SkipShrinks(rest);
        var u := SkipSpace(rest);
        if u == [] || u[0] != ':' then None
        else
          (match ParseValue(u[1..])
           case None => None
           case Some((value, rest')) => Some((Member(name, value), rest')))
  }

  // ----- members -----

  predicate HasName(members: seq<Member>, name: string) {
    exists i :: 0 <= i < |members| && members[i].name == name
  }

  /** Assigning a member: in place if the name is there, at the end otherwise. */
  function Put(members: seq<Member>, name: string, value: Value): seq<Member> {
    if members == [] then [Member(name, value)]
    else if members[0].name == name then [Member(name, value)] + members[1..]
    else [members[0]] + Put(members[1..], name, value)
  }

  /** Later members of the same name override earlier ones. */
  function Distinct(members: seq<Member>): seq<Member> {
    if members == [] then []
    else Put(Distinct(members[..|members| - 1]), members[|members| - 1].name, members[|members| - 1].value)
  }

  /** JSON.parse of a whole text. */
  function Parse(s: string): Option<Value> {
    match ParseValue(s)
    case None => None
    case Some((v, rest)) => if SkipSpace(rest) == [] then Some(v) else None
  }

  // ----- values that exist -----

  predicate NumberLiteral(s: string) { NumberLength(s) == Some(|s|) }

  predicate DistinctNames(members: seq<Member>) {
    forall i, j | 0 <= i < j < |members| :: members[i].name != members[j].name
  }

  /** Number literals are numbers and objects have distinct names. */
  predicate Proper(v: Value) {
    match v
    case Num(literal) => NumberLiteral(literal)
    case Arr(items) => forall i | 0 <= i < |items| :: Proper(items[i])
    case Obj(members) => DistinctNames(members) && forall i | 0 <= i < |members| :: Proper(members[i].value)
    case _ => true
  }
}
