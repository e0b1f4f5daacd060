/** Printing and parsing JSON are inverse, and printed JSON stays on one line. */
module JsonRoundTrip {
  import opened Wrappers
  import opened Text
  import opened Json

  // ----- strings -----

  lemma ShortReadsBack(c: char, rest: string)
    requires ShortEscape(c).Some?
    ensures ParseString(Escape(c) + rest) == Prepend(c, ParseString(rest))
  {
    var e := ShortEscape(c).value;
    assert Escape(c) + rest == ['\\'] + ([e] + rest);
    assert ([e] + rest)[1..] == rest;
    assert ParseEscape([e] + rest) == Some((c, rest));
  }

  lemma UnicodeReadsBack(c: char, rest: string)
    requires ShortEscape(c).None? && c < ' '
    ensures ParseString(Escape(c) + rest) == Prepend(c, ParseString(rest))
  {
    var digits := ['0', '0', HexDigit(c as int / 16), HexDigit(c as int % 16)] + rest;
    assert Escape(c) + rest == ['\\'] + (['u'] + digits);
    assert (['u'] + digits)[1..] == digits;
    UnitReadsBack(c, digits);
    assert digits[4..] == rest;
    assert ParseEscape(['u'] + digits) == Some((c, rest));
  }

  function Prepend(c: char, r: Option<(string, string)>): Option<(string, string)> {
    if r.None? then None else Some(([c] + r.value.0, r.value.1))
  }

  lemma EscapeReadsBack(c: char, rest: string)
    ensures ParseString(Escape(c) + rest) == Prepend(c, ParseString(rest))
  {
    if ShortEscape(c).Some? {
      ShortReadsBack(c, rest);
    } else if c < ' ' {
      UnicodeReadsBack(c, rest);
    } else {
      assert ([c] + rest)[1..] == rest;
    }
  }

  lemma UnitReadsBack(c: char, s: string)
    requires c < ' ' && |s| >= 4 && s[0] == '0' && s[1] == '0'
    requires s[2] == HexDigit(c as int / 16) && s[3] == HexDigit(c as int % 16)
    ensures Hex4(s) == Some(c as int)
  {
    HexReadsBack(c as int / 16);
    HexReadsBack(c as int % 16);
  }

  lemma HexReadsBack(n: nat)
    requires n < 16
    ensures HexValue(HexDigit(n)) == Some(n)
  {
  }

  lemma {:induction false} StringReadsBack(s: string, rest: string)
    ensures ParseString(QuoteBody(s) + "\"" + rest) == Some((s, rest))
  {
    if s == [] {
      assert "" + "\"" + rest == ['\"'] + rest;
    } else {
      var tail := QuoteBody(s[1..]) + "\"" + rest;
      Regroup(Escape(s[0]), QuoteBody(s[1..]), "\"", rest);
      StringReadsBack(s[1..], rest);
      EscapeReadsBack(s[0], tail);
      assert [s[0]] + s[1..] == s;
    }
  }

  lemma Regroup(a: string, b: string, c: string, d: string)
    ensures a + b + c + d == a + (b + c + d)
  {
  }

  // ----- numbers -----

  /** What may follow a printed value: nothing, a comma or a closing bracket. */
  predicate Boundary(rest: string) {
    rest == [] || rest[0] == ',' || rest[0] == ']' || rest[0] == '}'
  }

  lemma {:induction false} DigitsExtend(s: string, i: nat, rest: string)
    requires i <= |s| && Boundary(rest)
    ensures Digits(s + rest, i) == Digits(s, i)
    decreases |s| - i
  {
    if i < |s| && IsDigit(s[i]) {
      DigitsExtend(s, i + 1, rest);
    }
  }

  lemma {:induction false} DigitsCut(s: string, i: nat, n: nat)
    requires i <= n <= |s|
    ensures Digits(s[..n], i) == if i + Digits(s, i) <= n then Digits(s, i) else n - i
    decreases n - i
  {
    if i < n && IsDigit(s[i]) {
      DigitsCut(s, i + 1, n);
    }
  }

  lemma FractionExtend(s: string, i: nat, rest: string)
    requires i <= |s| && Boundary(rest)
    ensures FractionEnd(s + rest, i) == FractionEnd(s, i)
  {
    if At(s, i, '.') {
      DigitsExtend(s, i + 1, rest);
    }
  }

  lemma ExponentExtend(s: string, i: nat, rest: string)
    requires i <= |s| && Boundary(rest)
    ensures ExponentEnd(s + rest, i) == ExponentEnd(s, i)
  {
    if At(s, i, 'e') || At(s, i, 'E') {
      DigitsExtend(s, i + 1, rest);
      if At(s, i + 1, '+') || At(s, i + 1, '-') {
        DigitsExtend(s, i + 2, rest);
      }
    }
  }

  lemma NumberExtend(s: string, rest: string)
    requires NumberLiteral(s) && Boundary(rest)
    ensures NumberLength(s + rest) == Some(|s|)
  {
    var start := if At(s, 0, '-') then 1 else 0;
    DigitsExtend(s, start, rest);
    var whole := if s[start] == '0' then start + 1 else start + Digits(s, start);
    FractionExtend(s, whole, rest);
    ExponentExtend(s, FractionEnd(s, whole).value, rest);
  }

  lemma FractionCut(s: string, i: nat, n: nat)
    requires i <= n <= |s| && FractionEnd(s, i).Some? && FractionEnd(s, i).value <= n
    ensures FractionEnd(s[..n], i) == FractionEnd(s, i)
  {
    if At(s, i, '.') {
      DigitsCut(s, i + 1, n);
    }
  }

  lemma ExponentCut(s: string, i: nat, n: nat)
    requires i <= n <= |s| && ExponentEnd(s, i) == Some(n)
    ensures ExponentEnd(s[..n], i) == Some(n)
  {
    if At(s, i, 'e') || At(s, i, 'E') {
      var j := if At(s, i + 1, '+') || At(s, i + 1, '-') then i + 2 else i + 1;
      DigitsCut(s, j, n);
    }
  }

  /** What the number parser takes off a text is a number literal by itself. */
  lemma NumberCut(s: string)
    requires NumberLength(s).Some?
    ensures NumberLiteral(s[..NumberLength(s).value])
  {
    var n := NumberLength(s).value;
    var start := if At(s, 0, '-') then 1 else 0;
    var whole := if s[start] == '0' then start + 1 else start + Digits(s, start);
    DigitsCut(s, start, n);
    FractionCut(s, whole, n);
    ExponentCut(s, FractionEnd(s, whole).value, n);
  }

  // ----- values -----

  predicate Inked(s: string) { s != [] && !Space(s[0]) }

  lemma SkipsNothing(s: string)
    requires s == [] || !Space(s[0])
    ensures SkipSpace(s) == s
  {
  }

  lemma PrintInked(v: Value)
    requires Proper(v)
    ensures Inked(Print(v)) && Print(v)[0] != ']' && Print(v)[0] != '}'
  {
  }

  lemma NumberReadsBack(literal: string, rest: string)
    requires NumberLiteral(literal) && Boundary(rest)
    ensures ParseValue(literal + rest) == Some((Num(literal), rest))
  {
    var s := literal + rest;
    SkipsNothing(s);
    NumberExtend(literal, rest);
    assert literal[0] == '-' || IsDigit(literal[0]);
    assert s[0] == literal[0];
    assert s[..|literal|] == literal && s[|literal|..] == rest;
  }

  lemma ReadsArray(u: string, items: seq<Value>, rest: string)
    requires Inked(u) && u[0] != ']' && ParseItems(u) == Some((items, rest))
    ensures ParseValue("[" + u) == Some((Arr(items), rest))
  {
    var s := "[" + u;
    SkipsNothing(s);
    assert s[1..] == u;
    SkipsNothing(u);
  }

  lemma ReadsObject(u: string, members: seq<Member>, rest: string)
    requires Inked(u) && u[0] != '}' && ParseMembers(u) == Some((members, rest)) && Distinct(members) == members
    ensures ParseValue("{" + u) == Some((Obj(members), rest))
  {
    var s := "{" + u;
    SkipsNothing(s);
    assert s[1..] == u;
    SkipsNothing(u);
  }

  lemma ReadsEmpty(rest: string)
    ensures ParseValue("[]" + rest) == Some((Arr([]), rest))
    ensures ParseValue("{}" + rest) == Some((Obj([]), rest))
  {
    SkipsNothing("[]" + rest);
    assert ("[]" + rest)[1..] == "]" + rest;
    SkipsNothing("]" + rest);
    assert ("]" + rest)[1..] == rest;
    SkipsNothing("{}" + rest);
    assert ("{}" + rest)[1..] == "}" + rest;
    SkipsNothing("}" + rest);
    assert ("}" + rest)[1..] == rest;
  }

  lemma ReadsString(u: string, text: string, rest: string)
    requires ParseString(u) == Some((text, rest))
    ensures ParseValue("\"" + u) == Some((Str(text), rest))
  {
    SkipsNothing("\"" + u);
    assert ("\"" + u)[1..] == u;
  }

  lemma ReadsText(text: string, rest: string)
    ensures ParseValue(Quote(text) + rest) == Some((Str(text), rest))
  {
    StringReadsBack(text, rest);
    Regroup("\"", QuoteBody(text), "\"", rest);
    ReadsString(QuoteBody(text) + "\"" + rest, text, rest);
  }

  lemma ReadsWord(v: Value, rest: string)
    requires v.Null? || v.Bool?
    ensures ParseValue(Print(v) + rest) == Some((v, rest))
  {
    var s := Print(v) + rest;
    SkipsNothing(s);
    assert s[|Print(v)|..] == rest;
  }

  lemma {:induction false} ValueReadsBack(v: Value, rest: string)
    requires Proper(v) && Boundary(rest)
    ensures ParseValue(Print(v) + rest) == Some((v, rest))
    decreases v
  {
    match v
    case Num(literal) => NumberReadsBack(literal, rest);
    case Str(text) => ReadsText(text, rest);
    case Arr(items) =>
      if items != [] {
        ItemsReadBack(items, rest);
      }
      ArrayReadsBack(items, rest);
    case Obj(members) =>
      if members != [] {
        MembersReadBack(members, rest);
      }
      ObjectReadsBack(members, rest);
    case _ => ReadsWord(v, rest);
  }

  lemma ArrayReadsBack(items: seq<Value>, rest: string)
    requires items != [] ==> Proper(items[0]) && ParseItems(PrintItems(items) + "]" + rest) == Some((items, rest))
    ensures ParseValue("[" + PrintItems(items) + "]" + rest) == Some((Arr(items), rest))
  {
    if items == [] {
      ReadsEmpty(rest);
      assert "[" + "" + "]" + rest == "[]" + rest;
    } else {
      Regroup("[", PrintItems(items), "]", rest);
      ItemsInked(items);
      ReadsArray(PrintItems(items) + "]" + rest, items, rest);
    }
  }

  lemma ObjectReadsBack(members: seq<Member>, rest: string)
    requires DistinctNames(members)
    requires members != [] ==> ParseMembers(PrintMembers(members) + "}" + rest) == Some((members, rest))
    ensures ParseValue("{" + PrintMembers(members) + "}" + rest) == Some((Obj(members), rest))
  {
    if members == [] {
      ReadsEmpty(rest);
      assert "{" + "" + "}" + rest == "{}" + rest;
    } else {
      Regroup("{", PrintMembers(members), "}", rest);
      MembersInked(members);
      DistinctAlready(members);
      ReadsObject(PrintMembers(members) + "}" + rest, members, rest);
    }
  }

  lemma ItemsInked(items: seq<Value>)
    requires items != [] && Proper(items[0])
    ensures Inked(PrintItems(items)) && PrintItems(items)[0] != ']'
  {
    PrintInked(items[0]);
  }

  lemma MembersInked(members: seq<Member>)
    requires members != []
    ensures PrintMembers(members) != [] && PrintMembers(members)[0] == '\"'
  {
  }

  lemma ReadsLastItem(s: string, item: Value, rest: string)
    requires ParseValue(s) == Some((item, "]" + rest))
    ensures ParseItems(s) == Some(([item], rest))
  {
    SkipsNothing("]" + rest);
    assert ("]" + rest)[1..] == rest;
  }

  lemma ReadsItem(s: string, item: Value, u: string, items: seq<Value>, rest: string)
    requires ParseValue(s) == Some((item, "," + u)) && ParseItems(u) == Some((items, rest))
    ensures ParseItems(s) == Some(([item] + items, rest))
  {
    SkipsNothing("," + u);
    assert ("," + u)[1..] == u;
  }

  lemma {:induction false} ItemsReadBack(items: seq<Value>, rest: string)
    requires items != [] && forall i | 0 <= i < |items| :: Proper(items[i])
    ensures ParseItems(PrintItems(items) + "]" + rest) == Some((items, rest))
    decreases items
  {
    var s := PrintItems(items) + "]" + rest;
    if |items| == 1 {
      assert s == Print(items[0]) + ("]" + rest);
      ValueReadsBack(items[0], "]" + rest);
      ReadsLastItem(s, items[0], rest);
      assert [items[0]] == items;
    } else {
      var u := PrintItems(items[1..]) + "]" + rest;
      assert s == Print(items[0]) + ("," + u);
      ValueReadsBack(items[0], "," + u);
      ItemsReadBack(items[1..], rest);
      ReadsItem(s, items[0], u, items[1..], rest);
      assert [items[0]] + items[1..] == items;
    }
  }

  lemma ReadsMember(u: string, name: string, value: string, v: Value, rest: string)
    requires ParseString(u) == Some((name, ":" + value)) && ParseValue(value) == Some((v, rest))
    ensures ParseMember("\"" + u) == Some((Member(name, v), rest))
  {
    SkipsNothing("\"" + u);
    assert ("\"" + u)[1..] == u;
    SkipsNothing(":" + value);
    assert (":" + value)[1..] == value;
  }

  lemma SplitName(body: string, value: string, rest: string)
    ensures "\"" + body + "\"" + ":" + value + rest == "\"" + (body + "\"" + (":" + (value + rest)))
  {
  }

  lemma {:induction false} MemberReadsBack(m: Member, rest: string)
    requires Proper(m.value) && Boundary(rest)
    ensures ParseMember(PrintMember(m) + rest) == Some((m, rest))
    decreases m
  {
    var value := Print(m.value) + rest;
    SplitName(QuoteBody(m.name), Print(m.value), rest);
    StringReadsBack(m.name, ":" + value);
    ValueReadsBack(m.value, rest);
    ReadsMember(QuoteBody(m.name) + "\"" + (":" + value), m.name, value, m.value, rest);
  }

  lemma ReadsLastMember(s: string, m: Member, rest: string)
    requires ParseMember(s) == Some((m, "}" + rest))
    ensures ParseMembers(s) == Some(([m], rest))
  {
    SkipsNothing("}" + rest);
    assert ("}" + rest)[1..] == rest;
  }

  lemma ReadsOneMember(s: string, m: Member, u: string, members: seq<Member>, rest: string)
    requires ParseMember(s) == Some((m, "," + u)) && ParseMembers(u) == Some((members, rest))
    ensures ParseMembers(s) == Some(([m] + members, rest))
  {
    SkipsNothing("," + u);
    assert ("," + u)[1..] == u;
  }

  lemma SplitFirst(first: string, more: string, rest: string)
    ensures first + "," + more + "}" + rest == first + ("," + (more + "}" + rest))
    ensures first + "}" + rest == first + ("}" + rest)
  {
  }

  lemma {:induction false} MembersReadBack(members: seq<Member>, rest: string)
    requires members != [] && forall i | 0 <= i < |members| :: Proper(members[i].value)
    ensures ParseMembers(PrintMembers(members) + "}" + rest) == Some((members, rest))
    decreases members
  {
    var s := PrintMembers(members) + "}" + rest;
    SplitFirst(PrintMember(members[0]), PrintMembers(members[1..]), rest);
    if |members| == 1 {
      MemberReadsBack(members[0], "}" + rest);
      ReadsLastMember(s, members[0], rest);
      assert [members[0]] == members;
    } else {
      var u := PrintMembers(members[1..]) + "}" + rest;
      MemberReadsBack(members[0], "," + u);
      MembersReadBack(members[1..], rest);
      ReadsOneMember(s, members[0], u, members[1..], rest);
      assert [members[0]] + members[1..] == members;
    }
  }

  /** JSON.parse undoes JSON.stringify. */
  lemma ParsePrint(v: Value)
    requires Proper(v)
    ensures Parse(Print(v)) == Some(v)
  {
    ValueReadsBack(v, []);
    assert Print(v) + [] == Print(v);
  }

  // ----- members -----

  lemma {:induction false} PutNew(members: seq<Member>, name: string, value: Value)
    requires !HasName(members, name)
    ensures Put(members, name, value) == members + [Member(name, value)]
  {
    if members != [] {
      assert forall i | 0 <= i < |members[1..]| :: members[1..][i] == members[i + 1];
      PutNew(members[1..], name, value);
    }
  }

  lemma {:induction false} DistinctAlready(members: seq<Member>)
    requires DistinctNames(members)
    ensures Distinct(members) == members
  {
    if members != [] {
      var front, last := members[..|members| - 1], members[|members| - 1];
      DistinctAlready(front);
      PutNew(front, last.name, last.value);
    }
  }

  predicate Sound(members: seq<Member>) {
    DistinctNames(members) && forall i | 0 <= i < |members| :: Proper(members[i].value)
  }

  /** Putting keeps the names and their order, or adds one name at the end. */
  lemma {:induction false} PutShape(members: seq<Member>, name: string, value: Value)
    ensures var after := Put(members, name, value);
            && |after| == (if HasName(members, name) then |members| else |members| + 1)
            && (forall i | 0 <= i < |members| :: after[i].name == members[i].name)
            && (forall i | 0 <= i < |after| :: after[i] == Member(name, value) || (i < |members| && after[i] == members[i]))
  {
    if members != [] && members[0].name != name {
      PutShape(members[1..], name, value);
      assert forall i | 0 <= i < |members[1..]| :: members[1..][i] == members[i + 1];
      assert HasName(members, name) ==> HasName(members[1..], name);
    }
  }

  lemma PutSound(members: seq<Member>, name: string, value: Value)
    requires Sound(members) && Proper(value)
    ensures Sound(Put(members, name, value))
  {
    PutShape(members, name, value);
    if !HasName(members, name) {
      PutNew(members, name, value);
    }
  }

  lemma {:induction false} DistinctSound(members: seq<Member>)
    requires forall i | 0 <= i < |members| :: Proper(members[i].value)
    ensures Sound(Distinct(members))
  {
    if members != [] {
      var front, last := members[..|members| - 1], members[|members| - 1];
      DistinctSound(front);
      PutSound(Distinct(front), last.name, last.value);
    }
  }

  // ----- parsed values -----

  /** Whatever parses is a proper value, so it can be printed and parsed back. */
  lemma {:induction false} ParsedProper(s: string)
    ensures ParseValue(s).Some? ==> Proper(ParseValue(s).value.0)
    decreases |s|, 1
  {
    SkipShrinks(s);
    var t := SkipSpace(s);
    if t != [] && t[0] == '[' {
      SkipShrinks(t[1..]);
      ParsedItemsProper(SkipSpace(t[1..]));
    } else if t != [] && t[0] == '{' {
      SkipShrinks(t[1..]);
      var u := SkipSpace(t[1..]);
      ParsedMembersProper(u);
      if ParseMembers(u).Some? {
        DistinctSound(ParseMembers(u).value.0);
      }
    } else if NumberLength(t).Some? {
      NumberCut(t);
    }
  }

  lemma {:induction false} ParsedItemsProper(s: string)
    ensures ParseItems(s).Some? ==> forall i | 0 <= i < |ParseItems(s).value.0| :: Proper(ParseItems(s).value.0[i])
    decreases |s|, 2
  {
    ParsedProper(s);
    if ParseItems(s).Some? {
      var rest := ParseValue(s).value.1;
      SkipShrinks(rest);
      var t := SkipSpace(rest);
      if t[0] == ',' {
        ParsedItemsProper(t[1..]);
      }
    }
  }

  lemma {:induction false} ParsedMembersProper(s: string)
    ensures ParseMembers(s).Some? ==>
              forall i | 0 <= i < |ParseMembers(s).value.0| :: Proper(ParseMembers(s).value.0[i].value)
    decreases |s|, 2
  {
    if ParseMembers(s).Some? {
      ParsedMemberProper(s);
      var rest := ParseMember(s).value.1;
      SkipShrinks(rest);
      var t := SkipSpace(rest);
      if t[0] == ',' {
        ParsedMembersProper(t[1..]);
      }
    }
  }

  lemma {:induction false} ParsedMemberProper(s: string)
    requires ParseMember(s).Some?
    ensures Proper(ParseMember(s).value.0.value)
    decreases |s|, 1
  {
    SkipShrinks(s);
    var t := SkipSpace(s);
    var rest := ParseString(t[1..]).value.1;
    SkipShrinks(rest);
    ParsedProper(SkipSpace(rest)[1..]);
  }

  // ----- one line -----

  predicate OneLine(s: string) { forall i | 0 <= i < |s| :: s[i] != '\n' && s[i] != '\r' }

  lemma {:induction false} DigitsOneLine(s: string, i: nat)
    requires i <= |s|
    ensures forall j | i <= j < i + Digits(s, i) :: IsDigit(s[j])
    decreases |s| - i
  {
    if i < |s| && IsDigit(s[i]) {
      DigitsOneLine(s, i + 1);
    }
  }

  lemma NumberOneLine(s: string)
    requires NumberLiteral(s)
    ensures OneLine(s)
  {
    var start := if At(s, 0, '-') then 1 else 0;
    DigitsOneLine(s, start);
    var whole := if s[start] == '0' then start + 1 else start + Digits(s, start);
    if At(s, whole, '.') {
      DigitsOneLine(s, whole + 1);
    }
    var e := FractionEnd(s, whole).value;
    if At(s, e, 'e') || At(s, e, 'E') {
      DigitsOneLine(s, if At(s, e + 1, '+') || At(s, e + 1, '-') then e + 2 else e + 1);
    }
  }

  lemma {:induction false} QuoteOneLine(s: string)
    ensures OneLine(QuoteBody(s))
  {
    if s != [] {
      QuoteOneLine(s[1..]);
      EscapeOneLine(s[0]);
    }
  }

  lemma EscapeOneLine(c: char)
    ensures OneLine(Escape(c))
  {
    if ShortEscape(c).None? && c < ' ' {
      HexReadsBack(c as int / 16);
      HexReadsBack(c as int % 16);
    }
  }

  /** Escaping leaves no raw line break anywhere in printed JSON. */
  lemma {:induction false} PrintOneLine(v: Value)
    requires Proper(v)
    ensures OneLine(Print(v))
  {
    match v
    case Num(literal) => NumberOneLine(literal);
    case Str(s) => QuoteOneLine(s);
    case Arr(items) => ItemsOneLine(items);
    case Obj(members) => MembersOneLine(members);
    case _ =>
  }

  lemma {:induction false} ItemsOneLine(items: seq<Value>)
    requires forall i | 0 <= i < |items| :: Proper(items[i])
    ensures OneLine(PrintItems(items))
  {
    if items != [] {
      PrintOneLine(items[0]);
      ItemsOneLine(items[1..]);
    }
  }

  lemma {:induction false} MembersOneLine(members: seq<Member>)
    requires forall i | 0 <= i < |members| :: Proper(members[i].value)
    ensures OneLine(PrintMembers(members))
  {
    if members != [] {
      QuoteOneLine(members[0].name);
      PrintOneLine(members[0].value);
      MembersOneLine(members[1..]);
    }
  }
}
