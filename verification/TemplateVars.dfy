/** Placeholders `{{ name }}` in template texts: finding them, listing their names and filling
    them in (web/src/lib/persona-template.ts). */
module TemplateVars {
  import opened Wrappers
  import opened Text
  import opened Scanner

  predicate NameChar(c: char) { 'a' <= c <= 'z' || 'A' <= c <= 'Z' || '0' <= c <= '9' || c == '_' }

  predicate All(s: string, ok: char -> bool) { forall i | 0 <= i < |s| :: ok(s[i]) }

  /** A placeholder, as the pattern describes it: any letter case, blanks allowed inside. */
  ghost predicate Placeholder(raw: string, name: string) {
    && name != [] && All(name, NameChar)
    && exists before: string, after: string ::
         All(before, JsSpace) && All(after, JsSpace) && raw == Spelled(before, name, after)
  }

  function Spelled(before: string, name: string, after: string): string {
    "{{" + before + name + after + "}}"
  }

  // ----- matching at the start of a text -----

  /** How far a run of characters of one class goes. */
  function Span(s: string, ok: char -> bool): (n: nat)
    ensures n <= |s| && All(s[..n], ok) && (n < |s| ==> !ok(s[n]))
  {
    if s != [] && ok(s[0]) then 1 + Span(s[1..], ok) else 0
  }

  /** What follows the name: blanks and the closing braces. */
  function CloseLength(s: string): (r: Option<nat>)
    ensures r.Some? ==> 2 <= r.value <= |s|
  {
    var n := Span(s, JsSpace);
    if "}}" <= s[n..] then Some(n + 2) else None
  }

  /** The name and what follows it. */
  function MatchName(s: string): (r: Option<Match>)
    ensures r.Some? ==> 0 < |r.value.name| <= r.value.length <= |s|
  {
    var n := Span(s, NameChar);
    if n == 0 || CloseLength(s[n..]).None? then None
    else Some(Match(s[..n], n + CloseLength(s[n..]).value))
  }

  /** The pattern matched at the start of `s`. */
  function MatchHead(s: string): (r: Option<Match>)
    ensures r.Some? ==> 0 < r.value.length <= |s|
  {
    if !("{{" <= s) then None
    else
      var n := 2 + Span(s[2..], JsSpace);
      var m := MatchName(s[n..]);
      if m.None? then None else Some(Match(m.value.name, n + m.value.length))
  }

  lemma {:induction false} SpanIs(a: string, b: string, ok: char -> bool)
    requires All(a, ok) && (b == [] || !ok(b[0]))
    ensures Span(a + b, ok) == |a|
  {
    if a == [] {
      assert a + b == b;
    } else {
      SpanIs(a[1..], b, ok);
      assert (a + b)[1..] == a[1..] + b;
    }
  }

  lemma CloseIs(after: string, rest: string)
    requires All(after, JsSpace)
    ensures CloseLength(after + "}}" + rest) == Some(|after| + 2)
  {
    assert after + "}}" + rest == after + ("}}" + rest);
    SpanIs(after, "}}" + rest, JsSpace);
    assert (after + ("}}" + rest))[|after|..] == "}}" + rest;
  }

  lemma NameIs(name: string, after: string, rest: string)
    requires name != [] && All(name, NameChar) && All(after, JsSpace)
    ensures MatchName(name + (after + "}}" + rest)) == Some(Match(name, |name| + |after| + 2))
  {
    var tail := after + "}}" + rest;
    assert tail != [] && !NameChar(tail[0]) by { assert after == [] ==> tail[0] == '}'; }
    SpanIs(name, tail, NameChar);
    CloseIs(after, rest);
    assert (name + tail)[|name|..] == tail && (name + tail)[..|name|] == name;
  }

  lemma SpelledRegroups(before: string, name: string, after: string, rest: string)
    ensures Spelled(before, name, after) + rest == "{{" + (before + (name + (after + "}}" + rest)))
  {
  }

  lemma HeadStep(before: string, tail: string)
    requires All(before, JsSpace) && tail != [] && !JsSpace(tail[0])
    ensures var s := "{{" + (before + tail);
            MatchHead(s) == if MatchName(tail).None? then None
                            else Some(Match(MatchName(tail).value.name, 2 + |before| + MatchName(tail).value.length))
  {
    SpanIs(before, tail, JsSpace);
    var s := "{{" + (before + tail);
    assert s[2..] == before + tail && s[2 + |before|..] == tail;
  }

  lemma HeadIs(before: string, name: string, after: string, rest: string)
    requires name != [] && All(name, NameChar) && All(before, JsSpace) && All(after, JsSpace)
    ensures MatchHead(Spelled(before, name, after) + rest) == Some(Match(name, |Spelled(before, name, after)|))
  {
    var tail := name + (after + "}}" + rest);
    assert tail[0] == name[0];
    HeadStep(before, tail);
    NameIs(name, after, rest);
    SpelledRegroups(before, name, after, rest);
  }

  /** A name, blanks and the closing braces. */
  ghost predicate NamedTail(s: string, name: string) {
    && name != [] && All(name, NameChar)
    && exists after: string :: All(after, JsSpace) && s == name + after + "}}"
  }

  lemma CloseSplits(s: string)
    requires CloseLength(s).Some?
    ensures var n := CloseLength(s).value; All(s[..n - 2], JsSpace) && s[..n] == s[..n - 2] + "}}"
  {
  }

  lemma NameSplits(s: string)
    requires MatchName(s).Some?
    ensures NamedTail(s[..MatchName(s).value.length], MatchName(s).value.name)
  {
    var n := |MatchName(s).value.name|;
    CloseSplits(s[n..]);
    var k := CloseLength(s[n..]).value;
    var after := s[n..][..k - 2];
    assert s[..n + k] == s[..n] + s[n..][..k];
    assert s[..n] + (after + "}}") == s[..n] + after + "}}";
  }

  lemma OpenSplits(s: string, n: nat, m: Match)
    requires "{{" <= s && 2 + n + m.length <= |s| && All(s[2..][..n], JsSpace)
    requires NamedTail(s[2 + n..][..m.length], m.name)
    ensures Placeholder(s[..2 + n + m.length], m.name)
  {
    var before, tail := s[2..][..n], s[2 + n..][..m.length];
    var after: string :| All(after, JsSpace) && tail == m.name + after + "}}";
    assert s[..2 + n + m.length] == s[..2] + before + tail;
    assert "{{" + before + (m.name + after + "}}") == Spelled(before, m.name, after);
  }

  lemma HeadSplits(s: string)
    requires MatchHead(s).Some?
    ensures Placeholder(s[..MatchHead(s).value.length], MatchHead(s).value.name)
  {
    var n := Span(s[2..], JsSpace);
    NameSplits(s[2 + n..]);
    OpenSplits(s, n, MatchName(s[2 + n..]).value);
  }

  lemma PlaceholderMatches(raw: string, name: string, rest: string)
    requires Placeholder(raw, name)
    ensures MatchHead(raw + rest) == Some(Match(name, |raw|))
  {
    var before: string, after: string :| All(before, JsSpace) && All(after, JsSpace) && raw == Spelled(before, name, after);
    HeadIs(before, name, after, rest);
  }

  /** The matcher finds exactly the placeholders: a text starts with one if and only if it matches,
      and name and length are then those of the placeholder. */
  lemma MatchExact(s: string, name: string, n: nat)
    ensures MatchHead(s) == Some(Match(name, n)) <==> n <= |s| && Placeholder(s[..n], name)
  {
    if MatchHead(s) == Some(Match(name, n)) {
      HeadSplits(s);
    } else if n <= |s| && Placeholder(s[..n], name) {
      assert s[..n] + s[n..] == s;
      PlaceholderMatches(s[..n], name, s[n..]);
    }
  }

  // ----- placeholders in a text -----

  /** The leftmost placeholder of a text; its name in lower case. */
  function FindVar(s: string): (r: Option<Found>)
    ensures r.Some? ==> r.value.cut.raw != [] && s == r.value.cut.literal + r.value.cut.raw + r.value.rest
  {
    Find(s, MatchHead)
  }

  /** The pattern of placeholders, for listing and replacing. */
  const PLACEHOLDERS: Finder := FindVar

  ghost predicate StartsAt(s: string, i: nat) {
    i <= |s| && exists n: nat, name: string :: n <= |s[i..]| && Placeholder(s[i..][..n], name)
  }

  lemma StartsWhenMatched(s: string, i: nat)
    requires i <= |s|
    ensures StartsAt(s, i) <==> MatchHead(s[i..]).Some?
  {
    if MatchHead(s[i..]).Some? {
      var m := MatchHead(s[i..]).value;
      MatchExact(s[i..], m.name, m.length);
    }
    if StartsAt(s, i) {
      var n: nat, name: string :| n <= |s[i..]| && Placeholder(s[i..][..n], name);
      MatchExact(s[i..], name, n);
    }
  }

  lemma NoneStarts(s: string, n: nat)
    ensures NoneBefore(s, n, MatchHead) <==> forall i | 0 <= i < n :: !StartsAt(s, i)
  {
    forall i: nat | i <= |s| ensures StartsAt(s, i) <==> MatchHead(s[i..]).Some? {
      StartsWhenMatched(s, i);
    }
  }

  /** What is found is the leftmost placeholder, and nothing is found exactly when there is none. */
  lemma FindVarExact(s: string, m: Found)
    ensures FindVar(s) == Some(m) <==>
              && s == m.cut.literal + m.cut.raw + m.rest
              && Placeholder(m.cut.raw, m.cut.name)
              && forall i | 0 <= i < |m.cut.literal| :: !StartsAt(s, i)
    ensures FindVar(s).None? <==> forall i | 0 <= i < |s| :: !StartsAt(s, i)
  {
    FindExact(s, m, MatchHead);
    FindNothing(s, MatchHead);
    NoneStarts(s, |m.cut.literal|);
    NoneStarts(s, |s|);
    var t := m.cut.raw + m.rest;
    assert t[..|m.cut.raw|] == m.cut.raw;
    MatchExact(t, m.cut.name, |m.cut.raw|);
  }

  /** A text cut at its placeholders. */
  function VarParts(text: string): Parts { Split(text, PLACEHOLDERS) }

  /** The names of the placeholders, in order and in lower case. */
  function VarNames(text: string): seq<string> {
    Names(VarParts(text), Lower)
  }

  type Vars = map<string, string>

  /** Reading a property of an object: names that are not its own may be inherited. */
  function Lookup(vars: Vars, name: string): string {
    if name in vars then vars[name]
    else if name == "constructor" then "function Object() { [native code] }"
    else if name == "__proto__" then "[object Object]"
    else ""
  }

  function ValueIn(vars: Vars): string -> string { name => Lookup(vars, Lower(name)) }

  /** The literals of a text interleaved with the values of its names. */
  function Filled(text: string, vars: Vars): string { Interleave(VarParts(text), ValueIn(vars)) }

  method ExtractTemplateVars(text: string) returns (names: seq<string>)
    ensures names == VarNames(text)
  {
    names := MatchAll(text, PLACEHOLDERS, Lower);
  }

  method FillTemplateVars(text: string, vars: Vars) returns (filled: string)
    ensures filled == Filled(text, vars)
  {
    filled := ReplaceAll(text, PLACEHOLDERS, ValueIn(vars));
  }

  // ----- laws -----

  /** Any text is its literals interleaved with its placeholders; each placeholder is the leftmost
      one of the text from there on, so this is the only way to cut it. */
  lemma TextSplits(text: string, p: Parts)
    ensures Whole(p) == text && Stands(p, PLACEHOLDERS) <==> p == VarParts(text)
  {
    SplitCovers(text, PLACEHOLDERS);
    if Stands(p, PLACEHOLDERS) {
      SplitUnique(p, PLACEHOLDERS);
    }
  }

  /** Filling depends on the extracted names only. */
  lemma FillAgrees(text: string, one: Vars, other: Vars)
    requires forall i | 0 <= i < |VarNames(text)| :: Lookup(one, VarNames(text)[i]) == Lookup(other, VarNames(text)[i])
    ensures Filled(text, one) == Filled(text, other)
  {
    var p := VarParts(text);
    forall i | 0 <= i < |p.cuts| ensures ValueIn(one)(p.cuts[i].name) == ValueIn(other)(p.cuts[i].name) {
      assert VarNames(text)[i] == Lower(p.cuts[i].name);
    }
    InterleaveAgrees(p, ValueIn(one), ValueIn(other));
  }

  /** A text without names is left as it is. */
  lemma FillNothing(text: string, vars: Vars)
    requires VarNames(text) == []
    ensures Filled(text, vars) == text
  {
    TextSplits(text, VarParts(text));
    assert VarParts(text).cuts == [];
  }

  lemma FilledBy(s: string, m: Found, find: Finder, vars: Vars, all: string, rest: string)
    requires find(s) == Some(m)
    requires all == Interleave(Split(s, find), ValueIn(vars)) && rest == Interleave(Split(m.rest, find), ValueIn(vars))
    ensures all == m.cut.literal + Lookup(vars, Lower(m.cut.name)) + rest
  {
    InterleaveStep(s, find, ValueIn(vars));
  }

  lemma FillFound(s: string, m: Found, vars: Vars)
    requires PLACEHOLDERS(s) == Some(m)
    ensures Filled(s, vars) == m.cut.literal + Lookup(vars, Lower(m.cut.name)) + Filled(m.rest, vars)
  {
    FilledBy(s, m, PLACEHOLDERS, vars, Filled(s, vars), Filled(m.rest, vars));
  }

  lemma NamesFound(s: string, m: Found)
    requires PLACEHOLDERS(s) == Some(m)
    ensures VarNames(s) == [Lower(m.cut.name)] + VarNames(m.rest)
  {
    NamesStep(s, PLACEHOLDERS, Lower);
  }

  /** One pass: behind the first placeholder, filling goes on with the rest of the text, and never
      looks into the value it put in. */
  lemma FillStep(literal: string, raw: string, name: string, rest: string, vars: Vars)
    requires Placeholder(raw, name) && forall i | 0 <= i < |literal| :: !StartsAt(literal + raw + rest, i)
    ensures Filled(literal + raw + rest, vars) == literal + Lookup(vars, Lower(name)) + Filled(rest, vars)
    ensures VarNames(literal + raw + rest) == [Lower(name)] + VarNames(rest)
  {
    var m := Found(Cut(literal, raw, name), rest);
    FindVarExact(literal + raw + rest, m);
    FillFound(literal + raw + rest, m, vars);
    NamesFound(literal + raw + rest, m);
  }
}
