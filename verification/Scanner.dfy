/** Matching a pattern all over a text, as matchAll and replace do with a global pattern: the
    leftmost match, then the leftmost match behind it, and so on. The pattern is given by the
    function that finds the leftmost match of a text. */
module Scanner {
  import opened Wrappers

  /** A literal and the match after it, with the text of the pattern's group. */
  datatype Cut = Cut(literal: string, raw: string, name: string)

  /** The leftmost match of a text, and what follows it. */
  datatype Found = Found(cut: Cut, rest: string)

  // ----- the leftmost match -----

  /** A match at the start of a text: the text of the pattern's group and the length of the match. */
  datatype Match = Match(name: string, length: nat)

  ghost predicate LawfulHead(head: string -> Option<Match>) {
    forall s {:trigger head(s)} :: head(s).Some? ==> 0 < head(s).value.length <= |s|
  }

  type Pattern = head: string -> Option<Match> | LawfulHead(head) witness (s => None)

  /** Where the first match starts, or the length of the text. */
  function First(s: string, head: Pattern): (n: nat)
    ensures n <= |s|
  {
    if s == [] || head(s).Some? then 0 else 1 + First(s[1..], head)
  }

  function Cutting(s: string, n: nat, m: Match): (found: Found)
    requires n + m.length <= |s|
    ensures found.cut.literal + found.cut.raw + found.rest == s
    ensures found.cut.raw + found.rest == s[n..]
  {
    Found(Cut(s[..n], s[n..n + m.length], m.name), s[n + m.length..])
  }

  /** Trying every position from the left. */
  function Find(s: string, head: Pattern): (r: Option<Found>)
    ensures r.Some? ==> r.value.cut.raw != [] && s == r.value.cut.literal + r.value.cut.raw + r.value.rest
  {
    var n := First(s, head);
    if head(s[n..]).None? then None else Some(Cutting(s, n, head(s[n..]).value))
  }

  predicate NoneBefore(s: string, n: nat, head: Pattern) {
    forall i {:trigger s[i..]} | 0 <= i < n && i <= |s| :: head(s[i..]).None?
  }

  predicate LeftmostMatch(s: string, m: Found, head: Pattern) {
    && s == m.cut.literal + m.cut.raw + m.rest
    && head(m.cut.raw + m.rest) == Some(Match(m.cut.name, |m.cut.raw|))
    && NoneBefore(s, |m.cut.literal|, head)
  }

  lemma {:induction false} FirstIsLeast(s: string, head: Pattern, i: nat)
    requires i < First(s, head)
    ensures head(s[i..]).None?
  {
    if i > 0 {
      FirstIsLeast(s[1..], head, i - 1);
      assert s[1..][i - 1..] == s[i..];
    } else {
      assert s[0..] == s;
    }
  }

  lemma {:induction false} FirstMatches(s: string, head: Pattern)
    ensures First(s, head) < |s| ==> head(s[First(s, head)..]).Some?
  {
    if s == [] || head(s).Some? {
      assert s[0..] == s;
    } else {
      FirstMatches(s[1..], head);
      assert s[1..][First(s[1..], head)..] == s[First(s, head)..];
    }
  }

  lemma FirstIs(s: string, head: Pattern, n: nat)
    requires n <= |s| && head(s[n..]).Some? && NoneBefore(s, n, head)
    ensures First(s, head) == n
  {
    FirstMatches(s, head);
    if n < First(s, head) {
      FirstIsLeast(s, head, n);
    }
  }

  /** The search finds exactly the leftmost match. */
  lemma FindExact(s: string, m: Found, head: Pattern)
    ensures Find(s, head) == Some(m) <==> LeftmostMatch(s, m, head)
  {
    if LeftmostMatch(s, m, head) {
      assert s[|m.cut.literal|..] == m.cut.raw + m.rest;
      FirstIs(s, head, |m.cut.literal|);
    }
    if Find(s, head) == Some(m) {
      var n := First(s, head);
      forall i {:trigger s[i..]} | 0 <= i < n ensures head(s[i..]).None? {
        FirstIsLeast(s, head, i);
      }
    }
  }

  /** It finds nothing exactly when no position matches. */
  lemma FindNothing(s: string, head: Pattern)
    ensures Find(s, head).None? <==> NoneBefore(s, |s|, head)
  {
    FirstMatches(s, head);
    if Find(s, head).None? {
      forall i {:trigger s[i..]} | 0 <= i < |s| ensures head(s[i..]).None? {
        FirstIsLeast(s, head, i);
      }
    }
  }

  // ----- all matches -----

  ghost predicate Lawful(find: string -> Option<Found>) {
    forall s {:trigger find(s)} :: find(s).Some? ==>
      var m := find(s).value; m.cut.raw != [] && s == m.cut.literal + m.cut.raw + m.rest
  }

  type Finder = find: string -> Option<Found> | Lawful(find) witness (s => None)

  datatype Parts = Parts(cuts: seq<Cut>, tail: string)

  /** The text cut at its matches. */
  function Split(s: string, find: Finder): Parts
    decreases |s|
  {
    match find(s)
    case None => Parts([], s)
    case Some(m) => var rest := Split(m.rest, find); Parts([m.cut] + rest.cuts, rest.tail)
  }

  function Rest(p: Parts): Parts
    requires p.cuts != []
  {
    Parts(p.cuts[1..], p.tail)
  }

  function Whole(p: Parts): string
    decreases |p.cuts|
  {
    if p.cuts == [] then p.tail else p.cuts[0].literal + p.cuts[0].raw + Whole(Rest(p))
  }

  /** Each cut is the leftmost match of the text from there on, and the tail has none. */
  predicate Stands(p: Parts, find: Finder)
    decreases |p.cuts|
  {
    if p.cuts == [] then find(p.tail).None?
    else find(Whole(p)) == Some(Found(p.cuts[0], Whole(Rest(p)))) && Stands(Rest(p), find)
  }

  lemma SplitStep(s: string, find: Finder)
    requires find(s).Some?
    ensures var m := find(s).value; var p := Split(s, find);
            p.cuts != [] && p.cuts[0] == m.cut && Rest(p) == Split(m.rest, find) && |m.rest| < |s|
  {
    var m := find(s).value;
    assert s == m.cut.literal + m.cut.raw + m.rest;
    assert Split(s, find).cuts[1..] == Split(m.rest, find).cuts;
  }

  /** Cutting covers the text. */
  lemma {:induction false} SplitCovers(s: string, find: Finder)
    ensures Whole(Split(s, find)) == s && Stands(Split(s, find), find)
    decreases |s|
  {
    if find(s).Some? {
      SplitStep(s, find);
      SplitCovers(find(s).value.rest, find);
    }
  }

  /** There is only one such cutting. */
  lemma {:induction false} SplitUnique(p: Parts, find: Finder)
    requires Stands(p, find)
    ensures Split(Whole(p), find) == p
    decreases |p.cuts|
  {
    if p.cuts != [] {
      SplitUnique(Rest(p), find);
      assert [p.cuts[0]] + p.cuts[1..] == p.cuts;
    }
  }

  // ----- listing and replacing -----

  function Names(p: Parts, rename: string -> string): seq<string> {
    seq(|p.cuts|, i requires 0 <= i < |p.cuts| => rename(p.cuts[i].name))
  }

  /** Literals interleaved with the values of the names between them. */
  function Interleave(p: Parts, value: string -> string): string
    decreases |p.cuts|
  {
    if p.cuts == [] then p.tail
    else p.cuts[0].literal + value(p.cuts[0].name) + Interleave(Rest(p), value)
  }

  /** Two values that agree on the names of a text give the same result. */
  lemma {:induction false} InterleaveAgrees(p: Parts, value: string -> string, other: string -> string)
    requires forall i | 0 <= i < |p.cuts| :: value(p.cuts[i].name) == other(p.cuts[i].name)
    ensures Interleave(p, value) == Interleave(p, other)
    decreases |p.cuts|
  {
    if p.cuts != [] {
      InterleaveAgrees(Rest(p), value, other);
    }
  }

  lemma NamesStep(s: string, find: Finder, rename: string -> string)
    requires find(s).Some?
    ensures var m := find(s).value;
            && Names(Split(s, find), rename) == [rename(m.cut.name)] + Names(Split(m.rest, find), rename)
            && |m.rest| < |s|
  {
    SplitStep(s, find);
  }

  lemma InterleaveStep(s: string, find: Finder, value: string -> string)
    requires find(s).Some?
    ensures var m := find(s).value;
            && Interleave(Split(s, find), value)
               == m.cut.literal + value(m.cut.name) + Interleave(Split(m.rest, find), value)
            && |m.rest| < |s|
  {
    SplitStep(s, find);
  }

  /** The group of every match, in order, each renamed. */
  method MatchAll(s: string, find: Finder, rename: string -> string) returns (names: seq<string>)
    ensures names == Names(Split(s, find), rename)
  {
    names := [];
    var rest := s;
    while find(rest).Some?
      invariant names + Names(Split(rest, find), rename) == Names(Split(s, find), rename)
      decreases |rest|
    {
      NamesStep(rest, find, rename);
      var m := find(rest).value;
      names := names + [rename(m.cut.name)];
      rest := m.rest;
    }
  }

  /** The text with every match replaced by the value of its group. */
  method ReplaceAll(s: string, find: Finder, value: string -> string) returns (out: string)
    ensures out == Interleave(Split(s, find), value)
  {
    out := "";
    var rest := s;
    while find(rest).Some?
      invariant out + Interleave(Split(rest, find), value) == Interleave(Split(s, find), value)
      decreases |rest|
    {
      InterleaveStep(rest, find, value);
      var m := find(rest).value;
      out := out + (m.cut.literal + value(m.cut.name));
      rest := m.rest;
    }
    out := out + rest;
  }
}
