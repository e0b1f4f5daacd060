/** The quota of the whole pool in three windows (web/src/lib/pool-quota.ts, with the percentages
    of web/src/lib/format.ts and web/src/lib/fable-status.ts). */
module PoolQuota {
  import opened Wrappers
  import opened Text
  import opened SlotStatus

  datatype Segment = Segment(id: string, name: string, usedPct: real, probed: bool, resetAt: int)

  datatype Window = Window(segments: seq<Segment>, capacity: nat, used: real, remain: real, remainPct: real)

  // ----- one slot -----

  function Clamped(n: real): (p: real)
    ensures 0.0 <= p <= 100.0
  {
    if n < 0.0 then 0.0 else if n > 100.0 then 100.0 else n
  }

  function FindWindow(ws: seq<CodexWindow>, id: string): Option<CodexWindow> {
    if ws == [] then None else if ws[0].id == id then Some(ws[0]) else FindWindow(ws[1..], id)
  }

  function UsedPctOf(vm: Vm, id: string, utilization: Amount): (p: real)
    ensures 0.0 <= p <= 100.0
  {
    match FindWindow(vm.codexWindows, id)
    case Some(CodexWindow(_, Finite(n))) => Clamped(n)
    case _ => Pct(utilization)
  }

  predicate Probed(vm: Vm, id: string, utilization: Amount) {
    || !utilization.Missing?
    || exists i :: 0 <= i < |vm.codexWindows| && vm.codexWindows[i].id == id && !vm.codexWindows[i].usedPercent.Missing?
  }

  /** A time in milliseconds, or zero. */
  function Millis(at: Stamp): int { if at.At? then at.ms else 0 }

  function NameOf(vm: Vm): string { Or(vm.name, vm.id) }

  function Segment5h(vm: Vm): Segment {
    Segment(vm.id, NameOf(vm), UsedPctOf(vm, "5h", vm.utilization5h), Probed(vm, "5h", vm.utilization5h), Millis(vm.reset5h))
  }

  function Segment7d(vm: Vm): Segment {
    Segment(vm.id, NameOf(vm), UsedPctOf(vm, "7d", vm.utilization7d), Probed(vm, "7d", vm.utilization7d), Millis(vm.reset7d))
  }

  datatype Tier = NoTier | Codex | Max | Pro

  predicate RealFable(vm: Vm) {
    || vm.usageHasFable || vm.fable.ok
    || (match vm.utilization7dOi
        case Missing => false
        case NotFinite => !vm.reset7dOi.Absent?
        case Finite(n) => !vm.reset7dOi.Absent? || (if n > 1.5 then n / 100.0 else n) < 1.0)
  }

  function ClaudeTier(vm: Vm): Tier {
    if !vm.hasToken then NoTier
    else if vm.codex then Codex
    else if RealFable(vm) || Lower(vm.accountTier) == "max" then Max
    else Pro
  }

  predicate InventedFableWindow(vm: Vm) {
    if vm.fable.ok then false
    else if vm.fable.status != 429 && !vm.fable.limited then false
    else
      match vm.utilization7dOi
      case Missing => vm.reset7dOi.Absent?
      case NotFinite => false
      case Finite(n) => (if n > 1.5 then n / 100.0 else n) >= 1.0 && vm.reset7dOi.Absent?
  }

  function FableUsedOf(vm: Vm, p: Patterns): Amount {
    if ClaudeTier(vm) == Pro || FablePlanDenied(vm.fable, p) || InventedFableWindow(vm) then Missing
    else if !vm.utilization7dOi.Missing? then vm.utilization7dOi
    else vm.fable.utilization
  }

  predicate FableWeeklyFull(vm: Vm, p: Patterns) {
    var used := FableUsedOf(vm, p);
    if WindowLimited(vm.status7dOi, Pct(used)) then true
    else if !used.Missing? then Pct(used) >= 100.0
    else vm.fable.limited
  }

  predicate HasFable(vm: Vm, p: Patterns) {
    ClaudeTier(vm) == Max && !FablePlanDenied(vm.fable, p) && !vm.fable.banned
  }

  function SegmentFable(vm: Vm, p: Patterns): Segment {
    var used, full := FableUsedOf(vm, p), FableWeeklyFull(vm, p);
    Segment(vm.id, NameOf(vm), if full then 100.0 else Pct(used), !used.Missing? || full || vm.fable.ok, Millis(vm.reset7dOi))
  }

  // ----- a window -----

  predicate InRange(s: Segment) { 0.0 <= s.usedPct <= 100.0 }

  predicate AllInRange(ss: seq<Segment>) { forall i | 0 <= i < |ss| :: InRange(ss[i]) }

  predicate Descending(ss: seq<Segment>) { forall i, j | 0 <= i < j < |ss| :: ss[i].usedPct >= ss[j].usedPct }

  /** Puts a segment behind those that are not less used. */
  function Insert(ss: seq<Segment>, s: Segment): seq<Segment> {
    if ss == [] then [s]
    else if ss[|ss| - 1].usedPct >= s.usedPct then ss + [s]
    else Insert(ss[..|ss| - 1], s) + [ss[|ss| - 1]]
  }

  /** A stable sort by use, most used first. */
  function Sorted(ss: seq<Segment>): seq<Segment> {
    if ss == [] then [] else Insert(Sorted(ss[..|ss| - 1]), ss[|ss| - 1])
  }

  function Sum(ss: seq<Segment>): real {
    if ss == [] then 0.0 else Sum(ss[..|ss| - 1]) + ss[|ss| - 1].usedPct / 100.0
  }

  /** The segments used to one degree, in order. */
  function Level(ss: seq<Segment>, usedPct: real): seq<Segment> {
    if ss == [] then []
    else Level(ss[..|ss| - 1], usedPct) + if ss[|ss| - 1].usedPct == usedPct then [ss[|ss| - 1]] else []
  }

  lemma {:induction false} InsertDescends(ss: seq<Segment>, s: Segment)
    requires Descending(ss)
    ensures Descending(Insert(ss, s))
    ensures forall i | 0 <= i < |Insert(ss, s)| :: Insert(ss, s)[i] == s || Insert(ss, s)[i] in ss
  {
    if ss != [] && ss[|ss| - 1].usedPct < s.usedPct {
      InsertDescends(ss[..|ss| - 1], s);
    }
  }

  lemma {:induction false} InsertPermutes(ss: seq<Segment>, s: Segment)
    ensures multiset(Insert(ss, s)) == multiset(ss + [s]) && |Insert(ss, s)| == |ss| + 1
  {
    if ss != [] && ss[|ss| - 1].usedPct < s.usedPct {
      var front, last := ss[..|ss| - 1], ss[|ss| - 1];
      InsertPermutes(front, s);
      assert ss == front + [last];
    }
  }

  lemma LevelAdd(ss: seq<Segment>, s: Segment, v: real)
    ensures Level(ss + [s], v) == Level(ss, v) + if s.usedPct == v then [s] else []
  {
    assert (ss + [s])[..|ss + [s]| - 1] == ss;
  }

  lemma {:induction false} InsertKeepsLevels(ss: seq<Segment>, s: Segment, v: real)
    requires Descending(ss)
    ensures Level(Insert(ss, s), v) == Level(ss + [s], v)
  {
    LevelAdd(ss, s, v);
    if ss != [] && ss[|ss| - 1].usedPct < s.usedPct {
      var front, last := ss[..|ss| - 1], ss[|ss| - 1];
      InsertKeepsLevels(front, s, v);
      LevelAdd(front, s, v);
      LevelAdd(Insert(front, s), last, v);
      assert Level(ss, v) == Level(front, v) + if last.usedPct == v then [last] else [];
    }
  }

  /** The sort: a descending permutation that keeps the order of equally used segments. */
  lemma {:induction false} SortedIsStable(ss: seq<Segment>)
    ensures Arranged(Sorted(ss), ss)
  {
    if ss != [] {
      var front, last := ss[..|ss| - 1], ss[|ss| - 1];
      SortedIsStable(front);
      InsertDescends(Sorted(front), last);
      InsertPermutes(Sorted(front), last);
      assert ss == front + [last];
      forall v ensures Level(Sorted(ss), v) == Level(ss, v) {
        InsertKeepsLevels(Sorted(front), last, v);
        LevelAdd(Sorted(front), last, v);
        LevelAdd(front, last, v);
      }
    }
  }

  lemma {:induction false} SumInRange(ss: seq<Segment>)
    requires AllInRange(ss)
    ensures 0.0 <= Sum(ss) <= |ss| as real
  {
    if ss != [] {
      SumInRange(ss[..|ss| - 1]);
    }
  }

  lemma {:induction false} InsertSum(ss: seq<Segment>, s: Segment)
    ensures Sum(Insert(ss, s)) == Sum(ss) + s.usedPct / 100.0
  {
    if ss != [] && ss[|ss| - 1].usedPct < s.usedPct {
      var front, last := ss[..|ss| - 1], ss[|ss| - 1];
      InsertSum(front, s);
      SumAdd(Insert(front, s), last);
    } else {
      SumAdd(ss, s);
    }
  }

  lemma SumAdd(ss: seq<Segment>, s: Segment)
    ensures Sum(ss + [s]) == Sum(ss) + s.usedPct / 100.0
  {
    assert (ss + [s])[..|ss + [s]| - 1] == ss;
  }

  /** Sorting does not change the total. */
  lemma {:induction false} SortedSum(ss: seq<Segment>)
    ensures Sum(Sorted(ss)) == Sum(ss)
  {
    if ss != [] {
      SortedSum(ss[..|ss| - 1]);
      InsertSum(Sorted(ss[..|ss| - 1]), ss[|ss| - 1]);
    }
  }

  /** A descending permutation that keeps the order of equally used segments. */
  ghost predicate Arranged(arranged: seq<Segment>, ss: seq<Segment>) {
    && Descending(arranged) && multiset(arranged) == multiset(ss) && |arranged| == |ss|
    && forall v :: Level(arranged, v) == Level(ss, v)
  }

  /** Used and remaining make up the capacity, and the percentage is that of what remains. */
  predicate AddsUp(capacity: nat, used: real, remain: real, remainPct: real) {
    && 0.0 <= used <= capacity as real
    && used + remain == capacity as real
    && 0.0 <= remainPct <= 100.0
    && (capacity > 0 ==> remainPct * (capacity as real) == remain * 100.0)
    && (capacity == 0 ==> remainPct == 0.0)
  }

  /** What holds of every window. */
  ghost predicate Balanced(w: Window, ss: seq<Segment>) {
    && Arranged(w.segments, ss) && w.capacity == |ss| && w.used == Sum(ss)
    && AddsUp(w.capacity, w.used, w.remain, w.remainPct)
  }

  /** The share of what remains. */
  function ShareOf(remain: real, capacity: nat): (r: real)
    requires 0.0 <= remain <= capacity as real
    ensures 0.0 <= r <= 100.0
    ensures AddsUp(capacity, capacity as real - remain, remain, r)
  {
    if capacity == 0 then 0.0
    else
      var c := capacity as real;
      ShareBound(remain, c);
      remain / c * 100.0
  }

  lemma ShareBound(remain: real, c: real)
    requires c > 0.0 && 0.0 <= remain <= c
    ensures 0.0 <= remain / c <= 1.0 && remain / c * 100.0 * c == remain * 100.0
  {
    var q := remain / c;
    assert q * c == remain;
    assert q * 100.0 * c == (q * c) * 100.0;
    Grows(q, c);
  }

  lemma Grows(q: real, c: real)
    requires c > 0.0
    ensures q > 1.0 ==> q * c > c
  {
  }

  method Total(ss: seq<Segment>) returns (used: real)
    ensures used == Sum(ss)
  {
    used := 0.0;
    for i := 0 to |ss|
      invariant used == Sum(ss[..i])
    {
      SumAdd(ss[..i], ss[i]);
      assert ss[..i] + [ss[i]] == ss[..i + 1];
      used := used + ss[i].usedPct / 100.0;
    }
    assert ss[..|ss|] == ss;
  }

  method BuildWindow(ss: seq<Segment>) returns (w: Window)
    requires AllInRange(ss)
    ensures Balanced(w, ss)
  {
    var segments := Sorted(ss);
    SortedIsStable(ss);
    SortedSum(ss);
    SumInRange(ss);
    var used := Total(segments);
    var capacity := |segments|;
    var remain := capacity as real - used;
    w := Window(segments, capacity, used, remain, ShareOf(remain, capacity));
  }

  // ----- the pool -----

  function Eligible(vms: seq<Vm>, usable: Vm -> bool): seq<Vm> {
    if vms == [] then []
    else Eligible(vms[..|vms| - 1], usable) + if usable(vms[|vms| - 1]) then [vms[|vms| - 1]] else []
  }

  function Segments(vms: seq<Vm>, segment: Vm -> Segment): seq<Segment> {
    seq(|vms|, i requires 0 <= i < |vms| => segment(vms[i]))
  }

  function WithToken(vms: seq<Vm>): nat {
    if vms == [] then 0 else WithToken(vms[..|vms| - 1]) + if vms[|vms| - 1].hasToken then 1 else 0
  }

  function Usable(p: Patterns, now: int): Vm -> bool { vm => AccountUsable(vm, p, now) }

  function FableOf(p: Patterns): Vm -> bool { vm => HasFable(vm, p) }

  function FableSegment(p: Patterns): Vm -> Segment { vm => SegmentFable(vm, p) }

  /** The segments' uses are percentages. */
  lemma SegmentsInRange(vms: seq<Vm>, p: Patterns)
    ensures AllInRange(Segments(vms, Segment5h)) && AllInRange(Segments(vms, Segment7d)) && AllInRange(Segments(vms, FableSegment(p)))
  {
    forall i | 0 <= i < |vms|
      ensures InRange(Segments(vms, Segment5h)[i]) && InRange(Segments(vms, Segment7d)[i])
      ensures InRange(Segments(vms, FableSegment(p))[i])
    {
      assert InRange(Segment5h(vms[i])) && InRange(Segment7d(vms[i])) && InRange(SegmentFable(vms[i], p));
    }
  }

  method Filter(vms: seq<Vm>, usable: Vm -> bool) returns (kept: seq<Vm>)
    ensures kept == Eligible(vms, usable)
  {
    kept := [];
    for i := 0 to |vms|
      invariant kept == Eligible(vms[..i], usable)
    {
      assert vms[..i + 1][..i] == vms[..i];
      if usable(vms[i]) {
        kept := kept + [vms[i]];
      }
    }
    assert vms[..|vms|] == vms;
  }

  method CountTokens(vms: seq<Vm>) returns (n: nat)
    ensures n == WithToken(vms)
  {
    n := 0;
    for i := 0 to |vms|
      invariant n == WithToken(vms[..i])
    {
      assert vms[..i + 1][..i] == vms[..i];
      if vms[i].hasToken {
        n := n + 1;
      }
    }
    assert vms[..|vms|] == vms;
  }

  /** The segments of the three windows, slot by slot. */
  method Collect(usable: seq<Vm>, one: Vm -> Segment, two: Vm -> Segment, third: Vm -> bool, three: Vm -> Segment)
    returns (w5: seq<Segment>, w7: seq<Segment>, wf: seq<Segment>)
    ensures w5 == Segments(usable, one) && w7 == Segments(usable, two)
    ensures wf == Segments(Eligible(usable, third), three)
  {
    w5, w7, wf := [], [], [];
    for i := 0 to |usable|
      invariant w5 == Segments(usable[..i], one) && w7 == Segments(usable[..i], two)
      invariant wf == Segments(Eligible(usable[..i], third), three)
    {
      assert usable[..i + 1][..i] == usable[..i];
      w5 := w5 + [one(usable[i])];
      w7 := w7 + [two(usable[i])];
      if third(usable[i]) {
        wf := wf + [three(usable[i])];
      }
    }
    assert usable[..|usable|] == usable;
  }

  lemma {:induction false} FewerEligible(vms: seq<Vm>, usable: Vm -> bool)
    ensures |Eligible(vms, usable)| <= |vms|
  {
    if vms != [] {
      FewerEligible(vms[..|vms| - 1], usable);
    }
  }

  lemma {:induction false} EligibleHaveTokens(vms: seq<Vm>, usable: Vm -> bool)
    requires forall vm :: usable(vm) ==> vm.hasToken
    ensures |Eligible(vms, usable)| <= WithToken(vms)
  {
    if vms != [] {
      EligibleHaveTokens(vms[..|vms| - 1], usable);
    }
  }

  /** Every window balances; the first two count all eligible slots, the third some of them. */
  method ComputePoolQuota(vms: seq<Vm>, p: Patterns, now: int)
    returns (w5: Window, w7: Window, wf: Window, eligible: nat, withToken: nat)
    ensures var usable := Eligible(vms, Usable(p, now));
            && Balanced(w5, Segments(usable, Segment5h)) && Balanced(w7, Segments(usable, Segment7d))
            && Balanced(wf, Segments(Eligible(usable, FableOf(p)), FableSegment(p)))
            && eligible == |usable|
    ensures w5.capacity == w7.capacity == eligible && wf.capacity <= eligible <= withToken == WithToken(vms)
  {
    var usable := Filter(vms, Usable(p, now));
    var s5, s7, sf := Collect(usable, Segment5h, Segment7d, FableOf(p), FableSegment(p));
    SegmentsInRange(usable, p);
    SegmentsInRange(Eligible(usable, FableOf(p)), p);
    w5 := BuildWindow(s5);
    w7 := BuildWindow(s7);
    wf := BuildWindow(sf);
    eligible := |usable|;
    withToken := CountTokens(vms);
    FewerEligible(usable, FableOf(p));
    EligibleHaveTokens(vms, Usable(p, now));
  }
}
