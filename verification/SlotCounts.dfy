/** Counting slots by group and by colour, and the health score (web/src/lib/vm-status.ts). */
module SlotCounts {
  import opened SlotStatus

  function Count<T(==)>(xs: seq<T>, x: T): nat {
    if xs == [] then 0 else Count(xs[..|xs| - 1], x) + if xs[|xs| - 1] == x then 1 else 0
  }

  function Mapped<T, U>(xs: seq<T>, f: T -> U): seq<U> {
    seq(|xs|, i requires 0 <= i < |xs| => f(xs[i]))
  }

  function Grouping(p: Patterns, now: int): Vm -> FleetGroup { vm => GroupOf(vm, p, now) }

  function Colouring(p: Patterns, now: int): Vm -> Cls { vm => AccountStatus(vm, p, now).cls }

  // ----- groups -----

  datatype GroupCounts = GroupCounts(all: nat, pool: nat, restricted: nat, off: nat, none: nat, bad: nat, revoke: nat)

  function Add(c: GroupCounts, g: FleetGroup): GroupCounts {
    match g
    case InPool => c.(pool := c.pool + 1)
    case Limited => c.(restricted := c.restricted + 1)
    case SwitchedOff => c.(off := c.off + 1)
    case Unused => c.(none := c.none + 1)
    case Invalid => c.(bad := c.bad + 1)
    case Revoked => c.(revoke := c.revoke + 1)
  }

  predicate CountsGroups(c: GroupCounts, gs: seq<FleetGroup>) {
    && c.pool == Count(gs, InPool) && c.restricted == Count(gs, Limited) && c.off == Count(gs, SwitchedOff)
    && c.none == Count(gs, Unused) && c.bad == Count(gs, Invalid) && c.revoke == Count(gs, Revoked)
  }

  lemma AddCounts(c: GroupCounts, gs: seq<FleetGroup>, g: FleetGroup)
    requires CountsGroups(c, gs)
    ensures CountsGroups(Add(c, g), gs + [g])
  {
    assert (gs + [g])[..|gs + [g]| - 1] == gs;
  }

  lemma {:induction false} GroupsCover(gs: seq<FleetGroup>)
    ensures Count(gs, InPool) + Count(gs, Limited) + Count(gs, SwitchedOff) + Count(gs, Unused)
            + Count(gs, Invalid) + Count(gs, Revoked) == |gs|
  {
    if gs != [] {
      GroupsCover(gs[..|gs| - 1]);
      match gs[|gs| - 1] case InPool => case Limited => case SwitchedOff => case Unused => case Invalid => case Revoked =>
    }
  }

  /** Every slot is counted in its group, and the groups add up to the whole. */
  method CountByGroup(vms: seq<Vm>, group: Vm -> FleetGroup) returns (c: GroupCounts)
    ensures CountsGroups(c, Mapped(vms, group)) && c.all == |vms|
    ensures c.pool + c.restricted + c.off + c.none + c.bad + c.revoke == c.all
  {
    c := GroupCounts(|vms|, 0, 0, 0, 0, 0, 0);
    ghost var gs := Mapped(vms, group);
    for i := 0 to |vms|
      invariant CountsGroups(c, gs[..i]) && c.all == |vms|
    {
      AddCounts(c, gs[..i], gs[i]);
      assert gs[..i] + [gs[i]] == gs[..i + 1];
      c := Add(c, group(vms[i]));
    }
    assert gs[..|vms|] == gs;
    GroupsCover(gs);
  }

  method FleetCounts(vms: seq<Vm>, p: Patterns, now: int) returns (c: GroupCounts)
    ensures CountsGroups(c, Mapped(vms, Grouping(p, now))) && c.all == |vms|
    ensures c.pool + c.restricted + c.off + c.none + c.bad + c.revoke == c.all
  {
    c := CountByGroup(vms, Grouping(p, now));
  }

  // ----- colours -----

  datatype Buckets = Buckets(ok: nat, caution: nat, warn: nat, bad: nat, off: nat, none: nat)

  function Drop(b: Buckets, cls: Cls): Buckets {
    match cls
    case ClsOk => b.(ok := b.ok + 1)
    case ClsCaution => b.(caution := b.caution + 1)
    case ClsWarn => b.(warn := b.warn + 1)
    case ClsBad => b.(bad := b.bad + 1)
    case ClsOff => b.(off := b.off + 1)
    case ClsNone => b.(none := b.none + 1)
  }

  predicate CountsColours(b: Buckets, cs: seq<Cls>) {
    && b.ok == Count(cs, ClsOk) && b.caution == Count(cs, ClsCaution) && b.warn == Count(cs, ClsWarn)
    && b.bad == Count(cs, ClsBad) && b.off == Count(cs, ClsOff) && b.none == Count(cs, ClsNone)
  }

  lemma DropCounts(b: Buckets, cs: seq<Cls>, cls: Cls)
    requires CountsColours(b, cs)
    ensures CountsColours(Drop(b, cls), cs + [cls])
  {
    assert (cs + [cls])[..|cs + [cls]| - 1] == cs;
  }

  lemma {:induction false} ColoursCover(cs: seq<Cls>)
    ensures Count(cs, ClsOk) + Count(cs, ClsCaution) + Count(cs, ClsWarn) + Count(cs, ClsBad)
            + Count(cs, ClsOff) + Count(cs, ClsNone) == |cs|
  {
    if cs != [] {
      ColoursCover(cs[..|cs| - 1]);
      match cs[|cs| - 1] case ClsOk => case ClsCaution => case ClsWarn => case ClsBad => case ClsOff => case ClsNone =>
    }
  }

  method CountByColour(vms: seq<Vm>, colour: Vm -> Cls) returns (b: Buckets)
    ensures CountsColours(b, Mapped(vms, colour))
    ensures b.ok + b.caution + b.warn + b.bad + b.off + b.none == |vms|
  {
    b := Buckets(0, 0, 0, 0, 0, 0);
    ghost var cs := Mapped(vms, colour);
    for i := 0 to |vms|
      invariant CountsColours(b, cs[..i])
    {
      DropCounts(b, cs[..i], cs[i]);
      assert cs[..i] + [cs[i]] == cs[..i + 1];
      b := Drop(b, colour(vms[i]));
    }
    assert cs[..|vms|] == cs;
    ColoursCover(cs);
  }

  method VmBuckets(vms: seq<Vm>, p: Patterns, now: int) returns (b: Buckets)
    ensures CountsColours(b, Mapped(vms, Colouring(p, now)))
    ensures b.ok + b.caution + b.warn + b.bad + b.off + b.none == |vms|
  {
    b := CountByColour(vms, Colouring(p, now));
  }

  // ----- health -----

  function Points(b: Buckets): nat { b.ok * 100 + b.caution * 84 + b.warn * 68 + b.bad * 28 + b.off * 12 }

  /** The points of a list of colours. */
  function PointsOf(cs: seq<Cls>): nat {
    Count(cs, ClsOk) * 100 + Count(cs, ClsCaution) * 84 + Count(cs, ClsWarn) * 68 + Count(cs, ClsBad) * 28 + Count(cs, ClsOff) * 12
  }

  /** The quotient rounded to the nearest integer, halves up. */
  function Rounded(t: nat, n: nat): (r: nat)
    requires n > 0
    ensures -(n as int) <= 2 * t - 2 * (n * r) < n
  {
    var r := (2 * t + n) / (2 * n);
    RoundingError(t, n, r);
    r
  }

  lemma RoundingError(t: nat, n: nat, r: nat)
    requires n > 0 && r == (2 * t + n) / (2 * n)
    ensures -(n as int) <= 2 * t - 2 * (n * r) < n
  {
    var q := 2 * t + n;
    assert q == (2 * n) * (q / (2 * n)) + q % (2 * n);
    assert (2 * n) * r == 2 * (n * r);
  }

  /** The average of the points, rounded: between 0 and 100, and 100 when every slot is fine. */
  method HealthScore(vms: seq<Vm>, p: Patterns, now: int) returns (score: nat)
    ensures score == if vms == [] then 0 else Rounded(PointsOf(Mapped(vms, Colouring(p, now))), |vms|)
    ensures score <= 100
    ensures vms != [] && (forall i | 0 <= i < |vms| :: Colouring(p, now)(vms[i]) == ClsOk) ==> score == 100
  {
    if vms == [] {
      return 0;
    }
    var b := VmBuckets(vms, p, now);
    score := Rounded(Points(b), |vms|);
    ScoreFacts(Mapped(vms, Colouring(p, now)));
  }

  /** The score of any list of colours. */
  lemma ScoreFacts(cs: seq<Cls>)
    requires cs != []
    ensures Rounded(PointsOf(cs), |cs|) <= 100
    ensures (forall i | 0 <= i < |cs| :: cs[i] == ClsOk) ==> Rounded(PointsOf(cs), |cs|) == 100
  {
    ColoursCover(cs);
    AllOk(cs);
    ScoreBound(PointsOf(cs), |cs|, Rounded(PointsOf(cs), |cs|));
  }

  lemma ScoreBound(t: nat, n: nat, r: nat)
    requires n > 0 && t <= 100 * n && r == Rounded(t, n)
    ensures r <= 100 && (t == 100 * n ==> r == 100)
  {
    Scaled(n, r);
  }

  lemma Scaled(n: nat, r: nat)
    ensures r > 100 ==> n * r >= n * 101
    ensures r < 100 ==> n * r <= n * 99
  {
  }

  lemma {:induction false} AllOk(cs: seq<Cls>)
    ensures (forall i | 0 <= i < |cs| :: cs[i] == ClsOk) ==> Count(cs, ClsOk) == |cs|
  {
    if cs != [] {
      AllOk(cs[..|cs| - 1]);
    }
  }
}
