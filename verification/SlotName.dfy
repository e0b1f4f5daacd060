/** Numbers of slots: reading them from names, printing them, and the next free one
    (web/src/lib/vm-name.ts). */
module SlotName {
  import opened Wrappers
  import opened Text
  import opened Decimal

  datatype Slot = Slot(name: string, id: string)

  predicate AllNumber(s: string) { s != [] && AllDigits(s) }

  /** `vm-` in any letter case and digits, or digits alone; leading zeros do not count. */
  function ParseVmNum(s: string): Option<nat> {
    if |s| > 3 && Lower(s[..3]) == "vm-" && AllNumber(s[3..]) then Some(Value(s[3..]))
    else if AllNumber(s) then Some(Value(s))
    else None
  }

  /** At least two digits. */
  function VmNameOf(n: nat): string {
    if |Print(n)| < 2 then "0" + Print(n) else Print(n)
  }

  predicate Legal(c: char) { 'a' <= c <= 'z' || 'A' <= c <= 'Z' || '0' <= c <= '9' || c == '_' || c == '-' }

  function Cleaned(s: string): string {
    if s == [] then "" else (if Legal(s[0]) then [s[0]] else []) + Cleaned(s[1..])
  }

  function VmIdOf(name: string): string {
    var n := ParseVmNum(name);
    if n.Some? && n.value > 0 then "vm-" + VmNameOf(n.value) else Cleaned(name)
  }

  /** The number of a slot: its name's, or else its id's. Zero counts as no number. */
  function NumberOf(slot: Slot): nat {
    match ParseVmNum(slot.name)
    case Some(n) => n
    case None => (match ParseVmNum(slot.id) case Some(n) => n case None => 0)
  }

  function Numbers(slots: seq<Slot>): seq<nat> {
    seq(|slots|, i requires 0 <= i < |slots| => NumberOf(slots[i]))
  }

  predicate Taken(slots: seq<Slot>, n: nat) { n in Numbers(slots) }

  /** The least positive number that no slot has. */
  predicate LeastFree(slots: seq<Slot>, n: nat) {
    n > 0 && !Taken(slots, n) && forall k | 0 < k < n :: Taken(slots, k)
  }

  /** The positive ones of some numbers. */
  ghost predicate Positives(used: set<nat>, ns: seq<nat>) { forall k :: k in used <==> k > 0 && k in ns }

  lemma PositivesGrow(used: set<nat>, ns: seq<nat>, k: nat)
    requires Positives(used, ns)
    ensures Positives(if k > 0 then used + {k} else used, ns + [k])
  {
  }

  method UsedNumbers(slots: seq<Slot>) returns (used: set<nat>)
    ensures |used| <= |slots| && Positives(used, Numbers(slots))
  {
    used := {};
    ghost var ns := Numbers(slots);
    for i := 0 to |slots|
      invariant |used| <= i && Positives(used, ns[..i])
    {
      PositivesGrow(used, ns[..i], ns[i]);
      assert ns[..i + 1] == ns[..i] + [ns[i]];
      var k := NumberOf(slots[i]);
      if k > 0 {
        used := used + {k};
      }
    }
    assert ns[..|slots|] == ns;
  }

  /** Counting up ends at the first number that is not used, by the pigeonhole principle. */
  method CountUp(used: set<nat>) returns (n: nat)
    ensures 0 < n <= |used| + 1 && n !in used && forall k | 0 < k < n :: k in used
  {
    n := 1;
    ghost var below: set<nat> := {};
    while n in used
      invariant n > 0 && |below| == n - 1 && below <= used && n !in below
      invariant forall k :: k in below <==> 0 < k < n
      decreases |used| - |below|
    {
      Fits(below + {n}, used);
      below, n := below + {n}, n + 1;
    }
    Fits(below, used);
  }

  method NextVmSeq(slots: seq<Slot>) returns (n: nat)
    ensures LeastFree(slots, n) && n <= |slots| + 1
  {
    var used := UsedNumbers(slots);
    n := CountUp(used);
  }

  /** A part is not larger than the whole. */
  lemma {:induction false} Fits(part: set<nat>, whole: set<nat>)
    requires part <= whole
    ensures |part| <= |whole|
    decreases part
  {
    if part != {} {
      var x :| x in part;
      Fits(part - {x}, whole - {x});
    }
  }

  // ----- reading back what was printed -----

  lemma NameReadsBack(n: nat)
    ensures ParseVmNum(VmNameOf(n)) == Some(n)
  {
    PrintReadsBack(n);
    LeadingZeros("0", Print(n));
    var name := VmNameOf(n);
    assert AllNumber(name) && Value(name) == n;
    if |name| > 3 {
      assert Lower(name[..3])[0] == LowerChar(name[0]);
      assert IsDigit(name[0]);
    }
  }

  /** The id derived from a number's name carries the same number. */
  lemma IdReadsBack(n: nat)
    requires n > 0
    ensures VmIdOf(VmNameOf(n)) == "vm-" + VmNameOf(n)
    ensures ParseVmNum(VmIdOf(VmNameOf(n))) == Some(n)
  {
    NameReadsBack(n);
    var name := VmNameOf(n);
    LeadingZeros("0", Print(n));
    PrintReadsBack(n);
    assert AllNumber(name) && Value(name) == n;
    var id := "vm-" + name;
    assert id[..3] == "vm-" && id[3..] == name;
    assert Lower("vm-") == "vm-";
  }

  /** Ids hold legal characters only. */
  lemma {:induction false} CleanedIsLegal(s: string)
    ensures forall i | 0 <= i < |Cleaned(s)| :: Legal(Cleaned(s)[i])
    ensures (forall i | 0 <= i < |s| :: Legal(s[i])) ==> Cleaned(s) == s
  {
    if s != [] {
      CleanedIsLegal(s[1..]);
    }
  }

  lemma IdIsLegal(name: string)
    ensures forall i | 0 <= i < |VmIdOf(name)| :: Legal(VmIdOf(name)[i])
  {
    CleanedIsLegal(name);
  }

  // ----- numbers grow -----

  /** Adding a slot named or identified by the next number makes the next number larger. */
  lemma NextGrows(slots: seq<Slot>, n: nat, added: Slot, m: nat)
    requires LeastFree(slots, n) && LeastFree(slots + [added], m)
    requires added.name == VmNameOf(n) || (ParseVmNum(added.name).None? && added.id == VmIdOf(VmNameOf(n)))
    ensures m > n
  {
    NameReadsBack(n);
    IdReadsBack(n);
    var all := slots + [added];
    assert Numbers(all) == Numbers(slots) + [n];
    if m < n {
      TakenStays(slots, added, m);
    }
  }

  lemma TakenStays(slots: seq<Slot>, added: Slot, k: nat)
    requires Taken(slots, k)
    ensures Taken(slots + [added], k)
  {
    assert Numbers(slots + [added]) == Numbers(slots) + [NumberOf(added)];
  }
}
