/** When applying two patches in turn gives the very blocks that applying them as one gives,
    including the order of keys (web/src/lib/persona-zero-fields.ts). */
module ZeroOrder {
  import opened Wrappers
  import opened Text
  import opened Json
  import JsonRoundTrip
  import opened Templates
  import opened ZeroFields
  import opened ZeroLens

  // ----- members and their order -----

  predicate Last(members: Members, key: string) { members != [] && members[|members| - 1].name == key }

  /** Removing the key and adding it again leaves it where it is. */
  predicate Returns(members: Members, key: string) { Get(members, key).None? || Last(members, key) }

  lemma {:induction false} HasGet(members: Members, name: string)
    requires HasName(members, name)
    ensures Get(members, name).Some?
  {
    if members[0].name != name {
      var i :| 0 <= i < |members| && members[i].name == name;
      assert members[1..][i - 1].name == name;
      HasGet(members[1..], name);
    }
  }

  lemma PutLast(members: Members, name: string, v: Value, key: string)
    ensures Last(Put(members, name, v), key) <==> if Get(members, name).Some? then Last(members, key) else key == name
  {
    if Get(members, name).Some? {
      GetHas(members, name);
      JsonRoundTrip.PutShape(members, name, v);
    } else {
      PutAbsent(members, name, v);
    }
  }

  lemma DistinctPut(members: Members, name: string, v: Value)
    requires DistinctNames(members)
    ensures DistinctNames(Put(members, name, v))
  {
    JsonRoundTrip.PutShape(members, name, v);
    if !HasName(members, name) {
      JsonRoundTrip.PutNew(members, name, v);
    }
  }

  lemma {:induction false} DistinctRemove(members: Members, name: string)
    requires DistinctNames(members)
    ensures DistinctNames(Remove(members, name))
  {
    if members != [] {
      var first, rest := members[0], members[1..];
      DistinctRemove(rest, name);
      if HasName(Remove(rest, name), first.name) {
        HasGet(Remove(rest, name), first.name);
        GetRemove(rest, name, first.name);
        GetHas(rest, first.name);
      }
    }
  }

  lemma {:induction false} RemovePut(members: Members, name: string, v: Value)
    ensures Remove(Put(members, name, v), name) == Remove(members, name)
  {
    if members != [] && members[0].name != name {
      RemovePut(members[1..], name, v);
    }
  }

  lemma {:induction false} RemovePutOther(members: Members, name: string, v: Value, other: string)
    requires other != name
    ensures Remove(Put(members, name, v), other) == Put(Remove(members, other), name, v)
  {
    if members != [] && members[0].name != name {
      RemovePutOther(members[1..], name, v, other);
    }
  }

  lemma {:induction false} RemovesCommute(members: Members, name: string, other: string)
    ensures Remove(Remove(members, name), other) == Remove(Remove(members, other), name)
  {
    if members != [] {
      RemovesCommute(members[1..], name, other);
    }
  }

  lemma {:induction false} PutsCommute(members: Members, name: string, v: Value, other: string, w: Value)
    requires name != other && Get(members, other).Some?
    ensures Put(Put(members, name, v), other, w) == Put(Put(members, other, w), name, v)
  {
    if members[0].name != name && members[0].name != other {
      PutsCommute(members[1..], name, v, other, w);
    }
  }

  lemma MovesToEnd(members: Members, name: string, v: Value)
    requires DistinctNames(members)
    ensures Put(Remove(members, name), name, v) == Remove(members, name) + [Member(name, v)]
    ensures Put(Remove(members, name), name, v) == Put(members, name, v) <==> Returns(members, name)
  {
    GetRemove(members, name, name);
    PutAbsent(Remove(members, name), name, v);
    PutLast(members, name, v, name);
    if Get(members, name).None? {
      RemoveAbsent(members, name);
    } else if Last(members, name) {
      LastKey(members, name, v);
    }
  }

  // ----- flags -----

  lemma RemoveFlag(members: Members, flag: string, on: bool)
    ensures Remove(WithFlag(members, flag, on), flag) == Remove(members, flag)
  {
    RemovePut(members, flag, Bool(true));
    GetRemove(members, flag, flag);
    RemoveAbsent(Remove(members, flag), flag);
  }

  lemma RemoveOtherFlag(members: Members, flag: string, on: bool, other: string)
    requires flag != other
    ensures Remove(WithFlag(members, flag, on), other) == WithFlag(Remove(members, other), flag, on)
  {
    RemovePutOther(members, flag, Bool(true), other);
    RemovesCommute(members, flag, other);
  }

  /** Writing a key that is there does not interfere with a flag. */
  lemma FlagThrough(members: Members, flag: string, on: bool, other: string, v: Value)
    requires flag != other && Get(members, other).Some?
    ensures Put(WithFlag(members, flag, on), other, v) == WithFlag(Put(members, other, v), flag, on)
  {
    PutsCommute(members, flag, Bool(true), other, v);
    RemovePutOther(members, other, v, flag);
  }

  /** One flag, set to `first` and then to `second`. */
  lemma FlagTwice(members: Members, flag: string, first: bool, second: bool)
    requires DistinctNames(members)
    ensures WithFlag(WithFlag(members, flag, first), flag, second) == WithFlag(members, flag, second)
       <==> !second || first || Returns(members, flag)
  {
    if !second {
      RemoveFlag(members, flag, first);
    } else if first {
      PutAgain(members, flag, Bool(true), Bool(true));
    } else {
      MovesToEnd(members, flag, Bool(true));
    }
  }

  /** One flag set twice, with another key written after each time. */
  lemma FlagAround(members: Members, flag: string, first: bool, second: bool, other: string, v: Value)
    requires DistinctNames(members) && flag != other
    ensures WithFlag(Put(WithFlag(members, flag, first), other, v), flag, second) == Put(WithFlag(members, flag, second), other, v)
       <==> !second || first || (Get(members, other).Some? && Returns(members, flag))
  {
    var on := Bool(true);
    if !second {
      RemovePutOther(WithFlag(members, flag, first), other, v, flag);
      RemoveFlag(members, flag, first);
    } else if first {
      GetPut(members, flag, on, flag);
      GetPut(Put(members, flag, on), other, v, flag);
      PutSame(Put(Put(members, flag, on), other, v), flag, on);
    } else {
      FlagAfterOther(members, flag, other, v);
    }
  }

  lemma FlagAfterOther(members: Members, flag: string, other: string, v: Value)
    requires DistinctNames(members) && flag != other
    ensures Put(Put(Remove(members, flag), other, v), flag, Bool(true)) == Put(Put(members, flag, Bool(true)), other, v)
       <==> Get(members, other).Some? && Returns(members, flag)
  {
    var on, off := Bool(true), Remove(members, flag);
    GetRemove(members, flag, flag);
    GetRemove(members, flag, other);
    GetPut(off, other, v, flag);
    PutLast(Put(off, other, v), flag, on, flag);
    GetPut(members, flag, on, other);
    PutLast(Put(members, flag, on), other, v, flag);
    PutLast(members, flag, on, flag);
    if Get(members, other).Some? {
      PutsCommute(off, flag, on, other, v);
      MovesToEnd(members, flag, on);
    }
  }

  // ----- two flags -----

  /** When setting two flags, each to a first and then to a second value, ends in the same order as
      setting them to the second values alone. */
  predicate FlagsReturn(members: Members, one: string, two: string, f1: bool, f2: bool, s1: bool, s2: bool) {
    if s1 && s2 then
      if f1 then f2 || Get(members, two).None? || (Get(members, one).Some? && Last(members, two))
      else if f2 then Get(members, two).Some? && Returns(members, one)
      else if Get(members, two).Some? then
        Get(members, one).Some? && Last(members, two) && Returns(Remove(members, two), one)
      else Returns(members, one)
    else (!s1 || f1 || Returns(Remove(members, two), one)) && (!s2 || f2 || Returns(Remove(members, one), two))
  }

  function TwoFlags(members: Members, one: string, two: string, a: bool, b: bool): Members {
    WithFlag(WithFlag(members, one, a), two, b)
  }

  lemma FlagsTwice(members: Members, one: string, two: string, f1: bool, f2: bool, s1: bool, s2: bool)
    requires DistinctNames(members) && one != two
    ensures TwoFlags(TwoFlags(members, one, two, f1, f2), one, two, s1, s2) == TwoFlags(members, one, two, s1, s2)
       <==> FlagsReturn(members, one, two, f1, f2, s1, s2)
  {
    if s1 && s2 {
      BothOn(members, one, two, f1, f2);
    } else if s1 {
      OneOn(members, one, two, f1, f2);
    } else if s2 {
      TwoOn(members, one, two, f1, f2);
    } else {
      NoneOn(members, one, two, f1, f2);
    }
  }

  lemma NoneOn(members: Members, one: string, two: string, f1: bool, f2: bool)
    requires one != two
    ensures TwoFlags(TwoFlags(members, one, two, f1, f2), one, two, false, false) == TwoFlags(members, one, two, false, false)
  {
    var first := WithFlag(members, one, f1);
    RemoveOtherFlag(first, two, f2, one);
    RemoveFlag(Remove(first, one), two, f2);
    RemoveFlag(members, one, f1);
  }

  lemma OneOn(members: Members, one: string, two: string, f1: bool, f2: bool)
    requires DistinctNames(members) && one != two
    ensures TwoFlags(TwoFlags(members, one, two, f1, f2), one, two, true, false) == TwoFlags(members, one, two, true, false)
       <==> f1 || Returns(Remove(members, two), one)
  {
    var first := WithFlag(members, one, f1);
    RemoveOtherFlag(WithFlag(first, two, f2), one, true, two);
    RemoveFlag(first, two, f2);
    RemoveOtherFlag(members, one, f1, two);
    RemoveOtherFlag(members, one, true, two);
    DistinctRemove(members, two);
    FlagTwice(Remove(members, two), one, f1, true);
  }

  lemma TwoOn(members: Members, one: string, two: string, f1: bool, f2: bool)
    requires DistinctNames(members) && one != two
    ensures TwoFlags(TwoFlags(members, one, two, f1, f2), one, two, false, true) == TwoFlags(members, one, two, false, true)
       <==> f2 || Returns(Remove(members, one), two)
  {
    var first := WithFlag(members, one, f1);
    RemoveOtherFlag(first, two, f2, one);
    RemoveFlag(members, one, f1);
    DistinctRemove(members, one);
    FlagTwice(Remove(members, one), two, f2, true);
  }

  lemma BothOn(members: Members, one: string, two: string, f1: bool, f2: bool)
    requires DistinctNames(members) && one != two
    ensures TwoFlags(TwoFlags(members, one, two, f1, f2), one, two, true, true) == TwoFlags(members, one, two, true, true)
       <==> FlagsReturn(members, one, two, f1, f2, true, true)
  {
    var on := Bool(true);
    if f1 {
      var z := Put(members, one, on);
      GetPut(members, one, on, one);
      GetFlag(z, two, f2, one);
      PutSame(WithFlag(z, two, f2), one, on);
      DistinctPut(members, one, on);
      FlagTwice(z, two, f2, true);
      GetPut(members, one, on, two);
      PutLast(members, one, on, two);
    } else if f2 {
      var z := Put(Put(Remove(members, one), two, on), one, on);
      GetPut(Remove(members, one), two, on, two);
      GetPut(Put(Remove(members, one), two, on), one, on, two);
      PutSame(z, two, on);
      FlagAfterOther(members, one, two, on);
    } else {
      BothBack(members, one, two);
    }
  }

  lemma BothBack(members: Members, one: string, two: string)
    requires DistinctNames(members) && one != two
    ensures TwoFlags(TwoFlags(members, one, two, false, false), one, two, true, true) == TwoFlags(members, one, two, true, true)
       <==> if Get(members, two).Some?
            then Get(members, one).Some? && Last(members, two) && Returns(Remove(members, two), one)
            else Returns(members, one)
  {
    var on := Bool(true);
    var off := Remove(Remove(members, one), two);
    RemovesCommute(members, one, two);
    GetRemove(Remove(members, two), one, one);
    GetRemove(Remove(members, one), two, two);
    GetPut(off, one, on, two);
    PutAbsent(Put(off, one, on), two, on);
    DistinctRemove(members, two);
    MovesToEnd(Remove(members, two), one, on);
    GetPut(members, one, on, two);
    var direct := Put(members, one, on);
    SameBeforeLast(Put(off, one, on), direct, Member(two, on));
    if Get(members, two).None? {
      RemoveAbsent(members, two);
      PutAbsent(direct, two, on);
    } else {
      PutLast(members, one, on, two);
      PutLast(direct, two, on, two);
      if Last(direct, two) {
        DistinctPut(members, one, on);
        LastKey(direct, two, on);
        RemovePutOther(members, one, on, two);
        GetRemove(members, two, one);
        SameBeforeLast(Put(off, one, on), Remove(direct, two), Member(two, on));
      }
    }
  }

  lemma SameBeforeLast(a: Members, b: Members, m: Member)
    ensures a + [m] == b + [m] <==> a == b
  {
    if a + [m] == b + [m] {
      assert (a + [m])[..|a|] == a && (b + [m])[..|b|] == b;
    }
  }

  // ----- one slot's block -----

  /** The key is absent, or the last one with the text before it: then removing it and adding it
      again leaves it where it is also when the text is written first. */
  predicate ComesBack(block: Members, key: string) {
    Get(block, key).None? || (Get(block, "text").Some? && Last(block, key))
  }

  predicate FlagKept(block: Members, flag: string, first: bool, second: bool) {
    !second || first || ComesBack(block, flag)
  }

  const HIDE := "hide"
  const DROP := "drop_if_empty"
  const CACHE := "cache_control"

  predicate CallerKept(block: Members, f: Fields, g: Fields) {
    if g.callerHide && g.callerDropIfEmpty then
      if f.callerHide then
        f.callerDropIfEmpty || Get(block, DROP).None? || (Get(block, HIDE).Some? && ComesBack(block, DROP))
      else if f.callerDropIfEmpty then Get(block, DROP).Some? && ComesBack(block, HIDE)
      else if Get(block, DROP).Some? then
        Get(block, HIDE).Some? && ComesBack(block, DROP) && ComesBack(Remove(block, DROP), HIDE)
      else ComesBack(block, HIDE)
    else
      && FlagKept(Remove(block, DROP), HIDE, f.callerHide, g.callerHide)
      && FlagKept(Remove(block, HIDE), DROP, f.callerDropIfEmpty, g.callerDropIfEmpty)
  }

  /** When a slot's block ends in the same order whether the fields are written as `f` and then as
      `g`, or as `g` at once. */
  predicate OrderKept(slot: Slot, block: Members, f: Fields, g: Fields) {
    match slot
    case Caller => CallerKept(block, f, g)
    case Agent => !g.agentHide || f.agentHide || (Get(block, CACHE).Some? && ComesBack(block, HIDE))
    case _ => FlagKept(block, HIDE, HideFor(slot, f), HideFor(slot, g))
  }

  lemma WithText(block: Members, v: Value, key: string)
    requires key != "text"
    ensures Get(Put(block, "text", v), key) == Get(block, key)
    ensures Last(Put(block, "text", v), key) <==> Get(block, "text").Some? && Last(block, key)
    ensures Returns(Put(block, "text", v), key) <==> ComesBack(block, key)
  {
    GetPut(block, "text", v, key);
    PutLast(block, "text", v, key);
  }

  lemma WithTextWithout(block: Members, v: Value, key: string, other: string)
    requires key != "text" && other != "text"
    ensures Returns(Remove(Put(block, "text", v), other), key) <==> ComesBack(Remove(block, other), key)
  {
    RemovePutOther(block, "text", v, other);
    WithText(Remove(block, other), v, key);
  }

  lemma FlagAfterText(block: Members, first: Value, second: Value, flag: string, on: bool)
    requires flag != "text"
    ensures Put(WithFlag(Put(block, "text", first), flag, on), "text", second) == WithFlag(Put(block, "text", second), flag, on)
  {
    GetPut(block, "text", first, "text");
    FlagThrough(Put(block, "text", first), flag, on, "text", second);
    PutAgain(block, "text", first, second);
  }

  lemma PlainOrder(slot: Slot, block: Members, f: Fields, g: Fields, h: Fields)
    requires slot.Billing? || slot.Identity?
    requires DistinctNames(block) && Alike(g, h)
    ensures Patched(slot, Patched(slot, block, f), g) == Patched(slot, block, h) <==> OrderKept(slot, block, f, h)
  {
    var text := Str(TextFor(slot, h));
    FlagAfterText(block, Str(TextFor(slot, f)), text, HIDE, HideFor(slot, f));
    DistinctPut(block, "text", text);
    FlagTwice(Put(block, "text", text), HIDE, HideFor(slot, f), HideFor(slot, h));
    WithText(block, text, HIDE);
  }

  lemma CallerOrder(block: Members, f: Fields, g: Fields, h: Fields)
    requires DistinctNames(block) && Alike(g, h)
    ensures Patched(Caller, Patched(Caller, block, f), g) == Patched(Caller, block, h) <==> CallerKept(block, f, h)
  {
    var before, text := Str(f.callerText), Str(h.callerText);
    var one := WithFlag(Put(block, "text", before), HIDE, f.callerHide);
    GetPut(block, "text", before, "text");
    GetFlag(Put(block, "text", before), HIDE, f.callerHide, "text");
    FlagThrough(one, DROP, f.callerDropIfEmpty, "text", text);
    FlagAfterText(block, before, text, HIDE, f.callerHide);
    var y := Put(block, "text", text);
    DistinctPut(block, "text", text);
    FlagsTwice(y, HIDE, DROP, f.callerHide, f.callerDropIfEmpty, h.callerHide, h.callerDropIfEmpty);
    WithText(block, text, HIDE);
    WithText(block, text, DROP);
    WithTextWithout(block, text, HIDE, DROP);
    WithTextWithout(block, text, DROP, HIDE);
  }

  lemma AgentTwice(block: Members, f: Fields, g: Fields, h: Fields)
    requires !Blank(f.agentCacheTtl) && !Blank(g.agentCacheTtl) && Alike(g, h)
    ensures var y, cache := Put(block, "text", Str(h.agentText)), NewCache(Get(block, CACHE), h.agentCacheTtl).value;
            && Patched(Agent, Patched(Agent, block, f), g)
               == WithFlag(Put(WithFlag(y, HIDE, f.agentHide), CACHE, cache), HIDE, h.agentHide)
            && Patched(Agent, block, h) == Put(WithFlag(y, HIDE, h.agentHide), CACHE, cache)
  {
    var before, text := Str(f.agentText), Str(h.agentText);
    var z := Put(block, "text", before);
    var flagged := WithFlag(z, HIDE, f.agentHide);
    GetPut(block, "text", before, "text");
    GetPut(block, "text", before, CACHE);
    GetPut(block, "text", text, CACHE);
    GetFlag(z, HIDE, f.agentHide, "text");
    GetFlag(z, HIDE, f.agentHide, CACHE);
    var c1 := NewCache(Get(block, CACHE), f.agentCacheTtl).value;
    var c2 := NewCache(Get(block, CACHE), h.agentCacheTtl).value;
    assert Patched(Agent, block, f) == Put(flagged, CACHE, c1);
    PutsCommute(flagged, CACHE, c1, "text", text);
    FlagAfterText(block, before, text, HIDE, f.agentHide);
    var y := Put(block, "text", text);
    var written := Put(WithFlag(y, HIDE, f.agentHide), CACHE, c1);
    assert Put(Patched(Agent, block, f), "text", text) == written;
    CacheAgain(Get(block, CACHE), f.agentCacheTtl, g.agentCacheTtl);
    AgentLater(WithFlag(y, HIDE, f.agentHide), c1, c2, h.agentHide, g.agentCacheTtl);
    GetFlag(y, HIDE, h.agentHide, CACHE);
  }

  /** The second write of the agent's block, behind the text. */
  lemma AgentLater(members: Members, c1: Value, c2: Value, on: bool, ttl: string)
    requires NewCache(Some(c1), ttl) == Some(c2)
    ensures WithCache(WithFlag(Put(members, CACHE, c1), HIDE, on), ttl) == WithFlag(Put(members, CACHE, c2), HIDE, on)
  {
    var written := Put(members, CACHE, c1);
    GetPut(members, CACHE, c1, CACHE);
    GetFlag(written, HIDE, on, CACHE);
    FlagThrough(written, HIDE, on, CACHE, c2);
    PutAgain(members, CACHE, c1, c2);
  }

  lemma AgentOrder(block: Members, f: Fields, g: Fields, h: Fields)
    requires DistinctNames(block) && !Blank(f.agentCacheTtl) && !Blank(g.agentCacheTtl) && Alike(g, h)
    ensures Patched(Agent, Patched(Agent, block, f), g) == Patched(Agent, block, h) <==> OrderKept(Agent, block, f, h)
  {
    var text, cache := Str(h.agentText), NewCache(Get(block, CACHE), h.agentCacheTtl).value;
    AgentTwice(block, f, g, h);
    DistinctPut(block, "text", text);
    FlagAround(Put(block, "text", text), HIDE, f.agentHide, h.agentHide, CACHE, cache);
    WithText(block, text, HIDE);
    WithText(block, text, CACHE);
  }

  lemma SlotOrder(slot: Slot, block: Members, f: Fields, g: Fields, h: Fields)
    requires DistinctNames(block) && !Blank(f.agentCacheTtl) && !Blank(g.agentCacheTtl) && Alike(g, h)
    ensures Patched(slot, Patched(slot, block, f), g) == Patched(slot, block, h) <==> OrderKept(slot, block, f, h)
  {
    match slot
    case Agent => AgentOrder(block, f, g, h);
    case Caller => CallerOrder(block, f, g, h);
    case _ => PlainOrder(slot, block, f, g, h);
  }

  // ----- whole templates -----

  ghost predicate DistinctSlots(blocks: seq<Members>)
    requires AllPresent(blocks)
  {
    forall slot: Slot :: SlotAt(blocks, slot) < |blocks| && DistinctNames(blocks[SlotAt(blocks, slot)])
  }

  lemma RewrittenOrder(blocks: seq<Members>, once: seq<Members>, twice: seq<Members>, direct: seq<Members>,
                       f: Fields, g: Fields, h: Fields)
    requires AllPresent(blocks) && DistinctSlots(blocks)
    requires Rewrites(blocks, once, f) && Rewrites(once, twice, g) && Rewrites(blocks, direct, h)
    requires !Blank(f.agentCacheTtl) && !Blank(g.agentCacheTtl) && Alike(g, h)
    ensures twice == direct <==> forall slot: Slot :: OrderKept(slot, blocks[SlotAt(blocks, slot)], f, h)
  {
    forall slot: Slot
      ensures twice[SlotAt(blocks, slot)] == direct[SlotAt(blocks, slot)] <==> OrderKept(slot, blocks[SlotAt(blocks, slot)], f, h)
    {
      assert SlotAt(once, slot) == SlotAt(blocks, slot);
      SlotOrder(slot, blocks[SlotAt(blocks, slot)], f, g, h);
    }
    if forall slot: Slot :: OrderKept(slot, blocks[SlotAt(blocks, slot)], f, h) {
      forall i | 0 <= i < |blocks| ensures twice[i] == direct[i] {
        if forall slot: Slot :: SlotAt(blocks, slot) != i {
          assert forall slot: Slot :: SlotAt(once, slot) == SlotAt(blocks, slot);
        }
      }
    }
  }

  /** Applying one patch and then another gives the blocks of applying them as one, key by key in
      the same order, if and only if no slot's keys change places. */
  lemma PatchesComposeExactly(blocks: seq<Members>, p: Patch, q: Patch, zero: Builtin)
    requires AllPresent(blocks) && DistinctSlots(blocks)
    requires !Blank(Asked(blocks, p, zero).agentCacheTtl) && !Blank(Asked(blocks, Then(p, q), zero).agentCacheTtl)
    ensures Applied(Applied(blocks, p, zero), q, zero) == Applied(blocks, Then(p, q), zero)
       <==> forall slot: Slot ::
              OrderKept(slot, blocks[SlotAt(blocks, slot)], Asked(blocks, p, zero), Asked(blocks, Then(p, q), zero))
  {
    var once := Applied(blocks, p, zero);
    var f, g, h := Asked(blocks, p, zero), Asked(once, q, zero), Asked(blocks, Then(p, q), zero);
    AppliedInPlace(blocks, p, zero);
    ReadRewritten(blocks, once, f, zero);
    AskedTwice(ZeroFieldsFromBlocks(blocks, zero), p, q);
    AppliedInPlace(once, q, zero);
    AppliedInPlace(blocks, Then(p, q), zero);
    RewrittenOrder(blocks, once, Applied(once, q, zero), Applied(blocks, Then(p, q), zero), f, g, h);
  }

  // ----- a template whose keys change places -----

  function Tagged(slot: Slot): Members { [Member("id", Str(SlotId(slot)))] }

  /** The first block has its flag before its text. */
  const FLAG_FIRST: seq<Members> :=
    [Tagged(Billing) + [Member(HIDE, Bool(true)), Member("text", Str("x"))], Tagged(Identity), Tagged(Agent), Tagged(Caller)]

  const UNHIDE := NO_CHANGE.(billingHide := Some(false))
  const REHIDE := NO_CHANGE.(billingHide := Some(true))

  lemma FlagFirstPresent()
    ensures AllPresent(FLAG_FIRST) && DistinctSlots(FLAG_FIRST) && SlotAt(FLAG_FIRST, Billing) == 0
  {
    forall slot: Slot ensures SlotAt(FLAG_FIRST, slot) < |FLAG_FIRST| {
      assert Get(FLAG_FIRST[Place(slot)], "id") == Some(Str(SlotId(slot)));
      IndexAtMost(FLAG_FIRST, SlotId(slot), Place(slot));
    }
    assert Get(FLAG_FIRST[0], "id") == Some(Str(SlotId(Billing)));
    IndexAtMost(FLAG_FIRST, SlotId(Billing), 0);
    forall slot: Slot ensures DistinctNames(FLAG_FIRST[SlotAt(FLAG_FIRST, slot)]) {
      assert forall i | 0 <= i < 4 :: DistinctNames(FLAG_FIRST[i]);
    }
  }

  lemma FlagFirstAsked(zero: Builtin)
    ensures var f, h := Asked(FLAG_FIRST, UNHIDE, zero), Asked(FLAG_FIRST, Then(UNHIDE, REHIDE), zero);
            && !f.billingHide && h.billingHide && f.agentCacheTtl == "5m" && h.agentCacheTtl == "5m" && !Blank("5m")
  {
    FlagFirstPresent();
    ReadPresent(FLAG_FIRST, zero);
    var agent := FLAG_FIRST[SlotAt(FLAG_FIRST, Agent)];
    forall i | 0 <= i < 4 ensures Get(FLAG_FIRST[i], CACHE).None? {
      assert !HasName(FLAG_FIRST[i], CACHE);
      if Get(FLAG_FIRST[i], CACHE).Some? {
        GetHas(FLAG_FIRST[i], CACHE);
      }
    }
    assert CacheTtl(agent) == "5m";
    TrimKeepsTrimmed("5m", JsSpace);
  }

  /** Here, turning the flag off and then on moves it behind the text; turning it on at once does not. */
  lemma KeysChangePlaces(zero: Builtin)
    ensures Applied(Applied(FLAG_FIRST, UNHIDE, zero), REHIDE, zero) != Applied(FLAG_FIRST, Then(UNHIDE, REHIDE), zero)
  {
    FlagFirstPresent();
    FlagFirstAsked(zero);
    PatchesComposeExactly(FLAG_FIRST, UNHIDE, REHIDE, zero);
    var f, h := Asked(FLAG_FIRST, UNHIDE, zero), Asked(FLAG_FIRST, Then(UNHIDE, REHIDE), zero);
    var block := FLAG_FIRST[SlotAt(FLAG_FIRST, Billing)];
    assert Get(block, HIDE) == Some(Bool(true)) && !Last(block, HIDE);
    assert !OrderKept(Billing, block, f, h);
  }
}
