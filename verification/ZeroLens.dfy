/** The zero-template form is a lens: what reading after writing gives, how patches compose, and
    what writing leaves alone (web/src/lib/persona-zero-fields.ts). */
module ZeroLens {
  import opened Wrappers
  import opened Text
  import opened Json
  import opened Templates
  import opened ZeroFields

  // ----- members -----

  lemma {:induction false} GetPut(members: Members, name: string, v: Value, key: string)
    ensures Get(Put(members, name, v), key) == if key == name then Some(v) else Get(members, key)
  {
    if members != [] && members[0].name != name {
      GetPut(members[1..], name, v, key);
    }
  }

  lemma {:induction false} GetRemove(members: Members, name: string, key: string)
    ensures Get(Remove(members, name), key) == if key == name then None else Get(members, key)
  {
    if members != [] {
      GetRemove(members[1..], name, key);
    }
  }

  lemma {:induction false} PutSame(members: Members, name: string, v: Value)
    requires Get(members, name) == Some(v)
    ensures Put(members, name, v) == members
  {
    if members[0].name != name {
      PutSame(members[1..], name, v);
    }
  }

  lemma {:induction false} PutAgain(members: Members, name: string, v: Value, w: Value)
    ensures Put(Put(members, name, v), name, w) == Put(members, name, w)
  {
    if members != [] && members[0].name != name {
      PutAgain(members[1..], name, v, w);
    }
  }

  lemma {:induction false} RemoveAbsent(members: Members, name: string)
    requires Get(members, name).None?
    ensures Remove(members, name) == members
  {
    if members != [] {
      RemoveAbsent(members[1..], name);
    }
  }

  // ----- one slot's block -----

  predicate Owned(slot: Slot, key: string) {
    key == "text" || key == "hide" || (slot == Agent && key == "cache_control") || (slot == Caller && key == "drop_if_empty")
  }

  function Flag(on: bool): Option<Value> { if on then Some(Bool(true)) else None }

  /** What a key of a slot's block holds after writing. */
  function Expected(slot: Slot, block: Members, f: Fields, key: string): Option<Value> {
    if key == "text" then Some(Str(TextFor(slot, f)))
    else if key == "hide" then Flag(HideFor(slot, f))
    else if slot == Agent && key == "cache_control" then NewCache(Get(block, key), f.agentCacheTtl)
    else if slot == Caller && key == "drop_if_empty" then Flag(f.callerDropIfEmpty)
    else Get(block, key)
  }

  lemma GetFlag(block: Members, flag: string, on: bool, key: string)
    ensures Get(WithFlag(block, flag, on), key) == if key == flag then Flag(on) else Get(block, key)
  {
    GetPut(block, flag, Bool(true), key);
    GetRemove(block, flag, key);
  }

  lemma GetCache(block: Members, ttl: string, key: string)
    ensures Get(WithCache(block, ttl), key)
         == if key == "cache_control" then NewCache(Get(block, key), ttl) else Get(block, key)
  {
    var cache := NewCache(Get(block, "cache_control"), ttl);
    if cache.Some? {
      GetPut(block, "cache_control", cache.value, key);
    } else {
      GetRemove(block, "cache_control", key);
    }
  }

  lemma GetPatched(slot: Slot, block: Members, f: Fields, key: string)
    ensures Get(Patched(slot, block, f), key) == Expected(slot, block, f, key)
  {
    var one := Put(block, "text", Str(TextFor(slot, f)));
    var two := WithFlag(one, "hide", HideFor(slot, f));
    GetPut(block, "text", Str(TextFor(slot, f)), key);
    GetFlag(one, "hide", HideFor(slot, f), key);
    match slot
    case Agent => GetCache(two, f.agentCacheTtl, key);
    case Caller => GetFlag(two, "drop_if_empty", f.callerDropIfEmpty, key);
    case _ =>
  }

  /** Writing what is there already changes nothing, not even the order of the keys. */
  lemma PatchedStable(slot: Slot, block: Members, f: Fields)
    requires forall key | Owned(slot, key) :: Get(block, key) == Expected(slot, block, f, key)
    ensures Patched(slot, block, f) == block
  {
    assert Owned(slot, "text") && Owned(slot, "hide");
    PutSame(block, "text", Str(TextFor(slot, f)));
    FlagStable(block, "hide", HideFor(slot, f));
    match slot
    case Agent =>
      assert Owned(slot, "cache_control");
      CacheStable(block, f.agentCacheTtl);
    case Caller =>
      assert Owned(slot, "drop_if_empty");
      FlagStable(block, "drop_if_empty", f.callerDropIfEmpty);
    case _ =>
  }

  lemma FlagStable(block: Members, flag: string, on: bool)
    requires Get(block, flag) == Flag(on)
    ensures WithFlag(block, flag, on) == block
  {
    if on {
      PutSame(block, flag, Bool(true));
    } else {
      RemoveAbsent(block, flag);
    }
  }

  lemma CacheStable(block: Members, ttl: string)
    requires Get(block, "cache_control") == NewCache(Get(block, "cache_control"), ttl)
    ensures WithCache(block, ttl) == block
  {
    var cache := Get(block, "cache_control");
    if cache.Some? {
      PutSame(block, "cache_control", cache.value);
    } else {
      RemoveAbsent(block, "cache_control");
    }
  }

  // ----- the cache setting -----

  /** The TTL that reading finds after writing one. */
  function Settled(ttl: string): string { if Blank(ttl) then "5m" else Trim(ttl, JsSpace) }

  lemma TtlReadsBack(cache: Option<Value>, ttl: string)
    ensures TtlIn(NewCache(cache, ttl)) == if Blank(ttl) then "" else Trim(ttl, JsSpace)
  {
    var members := CacheMembers(cache);
    GetPut(Typed(members), "ttl", Str(Trim(ttl, JsSpace)), "ttl");
    GetRemove(members, "ttl", "ttl");
  }

  lemma TypedNow(members: Members)
    ensures !Missing(Get(Typed(members), "type"))
  {
    GetPut(members, "type", Str("ephemeral"), "type");
  }

  /** The last of two nonblank TTLs counts, and blanks around it do not matter. */
  lemma CacheAgain(cache: Option<Value>, ttl: string, later: string)
    requires !Blank(ttl) && !Blank(later)
    ensures NewCache(NewCache(cache, ttl), later) == NewCache(cache, later)
  {
    var typed := Typed(CacheMembers(cache));
    var once := Put(typed, "ttl", Str(Trim(ttl, JsSpace)));
    TypedNow(CacheMembers(cache));
    GetPut(typed, "ttl", Str(Trim(ttl, JsSpace)), "type");
    PutAgain(typed, "ttl", Str(Trim(ttl, JsSpace)), Str(Trim(later, JsSpace)));
  }

  lemma CacheOfTrimmed(cache: Option<Value>, ttl: string)
    ensures Blank(Trim(ttl, JsSpace)) == Blank(ttl)
    ensures NewCache(cache, Trim(ttl, JsSpace)) == NewCache(cache, ttl)
  {
    TrimTrims(ttl, JsSpace);
  }

  // ----- the places of the slots -----

  /** Every slot's id is on some block. */
  ghost predicate AllPresent(blocks: seq<Members>) { forall slot: Slot :: SlotAt(blocks, slot) < |blocks| }

  function SlotAt(blocks: seq<Members>, slot: Slot): nat { IndexOf(blocks, SlotId(slot)) }

  ghost predicate SameIds(a: seq<Members>, b: seq<Members>) {
    |a| == |b| && forall i | 0 <= i < |a| :: Get(a[i], "id") == Get(b[i], "id")
  }

  lemma {:induction false} IndexHits(blocks: seq<Members>, id: string)
    requires IndexOf(blocks, id) < |blocks|
    ensures Get(blocks[IndexOf(blocks, id)], "id") == Some(Str(id))
  {
    if Get(blocks[0], "id") != Some(Str(id)) {
      IndexHits(blocks[1..], id);
    }
  }

  lemma {:induction false} IndexSame(a: seq<Members>, b: seq<Members>, id: string)
    requires SameIds(a, b)
    ensures IndexOf(a, id) == IndexOf(b, id)
  {
    if a != [] {
      assert SameIds(a[1..], b[1..]);
      IndexSame(a[1..], b[1..], id);
    }
  }

  lemma {:induction false} IndexAtMost(blocks: seq<Members>, id: string, i: nat)
    requires i < |blocks| && Get(blocks[i], "id") == Some(Str(id))
    ensures IndexOf(blocks, id) <= i
  {
    if i > 0 {
      IndexAtMost(blocks[1..], id, i - 1);
    }
  }

  /** A slot is found at an index exactly when that block is the first to carry its id. */
  lemma FoundExactly(blocks: seq<Members>, slot: Slot, i: nat)
    requires i < |blocks|
    ensures SlotAt(blocks, slot) == i <==>
              && Get(blocks[i], "id") == Some(Str(SlotId(slot)))
              && forall j | 0 <= j < i :: Get(blocks[j], "id") != Some(Str(SlotId(slot)))
  {
    var id := SlotId(slot);
    if SlotAt(blocks, slot) < |blocks| {
      IndexHits(blocks, id);
    }
    forall j | 0 <= j < |blocks| && Get(blocks[j], "id") == Some(Str(id)) ensures SlotAt(blocks, slot) <= j {
      IndexAtMost(blocks, id, j);
    }
  }

  lemma SlotsApart(blocks: seq<Members>, slot: Slot, other: Slot)
    requires AllPresent(blocks) && slot != other
    ensures SlotAt(blocks, slot) != SlotAt(blocks, other)
  {
    assert SlotAt(blocks, slot) < |blocks| && SlotAt(blocks, other) < |blocks|;
    IndexHits(blocks, SlotId(slot));
    IndexHits(blocks, SlotId(other));
    assert SlotId(slot) != SlotId(other) by { IdsDiffer(slot, other); }
  }

  lemma IdsDiffer(slot: Slot, other: Slot)
    requires slot != other
    ensures SlotId(slot) != SlotId(other)
  {
    assert SlotId(Billing)[0] == 'b' && SlotId(Identity)[0] == 'i' && SlotId(Agent)[0] == 'a' && SlotId(Caller)[0] == 'c';
  }

  /** With its id present, a slot's block is written where it stands and its id stays. */
  lemma StepInPlace(blocks: seq<Members>, slot: Slot, f: Fields, zero: Builtin)
    requires AllPresent(blocks)
    ensures Step(blocks, slot, f, zero) == blocks[SlotAt(blocks, slot) := Patched(slot, blocks[SlotAt(blocks, slot)], f)]
    ensures SameIds(blocks, Step(blocks, slot, f, zero)) && AllPresent(Step(blocks, slot, f, zero))
    ensures forall other: Slot :: SlotAt(Step(blocks, slot, f, zero), other) == SlotAt(blocks, other)
  {
    assert SlotAt(blocks, slot) < |blocks|;
    GetPatched(slot, blocks[SlotAt(blocks, slot)], f, "id");
    var after := Step(blocks, slot, f, zero);
    forall other: Slot ensures SlotAt(after, other) == SlotAt(blocks, other) && SlotAt(blocks, other) < |blocks| {
      IndexSame(blocks, after, SlotId(other));
    }
  }

  /** The result at each index, as a value: a slot's block is patched, any other is as it was. */
  ghost predicate Rewritten(before: seq<Members>, after: seq<Members>, f: Fields, done: set<Slot>) {
    && |after| == |before| && AllPresent(after)
    && (forall slot: Slot :: SlotAt(after, slot) == SlotAt(before, slot) && SlotAt(before, slot) < |before|)
    && (forall slot: Slot :: after[SlotAt(before, slot)]
          == if slot in done then Patched(slot, before[SlotAt(before, slot)], f) else before[SlotAt(before, slot)])
    && (forall i | 0 <= i < |before| && (forall slot: Slot :: SlotAt(before, slot) != i) :: after[i] == before[i])
  }

  lemma RewriteOne(before: seq<Members>, mid: seq<Members>, f: Fields, done: set<Slot>, slot: Slot, zero: Builtin)
    requires AllPresent(before) && Rewritten(before, mid, f, done) && slot !in done
    ensures Rewritten(before, Step(mid, slot, f, zero), f, done + {slot})
  {
    StepInPlace(mid, slot, f, zero);
    var after := Step(mid, slot, f, zero);
    forall other: Slot
      ensures after[SlotAt(before, other)]
           == if other in done + {slot} then Patched(other, before[SlotAt(before, other)], f) else before[SlotAt(before, other)]
    {
      if other != slot {
        SlotsApart(before, slot, other);
      }
    }
  }

  lemma RewriteTwo(before: seq<Members>, mid: seq<Members>, f: Fields, done: set<Slot>, one: Slot, two: Slot, zero: Builtin)
    requires AllPresent(before) && Rewritten(before, mid, f, done) && one !in done && two !in done && one != two
    ensures Rewritten(before, Step(Step(mid, one, f, zero), two, f, zero), f, done + {one} + {two})
  {
    RewriteOne(before, mid, f, done, one, zero);
    RewriteOne(before, Step(mid, one, f, zero), f, done + {one}, two, zero);
  }

  lemma RewriteNone(blocks: seq<Members>, f: Fields)
    requires AllPresent(blocks)
    ensures Rewritten(blocks, blocks, f, {})
  {
  }

  lemma RewriteFour(blocks: seq<Members>, half: seq<Members>, after: seq<Members>, f: Fields, zero: Builtin, none: set<Slot>)
    requires AllPresent(blocks) && none == {}
    requires half == Step(Step(blocks, Billing, f, zero), Identity, f, zero)
    requires after == Step(Step(half, Agent, f, zero), Caller, f, zero)
    ensures Rewritten(blocks, after, f, none + {Billing} + {Identity} + {Agent} + {Caller})
  {
    RewriteNone(blocks, f);
    RewriteTwo(blocks, blocks, f, none, Billing, Identity, zero);
    RewriteTwo(blocks, half, f, none + {Billing} + {Identity}, Agent, Caller, zero);
  }

  /** Slots' blocks are patched and nothing else is changed. */
  ghost predicate Rewrites(before: seq<Members>, after: seq<Members>, f: Fields) {
    && |after| == |before| && AllPresent(after)
    && (forall slot: Slot :: SlotAt(after, slot) == SlotAt(before, slot) && SlotAt(before, slot) < |before|)
    && (forall slot: Slot :: after[SlotAt(before, slot)] == Patched(slot, before[SlotAt(before, slot)], f))
    && (forall i | 0 <= i < |before| && (forall slot: Slot :: SlotAt(before, slot) != i) :: after[i] == before[i])
  }

  lemma AllRewritten(before: seq<Members>, after: seq<Members>, f: Fields, done: set<Slot>)
    requires Rewritten(before, after, f, done) && forall slot: Slot :: slot in done
    ensures Rewrites(before, after, f)
  {
  }

  lemma AllDone(none: set<Slot>)
    ensures forall slot: Slot :: slot in none + {Billing} + {Identity} + {Agent} + {Caller}
  {
    forall slot: Slot ensures slot in none + {Billing} + {Identity} + {Agent} + {Caller} {
      match slot case Billing => case Identity => case Agent => case Caller =>
    }
  }

  /** With all ids present, writing changes the four slots' blocks and nothing else. */
  lemma WrittenInPlace(blocks: seq<Members>, after: seq<Members>, f: Fields, zero: Builtin)
    requires AllPresent(blocks) && after == Written(blocks, f, zero)
    ensures Rewrites(blocks, after, f)
  {
    var half := Step(Step(blocks, Billing, f, zero), Identity, f, zero);
    RewriteFour(blocks, half, after, f, zero, {});
    AllDone({});
    AllRewritten(blocks, after, f, {} + {Billing} + {Identity} + {Agent} + {Caller});
  }

  // ----- the laws -----

  /** The fields that a patch asks for. */
  function Asked(blocks: seq<Members>, p: Patch, zero: Builtin): Fields {
    Override(ZeroFieldsFromBlocks(blocks, zero), p)
  }

  lemma AppliedInPlace(blocks: seq<Members>, p: Patch, zero: Builtin)
    requires AllPresent(blocks)
    ensures Rewrites(blocks, Applied(blocks, p, zero), Asked(blocks, p, zero))
  {
    assert SlotAt(blocks, Billing) < |blocks|;
    WrittenInPlace(blocks, Applied(blocks, p, zero), Asked(blocks, p, zero), zero);
  }

  lemma ReadPresent(blocks: seq<Members>, zero: Builtin)
    requires AllPresent(blocks)
    ensures forall slot: Slot :: SlotBlock(blocks, slot, zero) == blocks[SlotAt(blocks, slot)]
  {
    assert forall slot: Slot :: SlotAt(blocks, slot) < |blocks|;
  }

  lemma PatchedReads(slot: Slot, block: Members, f: Fields)
    ensures var after := Patched(slot, block, f);
            && TextIn(after) == TextFor(slot, f) && On(after, "hide") == HideFor(slot, f)
            && (slot == Agent ==> CacheTtl(after) == Settled(f.agentCacheTtl))
            && (slot == Caller ==> On(after, "drop_if_empty") == f.callerDropIfEmpty)
  {
    GetPatched(slot, block, f, "text");
    GetPatched(slot, block, f, "hide");
    GetPatched(slot, block, f, "cache_control");
    GetPatched(slot, block, f, "drop_if_empty");
    TtlReadsBack(Get(block, "cache_control"), f.agentCacheTtl);
  }

  lemma ReadRewritten(blocks: seq<Members>, after: seq<Members>, f: Fields, zero: Builtin)
    requires AllPresent(blocks) && Rewrites(blocks, after, f)
    ensures ZeroFieldsFromBlocks(after, zero) == f.(agentCacheTtl := Settled(f.agentCacheTtl))
  {
    ReadPresent(after, zero);
    forall slot: Slot ensures SlotBlock(after, slot, zero) == Patched(slot, blocks[SlotAt(blocks, slot)], f) {
      assert SlotAt(after, slot) == SlotAt(blocks, slot);
    }
    PatchedReads(Billing, blocks[SlotAt(blocks, Billing)], f);
    PatchedReads(Identity, blocks[SlotAt(blocks, Identity)], f);
    PatchedReads(Agent, blocks[SlotAt(blocks, Agent)], f);
    PatchedReads(Caller, blocks[SlotAt(blocks, Caller)], f);
  }

  /** Reading after applying a patch gives the old fields overridden by the patch, if and only if
      the TTL that results is nonblank and trimmed; otherwise it gives them with the TTL settled. */
  lemma ReadAfterApply(blocks: seq<Members>, p: Patch, zero: Builtin)
    requires AllPresent(blocks)
    ensures var f, after := Asked(blocks, p, zero), ZeroFieldsFromBlocks(Applied(blocks, p, zero), zero);
            && after == f.(agentCacheTtl := Settled(f.agentCacheTtl))
            && (after == f <==> !Blank(f.agentCacheTtl) && Trimmed(f.agentCacheTtl, JsSpace))
  {
    var f := Asked(blocks, p, zero);
    AppliedInPlace(blocks, p, zero);
    ReadRewritten(blocks, Applied(blocks, p, zero), f, zero);
    SettledWhen(f.agentCacheTtl);
  }

  lemma SettledWhen(ttl: string)
    ensures Settled(ttl) == ttl <==> !Blank(ttl) && Trimmed(ttl, JsSpace)
  {
    TrimTrims(ttl, JsSpace);
    if Trimmed(ttl, JsSpace) {
      TrimKeepsTrimmed(ttl, JsSpace);
    }
    if Blank(ttl) && ttl == "5m" {
      TrimKeepsTrimmed(ttl, JsSpace);
    }
  }

  /** The same keys with the same values, in any order. */
  ghost predicate SameKeys(a: Members, b: Members) { forall key :: Get(a, key) == Get(b, key) }

  /** Two sets of fields that write the same. */
  predicate Alike(f: Fields, g: Fields) {
    f == g.(agentCacheTtl := f.agentCacheTtl) && Trim(f.agentCacheTtl, JsSpace) == Trim(g.agentCacheTtl, JsSpace)
  }

  lemma PatchedTwice(slot: Slot, block: Members, f: Fields, g: Fields, h: Fields)
    requires !Blank(f.agentCacheTtl) && !Blank(g.agentCacheTtl) && Alike(g, h)
    ensures SameKeys(Patched(slot, Patched(slot, block, f), g), Patched(slot, block, h))
  {
    var once := Patched(slot, block, f);
    forall key ensures Get(Patched(slot, once, g), key) == Get(Patched(slot, block, h), key) {
      GetPatched(slot, block, f, key);
      GetPatched(slot, once, g, key);
      GetPatched(slot, block, h, key);
      if slot == Agent && key == "cache_control" {
        CacheAgain(Get(block, key), f.agentCacheTtl, g.agentCacheTtl);
      }
    }
  }

  lemma RewrittenTwice(blocks: seq<Members>, once: seq<Members>, twice: seq<Members>, direct: seq<Members>,
                       f: Fields, g: Fields, h: Fields, i: nat)
    requires AllPresent(blocks) && Rewrites(blocks, once, f) && Rewrites(once, twice, g) && Rewrites(blocks, direct, h)
    requires !Blank(f.agentCacheTtl) && !Blank(g.agentCacheTtl) && Alike(g, h) && i < |blocks|
    ensures SameKeys(twice[i], direct[i])
  {
    if exists slot: Slot :: SlotAt(blocks, slot) == i {
      var slot: Slot :| SlotAt(blocks, slot) == i;
      assert SlotAt(once, slot) == i;
      PatchedTwice(slot, blocks[i], f, g, h);
    } else {
      assert forall slot: Slot :: SlotAt(once, slot) == SlotAt(blocks, slot);
    }
  }

  /** Applying one patch and then another is applying them as one, up to the order of keys. */
  lemma PatchesCompose(blocks: seq<Members>, p: Patch, q: Patch, zero: Builtin, i: nat)
    requires AllPresent(blocks)
    requires !Blank(Asked(blocks, p, zero).agentCacheTtl) && !Blank(Asked(blocks, Then(p, q), zero).agentCacheTtl)
    ensures var twice, direct := Applied(Applied(blocks, p, zero), q, zero), Applied(blocks, Then(p, q), zero);
            |twice| == |direct| == |blocks| && (i < |blocks| ==> SameKeys(twice[i], direct[i]))
  {
    var once := Applied(blocks, p, zero);
    var f, g, h := Asked(blocks, p, zero), Asked(once, q, zero), Asked(blocks, Then(p, q), zero);
    AppliedInPlace(blocks, p, zero);
    ReadRewritten(blocks, once, f, zero);
    AskedTwice(ZeroFieldsFromBlocks(blocks, zero), p, q);
    AppliedInPlace(once, q, zero);
    AppliedInPlace(blocks, Then(p, q), zero);
    if i < |blocks| {
      RewrittenTwice(blocks, once, Applied(once, q, zero), Applied(blocks, Then(p, q), zero), f, g, h, i);
    }
  }

  lemma AskedTwice(old_: Fields, p: Patch, q: Patch)
    requires !Blank(Override(old_, p).agentCacheTtl) && !Blank(Override(old_, Then(p, q)).agentCacheTtl)
    ensures var f := Override(old_, p); var g := Override(f.(agentCacheTtl := Settled(f.agentCacheTtl)), q);
            Alike(g, Override(old_, Then(p, q))) && !Blank(g.agentCacheTtl)
  {
    TrimTrims(Override(old_, p).agentCacheTtl, JsSpace);
  }

  lemma PatchedAgainSame(slot: Slot, block: Members, f: Fields)
    requires !Blank(f.agentCacheTtl)
    ensures var g := f.(agentCacheTtl := Settled(f.agentCacheTtl));
            Patched(slot, Patched(slot, block, f), g) == Patched(slot, block, f)
  {
    var g := f.(agentCacheTtl := Settled(f.agentCacheTtl));
    var once := Patched(slot, block, f);
    forall key | Owned(slot, key) ensures Get(once, key) == Expected(slot, once, g, key) {
      GetPatched(slot, block, f, key);
      if slot == Agent && key == "cache_control" {
        CacheOfTrimmed(Get(once, key), f.agentCacheTtl);
        CacheAgain(Get(block, key), f.agentCacheTtl, f.agentCacheTtl);
      }
    }
    PatchedStable(slot, once, g);
  }

  lemma RewrittenAgain(blocks: seq<Members>, once: seq<Members>, twice: seq<Members>, f: Fields)
    requires AllPresent(blocks) && Rewrites(blocks, once, f) && !Blank(f.agentCacheTtl)
    requires Rewrites(once, twice, f.(agentCacheTtl := Settled(f.agentCacheTtl)))
    ensures twice == once
  {
    forall i | 0 <= i < |once| ensures twice[i] == once[i] {
      if exists slot: Slot :: SlotAt(once, slot) == i {
        var slot: Slot :| SlotAt(once, slot) == i;
        assert SlotAt(blocks, slot) == i;
        PatchedAgainSame(slot, blocks[i], f);
      }
    }
  }

  /** Once a patch has been applied, applying the empty patch changes nothing at all; so applying
      the empty patch is idempotent. */
  lemma EmptyPatchSettles(blocks: seq<Members>, p: Patch, zero: Builtin)
    requires AllPresent(blocks) && !Blank(Asked(blocks, p, zero).agentCacheTtl)
    ensures var once := Applied(blocks, p, zero); Applied(once, NO_CHANGE, zero) == once
  {
    var once := Applied(blocks, p, zero);
    AppliedInPlace(blocks, p, zero);
    ReadRewritten(blocks, once, Asked(blocks, p, zero), zero);
    AppliedInPlace(once, NO_CHANGE, zero);
    RewrittenAgain(blocks, once, Applied(once, NO_CHANGE, zero), Asked(blocks, p, zero));
  }

  /** Blocks keep their places, other blocks are untouched, and so are the keys the form does not own. */
  lemma RestUntouched(blocks: seq<Members>, p: Patch, zero: Builtin, i: nat, key: string)
    requires AllPresent(blocks) && i < |blocks|
    ensures var after := Applied(blocks, p, zero);
            && |after| == |blocks|
            && ((forall slot: Slot :: SlotAt(blocks, slot) != i) ==> after[i] == blocks[i])
            && ((forall slot: Slot :: SlotAt(blocks, slot) == i ==> !Owned(slot, key)) ==> Get(after[i], key) == Get(blocks[i], key))
  {
    AppliedInPlace(blocks, p, zero);
    if exists slot: Slot :: SlotAt(blocks, slot) == i {
      var slot: Slot :| SlotAt(blocks, slot) == i;
      GetPatched(slot, blocks[i], Asked(blocks, p, zero), key);
    }
  }

  // ----- the order of keys -----

  lemma {:induction false} PutAbsent(members: Members, name: string, v: Value)
    requires Get(members, name).None?
    ensures Put(members, name, v) == members + [Member(name, v)]
  {
    if members != [] {
      PutAbsent(members[1..], name, v);
    }
  }

  lemma {:induction false} GetHas(members: Members, name: string)
    requires Get(members, name).Some?
    ensures HasName(members, name)
  {
    if members[0].name != name {
      GetHas(members[1..], name);
      var i :| 0 <= i < |members[1..]| && members[1..][i].name == name;
      assert members[i + 1].name == name;
    }
  }

  lemma {:induction false} LastKey(members: Members, name: string, v: Value)
    requires members != [] && DistinctNames(members) && members[|members| - 1].name == name
    ensures var front := members[..|members| - 1];
            Remove(members, name) == front && Put(members, name, v) == front + [Member(name, v)]
  {
    if |members| > 1 {
      LastKey(members[1..], name, v);
      assert [members[0]] + members[1..][..|members| - 2] == members[..|members| - 1];
    }
  }
}
