/** The writer of the zero-template form, which changes fresh copies of the blocks in place
    (web/src/lib/persona-zero-fields.ts). */
module ZeroForm {
  import opened Wrappers
  import opened Text
  import opened Json
  import opened Templates
  import opened ZeroFields

  class RawBlock {
    var members: Members

    constructor (members: Members)
      ensures this.members == members
    {
      this.members := members;
    }

    method SetText(text: string)
      modifies this
      ensures members == Put(old(members), "text", Str(text))
    {
      members := Put(members, "text", Str(text));
    }

    method SetFlag(key: string, on: bool)
      modifies this
      ensures members == WithFlag(old(members), key, on)
    {
      if on {
        members := Put(members, key, Bool(true));
      } else {
        members := Remove(members, key);
      }
    }

    method PatchAgentCache(ttl: string)
      modifies this
      ensures members == WithCache(old(members), ttl)
    {
      var next := CacheMembers(Get(members, "cache_control"));
      var trimmed := Trim(ttl, JsSpace);
      if trimmed != [] {
        if Missing(Get(next, "type")) {
          next := Put(next, "type", Str("ephemeral"));
        }
        next := Put(next, "ttl", Str(trimmed));
        members := Put(members, "cache_control", Obj(next));
        return;
      }
      next := Remove(next, "ttl");
      if next == [] {
        members := Remove(members, "cache_control");
      } else {
        members := Put(members, "cache_control", Obj(next));
      }
    }

    method Patch(slot: Slot, f: Fields)
      modifies this
      ensures members == Patched(slot, old(members), f)
    {
      SetText(TextFor(slot, f));
      SetFlag("hide", HideFor(slot, f));
      if slot == Agent {
        PatchAgentCache(f.agentCacheTtl);
      } else if slot == Caller {
        SetFlag("drop_if_empty", f.callerDropIfEmpty);
      }
    }
  }

  ghost predicate Apart(blocks: seq<RawBlock>) {
    forall i, j | 0 <= i < j < |blocks| :: blocks[i] != blocks[j]
  }

  /** The objects hold these values. */
  ghost predicate Holds(blocks: seq<RawBlock>, values: seq<Members>)
    reads set b | b in blocks
  {
    |blocks| == |values| && forall i | 0 <= i < |blocks| :: blocks[i].members == values[i]
  }

  method Values(blocks: seq<RawBlock>) returns (values: seq<Members>)
    ensures Holds(blocks, values)
  {
    values := [];
    for i := 0 to |blocks|
      invariant |values| == i && forall j | 0 <= j < i :: blocks[j].members == values[j]
    {
      values := values + [blocks[i].members];
    }
  }

  method CopyAll(blocks: seq<Members>) returns (copies: seq<RawBlock>)
    ensures Holds(copies, blocks) && Apart(copies) && forall b | b in copies :: fresh(b)
  {
    copies := [];
    for i := 0 to |blocks|
      invariant |copies| == i && Apart(copies) && forall b | b in copies :: fresh(b)
      invariant forall j | 0 <= j < i :: copies[j].members == blocks[j]
    {
      var copy := new RawBlock(blocks[i]);
      copies := copies + [copy];
    }
  }

  /** Finds or adds the slot's block and writes the fields into it. */
  method WriteSlot(next: seq<RawBlock>, slot: Slot, f: Fields, zero: Builtin, ghost before: seq<Members>, ghost after: seq<Members>)
    returns (all: seq<RawBlock>)
    requires Apart(next) && Holds(next, before) && after == Step(before, slot, f, zero)
    modifies set b | b in next
    ensures Apart(all) && Holds(all, after)
    ensures forall b | b in all :: b in next || fresh(b)
  {
    var index := |next|;
    all := next;
    var values := Values(next);
    assert values == before;
    var found := FindSlot(values, slot);
    if found.Some? {
      index := found.value;
    } else {
      var seed := new RawBlock(zero[Place(slot)]);
      all := next + [seed];
    }
    all[index].Patch(slot, f);
  }

  /** The four slots in turn. */
  method WriteSlots(next: seq<RawBlock>, f: Fields, zero: Builtin,
                    ghost s0: seq<Members>, ghost s1: seq<Members>, ghost s2: seq<Members>,
                    ghost s3: seq<Members>, ghost s4: seq<Members>)
    returns (all: seq<RawBlock>)
    requires Apart(next) && Holds(next, s0)
    requires s1 == Step(s0, Billing, f, zero) && s2 == Step(s1, Identity, f, zero)
    requires s3 == Step(s2, Agent, f, zero) && s4 == Step(s3, Caller, f, zero)
    modifies set b | b in next
    ensures Apart(all) && Holds(all, s4)
    ensures forall b | b in all :: b in next || fresh(b)
  {
    all := WriteSlot(next, Billing, f, zero, s0, s1);
    all := WriteSlot(all, Identity, f, zero, s1, s2);
    all := WriteSlot(all, Agent, f, zero, s2, s3);
    all := WriteSlot(all, Caller, f, zero, s3, s4);
  }

  /** Applying a patch: the result holds exactly what the specification says, in new objects. */
  method ApplyZeroFields(blocks: seq<Members>, patch: ZeroFields.Patch, zero: Builtin) returns (next: seq<RawBlock>)
    ensures Apart(next) && Holds(next, Applied(blocks, patch, zero))
    ensures forall b | b in next :: fresh(b)
  {
    var f := Override(ZeroFieldsFromBlocks(blocks, zero), patch);
    var start := if blocks != [] then blocks else zero;
    next := CopyAll(start);
    ghost var s1 := Step(start, Billing, f, zero);
    ghost var s2 := Step(s1, Identity, f, zero);
    ghost var s3 := Step(s2, Agent, f, zero);
    ghost var s4 := Step(s3, Caller, f, zero);
    next := WriteSlots(next, f, zero, start, s1, s2, s3, s4);
  }
}
