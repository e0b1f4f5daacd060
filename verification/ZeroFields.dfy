/** The form over the zero-injection template: ten fields read from four blocks, and a patch of
    fields written back into them (web/src/lib/persona-zero-fields.ts). */
module ZeroFields {
  import opened Wrappers
  import opened Text
  import opened Json
  import opened Templates

  type Members = seq<Member>

  datatype Slot = Billing | Identity | Agent | Caller

  function Place(slot: Slot): nat {
    match slot case Billing => 0 case Identity => 1 case Agent => 2 case Caller => 3
  }

  function SlotId(slot: Slot): string {
    match slot
    case Billing => "billing_zero"
    case Identity => "identity_slot"
    case Agent => "agent_slot"
    case Caller => "caller_system"
  }

  /** The built-in template, one block a slot. */
  type Builtin = zero: seq<Members> | |zero| == 4 witness [[], [], [], []]

  datatype Fields = Fields(
    billingText: string, billingHide: bool, identityText: string, identityHide: bool,
    agentText: string, agentHide: bool, agentCacheTtl: string,
    callerText: string, callerHide: bool, callerDropIfEmpty: bool)

  datatype Patch = Patch(
    billingText: Option<string>, billingHide: Option<bool>, identityText: Option<string>, identityHide: Option<bool>,
    agentText: Option<string>, agentHide: Option<bool>, agentCacheTtl: Option<string>,
    callerText: Option<string>, callerHide: Option<bool>, callerDropIfEmpty: Option<bool>)

  const NO_CHANGE := Patch(None, None, None, None, None, None, None, None, None, None)

  function Or<T>(change: Option<T>, old_: T): T { if change.Some? then change.value else old_ }

  function Override(f: Fields, p: Patch): Fields {
    Fields(Or(p.billingText, f.billingText), Or(p.billingHide, f.billingHide),
           Or(p.identityText, f.identityText), Or(p.identityHide, f.identityHide),
           Or(p.agentText, f.agentText), Or(p.agentHide, f.agentHide), Or(p.agentCacheTtl, f.agentCacheTtl),
           Or(p.callerText, f.callerText), Or(p.callerHide, f.callerHide), Or(p.callerDropIfEmpty, f.callerDropIfEmpty))
  }

  function Later<T>(first: Option<T>, second: Option<T>): Option<T> { if second.Some? then second else first }

  /** One patch after another. */
  function Then(p: Patch, q: Patch): Patch {
    Patch(Later(p.billingText, q.billingText), Later(p.billingHide, q.billingHide),
          Later(p.identityText, q.identityText), Later(p.identityHide, q.identityHide),
          Later(p.agentText, q.agentText), Later(p.agentHide, q.agentHide), Later(p.agentCacheTtl, q.agentCacheTtl),
          Later(p.callerText, q.callerText), Later(p.callerHide, q.callerHide),
          Later(p.callerDropIfEmpty, q.callerDropIfEmpty))
  }

  // ----- finding a slot -----

  /** The first block with an id, or the number of blocks. */
  function IndexOf(blocks: seq<Members>, id: string): (i: nat)
    ensures i <= |blocks|
  {
    if blocks == [] || Get(blocks[0], "id") == Some(Str(id)) then 0 else 1 + IndexOf(blocks[1..], id)
  }

  /** By id, or else by place. */
  function FindSlot(blocks: seq<Members>, slot: Slot): (r: Option<nat>)
    ensures r.Some? ==> r.value < |blocks|
  {
    var byId := IndexOf(blocks, SlotId(slot));
    if byId < |blocks| then Some(byId)
    else if Place(slot) < |blocks| then Some(Place(slot))
    else None
  }

  function SlotBlock(blocks: seq<Members>, slot: Slot, zero: Builtin): Members {
    match FindSlot(blocks, slot)
    case Some(i) => blocks[i]
    case None => zero[Place(slot)]
  }

  // ----- reading -----

  function TextIn(block: Members): string {
    match Get(block, "text")
    case Some(Str(s)) => s
    case _ => ""
  }

  predicate On(block: Members, key: string) { Get(block, key) == Some(Bool(true)) }

  function TtlIn(cache: Option<Value>): string {
    match cache
    case Some(Obj(members)) => (match Get(members, "ttl") case Some(Str(s)) => s case _ => "")
    case _ => ""
  }

  function CacheTtl(block: Members): string {
    var ttl := TtlIn(Get(block, "cache_control"));
    if ttl == "" then "5m" else ttl
  }

  function ReadFrom(billing: Members, identity: Members, agent: Members, caller: Members): Fields {
    Fields(TextIn(billing), On(billing, "hide"), TextIn(identity), On(identity, "hide"),
           TextIn(agent), On(agent, "hide"), CacheTtl(agent),
           TextIn(caller), On(caller, "hide"), On(caller, "drop_if_empty"))
  }

  function ZeroFieldsFromBlocks(blocks: seq<Members>, zero: Builtin): Fields {
    ReadFrom(SlotBlock(blocks, Billing, zero), SlotBlock(blocks, Identity, zero),
             SlotBlock(blocks, Agent, zero), SlotBlock(blocks, Caller, zero))
  }

  // ----- writing -----

  function Remove(members: Members, name: string): Members {
    if members == [] then []
    else if members[0].name == name then Remove(members[1..], name)
    else [members[0]] + Remove(members[1..], name)
  }

  function WithFlag(block: Members, key: string, on: bool): Members {
    if on then Put(block, key, Bool(true)) else Remove(block, key)
  }

  function Blank(s: string): bool { Trim(s, JsSpace) == [] }

  function CacheMembers(cache: Option<Value>): Members {
    match cache case Some(Obj(members)) => members case _ => []
  }

  function Typed(members: Members): Members {
    if Missing(Get(members, "type")) then Put(members, "type", Str("ephemeral")) else members
  }

  /** The cache setting with a new TTL, or without one; `None` when nothing is left of it. */
  function NewCache(cache: Option<Value>, ttl: string): Option<Value> {
    if !Blank(ttl) then Some(Obj(Put(Typed(CacheMembers(cache)), "ttl", Str(Trim(ttl, JsSpace)))))
    else
      var rest := Remove(CacheMembers(cache), "ttl");
      if rest == [] then None else Some(Obj(rest))
  }

  function WithCache(block: Members, ttl: string): Members {
    var cache := NewCache(Get(block, "cache_control"), ttl);
    if cache.Some? then Put(block, "cache_control", cache.value) else Remove(block, "cache_control")
  }

  function TextFor(slot: Slot, f: Fields): string {
    match slot
    case Billing => f.billingText
    case Identity => f.identityText
    case Agent => f.agentText
    case Caller => f.callerText
  }

  predicate HideFor(slot: Slot, f: Fields) {
    match slot
    case Billing => f.billingHide
    case Identity => f.identityHide
    case Agent => f.agentHide
    case Caller => f.callerHide
  }

  /** A slot's block with the fields written into it. */
  function Patched(slot: Slot, block: Members, f: Fields): Members {
    var basic := WithFlag(Put(block, "text", Str(TextFor(slot, f))), "hide", HideFor(slot, f));
    match slot
    case Agent => WithCache(basic, f.agentCacheTtl)
    case Caller => WithFlag(basic, "drop_if_empty", f.callerDropIfEmpty)
    case _ => basic
  }

  /** The blocks with the slot's block in them, and its index. */
  function Ensured(blocks: seq<Members>, slot: Slot, zero: Builtin): (r: (seq<Members>, nat))
    ensures r.1 < |r.0|
  {
    match FindSlot(blocks, slot)
    case Some(i) => (blocks, i)
    case None => (blocks + [zero[Place(slot)]], |blocks|)
  }

  function Step(blocks: seq<Members>, slot: Slot, f: Fields, zero: Builtin): seq<Members> {
    var (all, i) := Ensured(blocks, slot, zero);
    all[i := Patched(slot, all[i], f)]
  }

  function Written(blocks: seq<Members>, f: Fields, zero: Builtin): seq<Members> {
    Step(Step(Step(Step(blocks, Billing, f, zero), Identity, f, zero), Agent, f, zero), Caller, f, zero)
  }

  function Applied(blocks: seq<Members>, patch: Patch, zero: Builtin): seq<Members> {
    Written(if blocks != [] then blocks else zero, Override(ZeroFieldsFromBlocks(blocks, zero), patch), zero)
  }
}
