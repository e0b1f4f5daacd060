/** Which templates are accepted (web/src/lib/persona-template.ts). */
module Templates {
  import opened Wrappers
  import opened Text
  import opened Json
  import opened TemplateVars

  const BLOCK_MAX := 40_000
  const TOTAL_MAX := 200_000
  const BLOCKS_MAX := 24

  const PERSONA_VARS: set<string> := {
    "billing", "billing_semi", "identity", "identity_compact", "agent_expansion", "agent_official",
    "caller_agent", "caller_system", "env_timezone_only", "env_official", "timezone", "locale",
    "model", "cwd", "cli_version", "session_id"
  }

  const OVERLAY_BODY := "overlay_body"

  const OVERLAY_VARS: set<string> := {OVERLAY_BODY, "standing", "rules"}

  predicate Registered(name: string, overlay: bool) {
    name in PERSONA_VARS || (overlay && name in OVERLAY_VARS)
  }

  // ----- blocks -----

  /** A property of an object; the first member of that name. */
  function Get(members: seq<Member>, name: string): Option<Value> {
    if members == [] then None
    else if members[0].name == name then Some(members[0].value)
    else Get(members[1..], name)
  }

  /** A property of any value; only objects have the ones asked for here. */
  function Property(v: Value, name: string): Option<Value> {
    if v.Obj? then Get(v.members, name) else None
  }

  predicate Missing(v: Option<Value>) { v.None? || v.value.Null? }

  predicate HasType(block: Value, kind: string) { Property(block, "type") == Some(Str(kind)) }

  predicate IsWrapper(block: Value) { HasType(block, "wrapper") }

  /** The text of a block, if it is a string. */
  function BlockText(block: Value): Option<string> {
    match Property(block, "text")
    case Some(Str(s)) => Some(s)
    case _ => None
  }

  /** The length of a string in UTF-16 code units. */
  function Units(s: string): nat {
    if s == [] then 0 else Units(s[..|s| - 1]) + if s[|s| - 1] as int >= 0x1_0000 then 2 else 1
  }

  predicate CacheFine(v: Option<Value>) { Missing(v) || v.value.Obj? || v.value.Arr? }

  // ----- the report -----

  datatype Problem =
    | NotList | TooManyBlocks(count: nat) | NotObject(at: nat) | NoText(at: nat) | TextTooLong(at: nat)
    | UnknownType(at: nat) | WrapperWithoutBody(at: nat) | BodyInBody(at: nat) | TypeNotText(at: nat)
    | UnknownVar(at: nat, name: string) | BadCache(at: nat) | TotalTooLong | WrapperCount(count: nat)

  function TypeProblems(block: Value, names: seq<string>, at: nat, overlay: bool): seq<Problem> {
    if overlay then
      (if !IsWrapper(block) && !HasType(block, "body") then [UnknownType(at)] else [])
      + (if IsWrapper(block) && OVERLAY_BODY !in names then [WrapperWithoutBody(at)]
         else if !IsWrapper(block) && OVERLAY_BODY in names then [BodyInBody(at)]
         else [])
    else if Missing(Property(block, "type")) || HasType(block, "text") then []
    else [TypeNotText(at)]
  }

  function UnknownVars(names: seq<string>, at: nat, overlay: bool): seq<Problem> {
    if names == [] then []
    else
      var last := names[|names| - 1];
      UnknownVars(names[..|names| - 1], at, overlay)
      + if Registered(last, overlay) then [] else [UnknownVar(at, last)]
  }

  function TextProblems(block: Value, units: nat, names: seq<string>, at: nat, overlay: bool): seq<Problem> {
    (if units > BLOCK_MAX then [TextTooLong(at)] else [])
    + TypeProblems(block, names, at, overlay)
    + UnknownVars(names, at, overlay)
    + (if CacheFine(Property(block, "cache_control")) then [] else [BadCache(at)])
  }

  /** How placeholder names are extracted from a text. */
  type Extractor = string -> seq<string>

  function BlockProblems(block: Value, at: nat, overlay: bool, names: Extractor): seq<Problem> {
    if !block.Obj? then [NotObject(at)]
    else
      match BlockText(block)
      case None => [NoText(at)]
      case Some(text) => TextProblems(block, Units(text), names(text), at, overlay)
  }

  function Flatten(reports: seq<seq<Problem>>): seq<Problem> {
    if reports == [] then [] else Flatten(reports[..|reports| - 1]) + reports[|reports| - 1]
  }

  /** The problems of each block, numbered from 1. */
  function Reports(blocks: seq<Value>, overlay: bool, names: Extractor): seq<seq<Problem>> {
    seq(|blocks|, i requires 0 <= i < |blocks| => BlockProblems(blocks[i], i + 1, overlay, names))
  }

  function TextUnits(block: Value): nat {
    if BlockText(block).Some? then Units(BlockText(block).value) else 0
  }

  /** The length of all texts together. */
  function Total(blocks: seq<Value>): nat {
    if blocks == [] then 0 else Total(blocks[..|blocks| - 1]) + TextUnits(blocks[|blocks| - 1])
  }

  function WrapperUnit(block: Value): nat { if BlockText(block).Some? && IsWrapper(block) then 1 else 0 }

  /** How many blocks with a text are wrappers. */
  function CountWrappers(blocks: seq<Value>): nat {
    if blocks == [] then 0 else CountWrappers(blocks[..|blocks| - 1]) + WrapperUnit(blocks[|blocks| - 1])
  }

  function Report(template: Value, overlay: bool): seq<Problem> {
    match template
    case Null => []
    case Arr(blocks) =>
      if |blocks| > BLOCKS_MAX then [TooManyBlocks(|blocks|)]
      else
        Flatten(Reports(blocks, overlay, VarNames))
        + (if Total(blocks) > TOTAL_MAX then [TotalTooLong] else [])
        + (if overlay && blocks != [] && CountWrappers(blocks) != 1 then [WrapperCount(CountWrappers(blocks))] else [])
    case _ => [NotList]
  }

  method CheckType(block: Value, names: seq<string>, at: nat, overlay: bool) returns (problems: seq<Problem>, wrappers: nat)
    ensures problems == TypeProblems(block, names, at, overlay)
    ensures wrappers == if overlay && IsWrapper(block) then 1 else 0
  {
    problems, wrappers := [], 0;
    if overlay {
      if !IsWrapper(block) && !HasType(block, "body") {
        problems := problems + [UnknownType(at)];
      }
      if IsWrapper(block) {
        wrappers := 1;
        if OVERLAY_BODY !in names {
          problems := problems + [WrapperWithoutBody(at)];
        }
      } else if OVERLAY_BODY in names {
        problems := problems + [BodyInBody(at)];
      }
    } else if !Missing(Property(block, "type")) && !HasType(block, "text") {
      problems := problems + [TypeNotText(at)];
    }
  }

  method CheckNames(names: seq<string>, at: nat, overlay: bool) returns (problems: seq<Problem>)
    ensures problems == UnknownVars(names, at, overlay)
  {
    problems := [];
    for i := 0 to |names|
      invariant problems == UnknownVars(names[..i], at, overlay)
    {
      assert names[..i + 1][..i] == names[..i];
      if !Registered(names[i], overlay) {
        problems := problems + [UnknownVar(at, names[i])];
      }
    }
    assert names[..|names|] == names;
  }

  /** The checks on the text of one block, in the order they are made. */
  method CheckText(block: Value, units: nat, names: seq<string>, at: nat, overlay: bool)
    returns (problems: seq<Problem>, wrappers: nat)
    ensures problems == TextProblems(block, units, names, at, overlay)
    ensures wrappers == if overlay && IsWrapper(block) then 1 else 0
  {
    problems := [];
    if units > BLOCK_MAX {
      problems := problems + [TextTooLong(at)];
    }
    var typing: seq<Problem>;
    typing, wrappers := CheckType(block, names, at, overlay);
    var naming := CheckNames(names, at, overlay);
    problems := problems + typing + naming;
    if !CacheFine(Property(block, "cache_control")) {
      problems := problems + [BadCache(at)];
    }
  }

  /** One block: its problems, the length of its text, and whether it is a wrapper. */
  method CheckBlock(block: Value, at: nat, overlay: bool, names: Extractor)
    returns (problems: seq<Problem>, units: nat, wrappers: nat)
    ensures problems == BlockProblems(block, at, overlay, names)
    ensures units == TextUnits(block) && wrappers == if overlay then WrapperUnit(block) else 0
  {
    if !block.Obj? {
      return [NotObject(at)], 0, 0;
    }
    var text := BlockText(block);
    if text.None? {
      return [NoText(at)], 0, 0;
    }
    units := Units(text.value);
    problems, wrappers := CheckText(block, units, names(text.value), at, overlay);
  }

  lemma OneMoreReport(reports: seq<seq<Problem>>, i: nat)
    requires i < |reports|
    ensures Flatten(reports[..i + 1]) == Flatten(reports[..i]) + reports[i]
  {
    assert reports[..i + 1][..i] == reports[..i];
  }

  lemma OneMoreBlock(blocks: seq<Value>, i: nat)
    requires i < |blocks|
    ensures Total(blocks[..i + 1]) == Total(blocks[..i]) + TextUnits(blocks[i])
    ensures CountWrappers(blocks[..i + 1]) == CountWrappers(blocks[..i]) + WrapperUnit(blocks[i])
  {
    assert blocks[..i + 1][..i] == blocks[..i];
  }

  method CheckBlocks(blocks: seq<Value>, overlay: bool, names: Extractor)
    returns (problems: seq<Problem>, total: nat, wrappers: nat)
    ensures problems == Flatten(Reports(blocks, overlay, names)) && total == Total(blocks)
    ensures wrappers == if overlay then CountWrappers(blocks) else 0
  {
    problems, total, wrappers := [], 0, 0;
    ghost var reports := Reports(blocks, overlay, names);
    for i := 0 to |blocks|
      invariant problems == Flatten(reports[..i]) && total == Total(blocks[..i])
      invariant wrappers == if overlay then CountWrappers(blocks[..i]) else 0
    {
      OneMoreReport(reports, i);
      OneMoreBlock(blocks, i);
      var found, units, wrapper := CheckBlock(blocks[i], i + 1, overlay, names);
      problems, total, wrappers := problems + found, total + units, wrappers + wrapper;
    }
    assert blocks[..|blocks|] == blocks && reports[..|blocks|] == reports;
  }

  method ValidatePersonaTemplate(template: Value, overlay: bool) returns (problems: seq<Problem>)
    ensures problems == Report(template, overlay)
  {
    if template.Null? {
      return [];
    }
    if !template.Arr? {
      return [NotList];
    }
    var blocks := template.items;
    if |blocks| > BLOCKS_MAX {
      return [TooManyBlocks(|blocks|)];
    }
    var total, wrappers;
    problems, total, wrappers := CheckBlocks(blocks, overlay, VarNames);
    if total > TOTAL_MAX {
      problems := problems + [TotalTooLong];
    }
    if overlay && blocks != [] && wrappers != 1 {
      problems := problems + [WrapperCount(wrappers)];
    }
  }

  // ----- what acceptance means -----

  /** A block whose text is `text` with the placeholder names `names`. */
  predicate FineText(block: Value, units: nat, names: seq<string>, overlay: bool) {
    && units <= BLOCK_MAX
    && (forall i | 0 <= i < |names| :: Registered(names[i], overlay))
    && (overlay ==> (IsWrapper(block) || HasType(block, "body")) && (IsWrapper(block) <==> OVERLAY_BODY in names))
    && (!overlay ==> Missing(Property(block, "type")) || HasType(block, "text"))
    && CacheFine(Property(block, "cache_control"))
  }

  predicate Fine(block: Value, overlay: bool) {
    && block.Obj?
    && BlockText(block).Some?
    && FineText(block, Units(BlockText(block).value), VarNames(BlockText(block).value), overlay)
  }

  predicate Acceptable(blocks: seq<Value>, overlay: bool) {
    && |blocks| <= BLOCKS_MAX
    && (forall i | 0 <= i < |blocks| :: Fine(blocks[i], overlay))
    && Total(blocks) <= TOTAL_MAX
    && (overlay && blocks != [] ==> CountWrappers(blocks) == 1)
  }

  lemma {:induction false} NoUnknownVars(names: seq<string>, at: nat, overlay: bool)
    ensures UnknownVars(names, at, overlay) == [] <==> forall i | 0 <= i < |names| :: Registered(names[i], overlay)
  {
    if names != [] {
      NoUnknownVars(names[..|names| - 1], at, overlay);
    }
  }

  lemma NoTextProblems(block: Value, units: nat, names: seq<string>, at: nat, overlay: bool)
    ensures TextProblems(block, units, names, at, overlay) == [] <==> FineText(block, units, names, overlay)
  {
    NoUnknownVars(names, at, overlay);
  }

  lemma NoBlockProblems(block: Value, at: nat, overlay: bool)
    ensures BlockProblems(block, at, overlay, VarNames) == [] <==> Fine(block, overlay)
  {
    if BlockText(block).Some? {
      NoTextProblems(block, Units(BlockText(block).value), VarNames(BlockText(block).value), at, overlay);
    }
  }

  lemma {:induction false} FlattenEmpty(reports: seq<seq<Problem>>)
    ensures |Flatten(reports)| == 0 <==> forall i | 0 <= i < |reports| :: |reports[i]| == 0
  {
    if reports != [] {
      FlattenEmpty(reports[..|reports| - 1]);
    }
  }

  lemma NoProblems(blocks: seq<Value>, overlay: bool)
    ensures Flatten(Reports(blocks, overlay, VarNames)) == [] <==> forall i | 0 <= i < |blocks| :: Fine(blocks[i], overlay)
  {
    var reports := Reports(blocks, overlay, VarNames);
    FlattenEmpty(reports);
    forall i | 0 <= i < |blocks| ensures |reports[i]| == 0 <==> Fine(blocks[i], overlay) {
      NoBlockProblems(blocks[i], i + 1, overlay);
    }
  }

  /** A list of blocks is reported without a problem exactly when it is acceptable. */
  lemma AcceptedExactly(blocks: seq<Value>, overlay: bool)
    ensures Report(Arr(blocks), overlay) == [] <==> Acceptable(blocks, overlay)
  {
    NoProblems(blocks, overlay);
  }

  // ----- following a preset -----

  type Presets = m: map<string, seq<Value>> | "official" in m witness map["official" := []]

  function PresetSeed(presets: Presets, key: string): seq<Value> {
    if key in presets && presets[key] != [] then presets[key] else presets["official"]
  }

  /** What is stored for a draft: nothing when it prints like the preset. */
  function TemplateOrFollowPreset(blocks: seq<Value>, presets: Presets, key: string): seq<Value> {
    if Print(Arr(blocks)) == Print(Arr(PresetSeed(presets, key))) then [] else blocks
  }

  /** What a stored template stands for: an empty one follows the preset. */
  function Effective(stored: seq<Value>, presets: Presets, key: string): seq<Value> {
    if stored == [] then PresetSeed(presets, key) else stored
  }
}
