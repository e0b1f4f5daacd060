/** Rendering templates, and what acceptance guarantees for it (web/src/lib/persona-template.ts). */
module TemplateRender {
  import opened Wrappers
  import opened Text
  import opened Json
  import JsonRoundTrip
  import S = Scanner
  import opened TemplateVars
  import opened Templates

  // ----- conversions -----

  /** String(v); an array's items are joined with commas, null items left empty. */
  function StringOf(v: Value): string {
    match v
    case Null => "null"
    case Bool(b) => if b then "true" else "false"
    case Num(literal) => literal
    case Str(s) => s
    case Arr(items) => StringsOf(items)
    case Obj(_) => "[object Object]"
  }

  function StringsOf(items: seq<Value>): string {
    if items == [] then ""
    else
      var first := if items[0].Null? then "" else StringOf(items[0]);
      if |items| == 1 then first else first + "," + StringsOf(items[1..])
  }

  function RawText(block: Value): string {
    var text := Property(block, "text");
    if Missing(text) then "" else StringOf(text.value)
  }

  predicate Truthy(v: Option<Value>) {
    match v
    case None => false
    case Some(Null) => false
    case Some(Bool(b)) => b
    case Some(Num(literal)) => exists i :: 0 <= i < |literal| && '1' <= literal[i] <= '9' && !Exponent(literal[..i])
    case Some(Str(s)) => s != []
    case Some(_) => true
  }

  predicate Exponent(s: string) { 'e' in s || 'E' in s }

  /** What `typeof` calls an object and is not null. */
  predicate ObjectLike(v: Value) { v.Obj? || v.Arr? }

  // ----- persona templates -----

  datatype PreviewBlock = PreviewBlock(text: string, cacheControl: Option<Value>)

  function Preview(block: Value, text: string): seq<PreviewBlock> {
    if !ObjectLike(block) then []
    else if Truthy(Property(block, "drop_if_empty")) && Trim(text, JsSpace) == [] then []
    else
      var cache := Property(block, "cache_control");
      [PreviewBlock(text, if cache.Some? && ObjectLike(cache.value) then cache else None)]
  }

  /** Filling in the values of a map. */
  function FillIn(vars: Vars): string -> string { text => Filled(text, vars) }

  function Previews(blocks: seq<Value>, fill: string -> string): seq<PreviewBlock> {
    if blocks == [] then []
    else
      var last := blocks[|blocks| - 1];
      Previews(blocks[..|blocks| - 1], fill) + Preview(last, fill(RawText(last)))
  }

  method PreviewAll(blocks: seq<Value>, fill: string -> string) returns (out: seq<PreviewBlock>)
    ensures out == Previews(blocks, fill)
  {
    out := [];
    for i := 0 to |blocks|
      invariant out == Previews(blocks[..i], fill)
    {
      assert blocks[..i + 1][..i] == blocks[..i];
      var block := blocks[i];
      if !ObjectLike(block) {
        continue;
      }
      var text := fill(RawText(block));
      if Truthy(Property(block, "drop_if_empty")) && Trim(text, JsSpace) == [] {
        continue;
      }
      var next := PreviewBlock(text, None);
      var cache := Property(block, "cache_control");
      if cache.Some? && ObjectLike(cache.value) {
        next := next.(cacheControl := cache);
      }
      out := out + [next];
    }
    assert blocks[..|blocks|] == blocks;
  }

  method RenderPersonaTemplate(blocks: seq<Value>, vars: Vars) returns (out: seq<PreviewBlock>)
    ensures out == Previews(blocks, FillIn(vars))
  {
    out := PreviewAll(blocks, FillIn(vars));
  }

  // ----- overlay templates -----

  /** What a block adds to the body, given its filled text. */
  function BodyOf(block: Value, filled: string): seq<string> {
    if !ObjectLike(block) || IsWrapper(block) || Trim(filled, JsSpace) == [] then [] else [Trim(filled, JsSpace)]
  }

  function BodyWith(fill: string -> string): Value -> seq<string> { block => BodyOf(block, fill(RawText(block))) }

  /** What each block adds, in order. */
  function Gather(blocks: seq<Value>, part: Value -> seq<string>): seq<string> {
    if blocks == [] then [] else Gather(blocks[..|blocks| - 1], part) + part(blocks[|blocks| - 1])
  }

  function Bodies(blocks: seq<Value>, fill: string -> string): seq<string> { Gather(blocks, BodyWith(fill)) }

  function FirstWrapper(blocks: seq<Value>): Option<Value> {
    if blocks == [] then None else if IsWrapper(blocks[0]) then Some(blocks[0]) else FirstWrapper(blocks[1..])
  }

  /** Filling in the values of a map and a body. */
  type Filler = (string, string) -> string

  function FillAround(vars: Vars): Filler { (text, body) => Filled(text, vars[OVERLAY_BODY := body]) }

  /** The body inside the wrapper's text, or by itself. */
  function Wrap(wrapper: Option<Value>, body: string, around: Filler): string {
    if body == [] then "" else if wrapper.None? then body else around(RawText(wrapper.value), body)
  }

  function Overlay(blocks: seq<Value>, fill: string -> string, around: Filler): string {
    Wrap(FirstWrapper(blocks), Join(Bodies(blocks, fill), "\n\n"), around)
  }

  /** One pass over the blocks: the nonblank bodies in order, and the first wrapper. */
  method Collect(blocks: seq<Value>, fill: string -> string) returns (bodies: seq<string>, wrapper: Option<Value>)
    ensures bodies == Bodies(blocks, fill) && wrapper == FirstWrapper(blocks)
  {
    bodies, wrapper := [], None;
    for i := 0 to |blocks|
      invariant bodies == Bodies(blocks[..i], fill) && wrapper == FirstWrapper(blocks[..i])
    {
      assert blocks[..i + 1][..i] == blocks[..i];
      FirstWrapperExtends(blocks[..i], blocks[i]);
      assert blocks[..i + 1] == blocks[..i] + [blocks[i]];
      var block := blocks[i];
      assert BodyWith(fill)(block) == BodyOf(block, fill(RawText(block)));
      if !ObjectLike(block) {
        continue;
      }
      if IsWrapper(block) {
        if wrapper.None? {
          wrapper := Some(block);
        }
        continue;
      }
      var text := Trim(fill(RawText(block)), JsSpace);
      if text != [] {
        bodies := bodies + [text];
      }
    }
    assert blocks[..|blocks|] == blocks;
  }

  method RenderOverlayTemplate(blocks: seq<Value>, vars: Vars) returns (out: string)
    ensures out == Overlay(blocks, FillIn(vars), FillAround(vars))
  {
    var bodies, wrapper := Collect(blocks, FillIn(vars));
    var body := Join(bodies, "\n\n");
    if body == [] {
      return "";
    }
    if wrapper.None? {
      return body;
    }
    out := FillTemplateVars(RawText(wrapper.value), vars[OVERLAY_BODY := body]);
  }

  lemma {:induction false} FirstWrapperExtends(blocks: seq<Value>, block: Value)
    ensures FirstWrapper(blocks + [block])
         == if FirstWrapper(blocks).Some? then FirstWrapper(blocks) else if IsWrapper(block) then Some(block) else None
  {
    if blocks == [] {
      assert [] + [block] == [block] && [block][1..] == [];
    } else {
      FirstWrapperExtends(blocks[1..], block);
      assert (blocks + [block])[1..] == blocks[1..] + [block];
    }
  }

  // ----- the place of the wrapper -----

  ghost predicate NoWrapper(blocks: seq<Value>) { forall i | 0 <= i < |blocks| :: !IsWrapper(blocks[i]) }

  lemma {:induction false} GatherConcat(a: seq<Value>, b: seq<Value>, part: Value -> seq<string>)
    ensures Gather(a + b, part) == Gather(a, part) + Gather(b, part)
  {
    if b == [] {
      assert a + b == a;
    } else {
      GatherConcat(a, b[..|b| - 1], part);
      assert (a + b)[..|a + b| - 1] == a + b[..|b| - 1];
    }
  }

  lemma WrapperAddsNothing(w: Value, fill: string -> string)
    requires IsWrapper(w)
    ensures Bodies([w], fill) == []
  {
    assert BodyWith(fill)(w) == BodyOf(w, fill(RawText(w)));
    var none := [w][..0];
    assert none == [] && Gather(none, BodyWith(fill)) == [];
    assert Bodies([w], fill) == Gather(none, BodyWith(fill)) + BodyOf(w, fill(RawText(w)));
  }

  lemma {:induction false} FirstWrapperIs(a: seq<Value>, w: Value, b: seq<Value>)
    requires IsWrapper(w) && NoWrapper(a)
    ensures FirstWrapper(a + [w] + b) == Some(w)
  {
    if a == [] {
      assert a + [w] + b == [w] + b;
    } else {
      FirstWrapperIs(a[1..], w, b);
      assert (a + [w] + b)[1..] == a[1..] + [w] + b;
    }
  }

  lemma BodiesAround(a: seq<Value>, w: Value, b: seq<Value>, fill: string -> string)
    requires IsWrapper(w)
    ensures Bodies(a + [w] + b, fill) == Bodies(a + b, fill)
  {
    GatherConcat(a + [w], b, BodyWith(fill));
    GatherConcat(a, [w], BodyWith(fill));
    GatherConcat(a, b, BodyWith(fill));
    WrapperAddsNothing(w, fill);
  }

  /** With one wrapper, the rendering is the other blocks' bodies inside it, wherever it stands. */
  lemma OverlayOfOneWrapper(a: seq<Value>, w: Value, b: seq<Value>, fill: string -> string, around: Filler)
    requires IsWrapper(w) && NoWrapper(a)
    ensures Overlay(a + [w] + b, fill, around) == Wrap(Some(w), Join(Bodies(a + b, fill), "\n\n"), around)
  {
    FirstWrapperIs(a, w, b);
    BodiesAround(a, w, b, fill);
  }

  lemma WrapperPlaceIsFree(a: seq<Value>, b: seq<Value>, c: seq<Value>, d: seq<Value>, w: Value, vars: Vars)
    requires IsWrapper(w) && NoWrapper(a + b) && a + b == c + d
    ensures Overlay(a + [w] + b, FillIn(vars), FillAround(vars)) == Overlay(c + [w] + d, FillIn(vars), FillAround(vars))
  {
    NoWrapperBefore(a, b);
    NoWrapperBefore(c, d);
    OverlayOfOneWrapper(a, w, b, FillIn(vars), FillAround(vars));
    OverlayOfOneWrapper(c, w, d, FillIn(vars), FillAround(vars));
  }

  lemma NoWrapperBefore(a: seq<Value>, b: seq<Value>)
    requires NoWrapper(a + b)
    ensures NoWrapper(a)
  {
    assert forall i | 0 <= i < |a| :: a[i] == (a + b)[i];
  }

  // ----- accepted overlay templates -----

  lemma {:induction false} NoneCounted(blocks: seq<Value>)
    requires CountWrappers(blocks) == 0 && forall i | 0 <= i < |blocks| :: BlockText(blocks[i]).Some?
    ensures NoWrapper(blocks)
  {
    if blocks != [] {
      NoneCounted(blocks[..|blocks| - 1]);
    }
  }

  lemma {:induction false} OneCounted(blocks: seq<Value>) returns (k: nat)
    requires CountWrappers(blocks) == 1 && forall i | 0 <= i < |blocks| :: BlockText(blocks[i]).Some?
    ensures k < |blocks| && IsWrapper(blocks[k]) && NoWrapper(blocks[..k] + blocks[k + 1..])
  {
    var front, last := blocks[..|blocks| - 1], blocks[|blocks| - 1];
    if IsWrapper(last) {
      k := |blocks| - 1;
      NoneCounted(front);
      assert blocks[..k] + blocks[k + 1..] == front;
    } else {
      k := OneCounted(front);
      var others := front[..k] + front[k + 1..];
      assert blocks[..k] + blocks[k + 1..] == others + [last];
      assert forall i | 0 <= i < |others| :: (others + [last])[i] == others[i];
    }
  }

  /** The map has every registered name; the renderer itself provides the body. */
  ghost predicate Provides(vars: Vars) {
    forall name | Registered(name, true) && name != OVERLAY_BODY :: name in vars
  }

  /** Every name a text uses is in the map: the fallback for unknown names is not reached. */
  ghost predicate NoFallback(text: string, vars: Vars) {
    forall i | 0 <= i < |VarNames(text)| :: VarNames(text)[i] in vars
  }

  /** In an accepted template no text reaches the fallback, with any body in the wrapper. */
  lemma AcceptedNeverFallsBack(blocks: seq<Value>, vars: Vars, body: string, i: nat)
    requires Acceptable(blocks, true) && Provides(vars) && i < |blocks|
    ensures BlockText(blocks[i]) == Some(RawText(blocks[i]))
    ensures NoFallback(RawText(blocks[i]), if IsWrapper(blocks[i]) then vars[OVERLAY_BODY := body] else vars)
  {
    assert Fine(blocks[i], true);
  }

  // ----- accepted persona templates -----

  lemma {:induction false} PreviewsAgree(blocks: seq<Value>, fill: string -> string, other: string -> string)
    requires forall i | 0 <= i < |blocks| :: fill(RawText(blocks[i])) == other(RawText(blocks[i]))
    ensures Previews(blocks, fill) == Previews(blocks, other)
  {
    if blocks != [] {
      PreviewsAgree(blocks[..|blocks| - 1], fill, other);
    }
  }

  ghost predicate SamePersona(one: Vars, other: Vars) {
    forall name | name in PERSONA_VARS :: name in one && name in other && one[name] == other[name]
  }

  lemma AcceptedTextAgrees(block: Value, one: Vars, other: Vars)
    requires Fine(block, false) && SamePersona(one, other)
    ensures NoFallback(RawText(block), one) && FillIn(one)(RawText(block)) == FillIn(other)(RawText(block))
  {
    FineNames(block);
    RegisteredAgree(VarNames(RawText(block)), one, other);
    FillAgrees(RawText(block), one, other);
  }

  lemma FineNames(block: Value)
    requires Fine(block, false)
    ensures BlockText(block) == Some(RawText(block))
    ensures forall i | 0 <= i < |VarNames(RawText(block))| :: Registered(VarNames(RawText(block))[i], false)
  {
  }

  lemma RegisteredAgree(names: seq<string>, one: Vars, other: Vars)
    requires SamePersona(one, other) && forall i | 0 <= i < |names| :: Registered(names[i], false)
    ensures forall i | 0 <= i < |names| :: names[i] in one && Lookup(one, names[i]) == Lookup(other, names[i])
  {
  }

  /** An accepted persona template renders from the registered names alone: no text reaches the
      fallback, and maps that agree on those names give the same blocks. */
  lemma AcceptedPersona(blocks: seq<Value>, one: Vars, other: Vars)
    requires Acceptable(blocks, false) && SamePersona(one, other)
    ensures forall i | 0 <= i < |blocks| :: NoFallback(RawText(blocks[i]), one)
    ensures Previews(blocks, FillIn(one)) == Previews(blocks, FillIn(other))
  {
    forall i | 0 <= i < |blocks|
      ensures NoFallback(RawText(blocks[i]), one) && FillIn(one)(RawText(blocks[i])) == FillIn(other)(RawText(blocks[i]))
    {
      AcceptedTextAgrees(blocks[i], one, other);
    }
    PreviewsAgree(blocks, FillIn(one), FillIn(other));
  }

  // ----- the text of accepted overlays -----

  lemma {:induction false} BodiesInked(blocks: seq<Value>, fill: string -> string)
    ensures forall i | 0 <= i < |Bodies(blocks, fill)| :: Bodies(blocks, fill)[i] != []
  {
    if blocks != [] {
      BodiesInked(blocks[..|blocks| - 1], fill);
      var last := blocks[|blocks| - 1];
      var part := BodyOf(last, fill(RawText(last)));
      assert BodyWith(fill)(last) == part;
      assert forall i | 0 <= i < |part| :: part[i] != [];
      assert Bodies(blocks, fill) == Bodies(blocks[..|blocks| - 1], fill) + part;
    }
  }

  lemma JoinInked(parts: seq<string>, separator: string)
    requires parts != [] && parts[0] != []
    ensures Join(parts, separator) != []
  {
  }

  /** With exactly one wrapper, the result is empty or that wrapper filled around the other blocks'
      nonblank bodies, joined in order. */
  lemma OverlayWithOneWrapper(blocks: seq<Value>, fill: string -> string, around: Filler) returns (k: nat)
    requires CountWrappers(blocks) == 1 && forall i | 0 <= i < |blocks| :: BlockText(blocks[i]).Some?
    ensures k < |blocks| && IsWrapper(blocks[k]) && NoWrapper(blocks[..k] + blocks[k + 1..])
    ensures var bodies := Bodies(blocks[..k] + blocks[k + 1..], fill);
            Overlay(blocks, fill, around) == if bodies == [] then "" else around(RawText(blocks[k]), Join(bodies, "\n\n"))
  {
    k := OneCounted(blocks);
    var a, w, b := blocks[..k], blocks[k], blocks[k + 1..];
    assert blocks == a + [w] + b;
    NoWrapperBefore(a, b);
    OverlayOfOneWrapper(a, w, b, fill, around);
    BodiesInked(a + b, fill);
    if Bodies(a + b, fill) != [] {
      JoinInked(Bodies(a + b, fill), "\n\n");
    }
  }

  /** The value of a name when the body is `body`. */
  function WithBody(vars: Vars, body: string): string -> string {
    name => if Lower(name) == OVERLAY_BODY then body else Lookup(vars, Lower(name))
  }

  lemma WithBodyAgrees(vars: Vars, body: string, name: string)
    ensures ValueIn(vars[OVERLAY_BODY := body])(name) == WithBody(vars, body)(name)
  {
  }

  lemma InterleaveWithBody(p: S.Parts, vars: Vars, body: string)
    ensures S.Interleave(p, ValueIn(vars[OVERLAY_BODY := body])) == S.Interleave(p, WithBody(vars, body))
  {
    var value, other := ValueIn(vars[OVERLAY_BODY := body]), WithBody(vars, body);
    forall i | 0 <= i < |p.cuts| ensures value(p.cuts[i].name) == other(p.cuts[i].name) {
      WithBodyAgrees(vars, body, p.cuts[i].name);
    }
    S.InterleaveAgrees(p, value, other);
  }

  /** A wrapper's text filled in: its literals interleaved with the values of its names, every
      occurrence of the body's name replaced by the body. */
  lemma FilledAround(text: string, vars: Vars, body: string)
    ensures FillAround(vars)(text, body) == S.Interleave(VarParts(text), WithBody(vars, body))
  {
    InterleaveWithBody(VarParts(text), vars, body);
  }

  /** The result for an accepted template: empty, or its wrapper's text filled around the other
      blocks' nonblank bodies joined in order. */
  lemma AcceptedOverlay(blocks: seq<Value>, vars: Vars) returns (k: nat)
    requires Acceptable(blocks, true) && blocks != []
    ensures k < |blocks| && IsWrapper(blocks[k]) && NoWrapper(blocks[..k] + blocks[k + 1..])
    ensures var bodies := Bodies(blocks[..k] + blocks[k + 1..], FillIn(vars));
            Overlay(blocks, FillIn(vars), FillAround(vars))
            == if bodies == [] then "" else FillAround(vars)(RawText(blocks[k]), Join(bodies, "\n\n"))
  {
    AcceptedTexts(blocks);
    k := OverlayWithOneWrapper(blocks, FillIn(vars), FillAround(vars));
  }

  /** An accepted wrapper shows the whole body, so the result is empty only if every body is blank. */
  lemma WrapperShowsBody(w: Value, vars: Vars, body: string)
    requires Fine(w, true) && IsWrapper(w)
    ensures Within(body, FillAround(vars)(RawText(w), body))
  {
    FilledAround(RawText(w), vars, body);
    BodyShows(VarParts(RawText(w)), vars, body);
  }

  lemma AcceptedTexts(blocks: seq<Value>)
    requires Acceptable(blocks, true)
    ensures forall i | 0 <= i < |blocks| :: BlockText(blocks[i]).Some?
  {
    forall i | 0 <= i < |blocks| ensures BlockText(blocks[i]).Some? {
      assert Fine(blocks[i], true);
    }
  }

  /** `part` is a contiguous part of `s`. */
  ghost predicate Within(part: string, s: string) {
    exists before: string, after: string {:trigger before + part + after} :: s == before + part + after
  }

  lemma WithinLater(part: string, s: string, front: string)
    requires Within(part, s)
    ensures Within(part, front + s)
  {
    var before: string, after: string :| s == before + part + after;
    assert front + s == (front + before) + part + after;
  }

  /** Every value of an interleaving is a contiguous part of it. */
  lemma {:induction false} InterleaveHolds(p: S.Parts, value: string -> string, i: nat)
    requires i < |p.cuts|
    ensures Within(value(p.cuts[i].name), S.Interleave(p, value))
    decreases |p.cuts|
  {
    var front, rest := p.cuts[0].literal, S.Interleave(S.Rest(p), value);
    if i > 0 {
      InterleaveHolds(S.Rest(p), value, i - 1);
      WithinLater(value(p.cuts[i].name), rest, front + value(p.cuts[0].name));
    } else {
      assert S.Interleave(p, value) == front + value(p.cuts[0].name) + rest;
    }
  }

  /** A text that names the body holds the body once it is filled in. */
  lemma BodyShows(p: S.Parts, vars: Vars, body: string)
    requires OVERLAY_BODY in S.Names(p, Lower)
    ensures Within(body, S.Interleave(p, WithBody(vars, body)))
  {
    var i :| 0 <= i < |p.cuts| && S.Names(p, Lower)[i] == OVERLAY_BODY;
    InterleaveHolds(p, WithBody(vars, body), i);
  }

  // ----- following a preset -----

  /** Storing a draft and resolving it gives the draft's blocks back; the empty draft follows the
      preset. So does a draft that equals the preset, and no other. */
  lemma FollowingKeepsMeaning(blocks: seq<Value>, presets: Presets, key: string)
    requires Proper(Arr(blocks)) && Proper(Arr(PresetSeed(presets, key)))
    ensures var stored := TemplateOrFollowPreset(blocks, presets, key);
            && Effective(stored, presets, key) == Effective(blocks, presets, key)
            && (stored == [] <==> blocks == [] || blocks == PresetSeed(presets, key))
  {
    JsonRoundTrip.ParsePrint(Arr(blocks));
    JsonRoundTrip.ParsePrint(Arr(PresetSeed(presets, key)));
  }
}
