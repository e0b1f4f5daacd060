/** What the file lock is for: no update of the credential file is lost. */
module RefreshUpdates {
  import opened Wrappers
  import opened RefreshProtocol
  import opened RefreshInvariants
  import opened RefreshRuns
  import opened RefreshFreshness
  import opened CredentialStore
  import opened Credentials
  import opened StoreLaws

  /** The stages in which a leader carries the document it loaded. */
  predicate Carrying(stage: Stage) {
    stage.Deciding? || stage.Sending? || stage.Awaiting? || stage.Committing? || stage.Saving?
  }

  predicate Carries(s: State, t: CallId, doc: Document) {
    && t in s.callers && s.callers[t].phase.Leading?
    && var stage := s.callers[t].phase.stage; Carrying(stage) && stage.doc == doc
  }

  // ----- without outside writers -----

  /** Whoever carries a document carries the one that is in the file. */
  ghost predicate CurrentInv(s: State) {
    forall t | t in s.callers && s.callers[t].phase.Leading? && Carrying(s.callers[t].phase.stage) ::
      s.file == Stored(s.callers[t].phase.stage.doc)
  }

  lemma CurrentControl(s: State, e: Event)
    requires CurrentInv(s) && Enabled(s, e) && !e.Act? && !Outside(e)
    ensures CurrentInv(Control(s, e))
  {
  }

  lemma CurrentAct(cfg: Config, s: State, c: Caller, stage: Stage, action: Action)
    requires ActionEnabled(stage, c.cancelled, action) && (Carrying(stage) ==> s.file == Stored(stage.doc))
    ensures var next, file := NextStage(cfg, s, c, stage, action), NextFile(s, stage, action);
            (Carrying(next) ==> file == Stored(next.doc)) && (file != s.file ==> stage.Saving? && !Carrying(next))
  {
  }

  lemma CurrentPerform(s: State, call: CallId, stage: Stage, file: File)
    requires LockInv(s) && CurrentInv(s) && call in s.callers && s.callers[call].Holds()
    requires Carrying(stage) ==> file == Stored(stage.doc)
    ensures CurrentInv(Perform(s, call, stage, file))
  {
  }

  ghost predicate NoOutside(r: Run, m: nat) {
    m <= |r.events| && forall k {:trigger r.events[k]} | 0 <= k < m :: !Outside(r.events[k])
  }

  lemma {:induction false} CurrentReachable(r: Run, k: nat)
    requires k < |r.states| && NoOutside(r, k)
    ensures CurrentInv(r.states[k])
  {
    if k > 0 {
      CurrentReachable(r, k - 1);
      assert StepAt(r, k - 1) && !Outside(r.events[k - 1]);
      Reachable(r, k - 1);
      CurrentStep(r.cfg, r.states[k - 1], r.events[k - 1]);
    }
  }

  lemma CurrentStep(cfg: Config, s: State, e: Event)
    requires LockInv(s) && CurrentInv(s) && Enabled(s, e) && !Outside(e)
    ensures CurrentInv(Next(cfg, s, e))
  {
    if e.Act? {
      var c := s.callers[e.call];
      ActionsStayLocked(cfg, s, c, c.phase.stage, e.action);
      CurrentAct(cfg, s, c, c.phase.stage, e.action);
      CurrentPerform(s, e.call, NextStage(cfg, s, c, c.phase.stage, e.action), NextFile(s, c.phase.stage, e.action));
    } else {
      CurrentControl(s, e);
    }
  }

  /** In a run without outside writers every save goes over the document that is in the file. */
  lemma NoLostUpdate(r: Run, j: nat, t: CallId)
    requires j < |r.events| && NoOutside(r, j) && OwnSave(r.events[j], t)
    ensures t in r.states[j].callers && r.states[j].callers[t].phase.Leading? && r.states[j].callers[t].phase.stage.Saving?
    ensures r.states[j].file == Stored(r.states[j].callers[t].phase.stage.doc)
  {
    assert StepAt(r, j);
    CurrentReachable(r, j);
  }

  /** The file holds a document with a generation below the 64-bit limit. */
  predicate Numbered(file: File) {
    file.Stored? && Standing(file.doc, false).0 && StoredGeneration(file.doc) < MAX_INT64
  }

  function GenerationIn(file: File): int
    requires file.Stored?
  {
    StoredGeneration(file.doc)
  }

  /** One step without outside writers: a stored grant raises the generation, anything else leaves the file alone. */
  lemma UpdateStep(cfg: Config, s: State, e: Event)
    requires Enabled(s, e) && CurrentInv(s) && GrantInv(s) && !Outside(e) && Numbered(s.file)
    ensures var after := Next(cfg, s, e).file;
            && after.Stored? && Standing(after.doc, false).0
            && (StoresGrant(s, e) ==> GenerationIn(s.file) < GenerationIn(after))
            && (!StoresGrant(s, e) ==> after == s.file)
  {
    if StoresGrant(s, e) {
      var stage := s.callers[e.call].phase.stage;
      assert s.file == Stored(stage.doc) && Storable(stage.granted);
      SaveGrows(stage.granted, stage.doc, Saved(stage.granted, stage.doc, s.clock), s.clock, false);
    }
  }

  ghost predicate AllNumbered(r: Run, i: nat, j: nat) {
    j <= |r.events| && forall k {:trigger r.states[k]} | i <= k < j :: Numbered(r.states[k].file)
  }

  lemma UpdateAt(r: Run, k: nat)
    requires k < |r.events| && NoOutside(r, k + 1) && Numbered(r.states[k].file)
    ensures var before, after := r.states[k].file, r.states[k + 1].file;
            && after.Stored? && Standing(after.doc, false).0
            && (StoresGrant(r.states[k], r.events[k]) ==> GenerationIn(before) < GenerationIn(after))
            && (!StoresGrant(r.states[k], r.events[k]) ==> after == before)
  {
    assert StepAt(r, k) && !Outside(r.events[k]);
    CurrentReachable(r, k);
    GrantReachable(r, k);
    UpdateStep(r.cfg, r.states[k], r.events[k]);
  }

  /** A chain of numbers that grow at marked steps and stay at all others. */
  ghost predicate Climbs(gens: seq<int>, marked: seq<bool>, i: nat, j: nat) {
    && i <= j <= |marked| < |gens|
    && forall k {:trigger marked[k]} | i <= k < j :: if marked[k] then gens[k] < gens[k + 1] else gens[k] == gens[k + 1]
  }

  lemma {:induction false} ClimbsAlong(gens: seq<int>, marked: seq<bool>, i: nat, j: nat)
    requires Climbs(gens, marked, i, j)
    ensures gens[i] <= gens[j] && (gens[i] < gens[j] <==> exists k :: i <= k < j && marked[k])
    decreases j
  {
    if i < j {
      ClimbsAlong(gens, marked, i, j - 1);
      assert marked[j - 1] ==> gens[j - 1] < gens[j];
    }
  }

  ghost function Generations(r: Run): seq<int> {
    seq(|r.states|, k requires 0 <= k < |r.states| => if r.states[k].file.Stored? then GenerationIn(r.states[k].file) else 0)
  }

  ghost function Stores(r: Run): seq<bool> {
    seq(|r.events|, k requires 0 <= k < |r.events| => StoresGrant(r.states[k], r.events[k]))
  }

  lemma ClimbsAt(r: Run, k: nat)
    requires k < |r.events| && NoOutside(r, k + 1) && Numbered(r.states[k].file)
    ensures var gens := Generations(r); if Stores(r)[k] then gens[k] < gens[k + 1] else gens[k] == gens[k + 1]
  {
    UpdateAt(r, k);
  }

  lemma RunClimbs(r: Run, i: nat, j: nat)
    requires i < j <= |r.events| && NoOutside(r, j) && AllNumbered(r, i, j)
    ensures Climbs(Generations(r), Stores(r), i, j) && r.states[j].file.Stored?
  {
    var gens, marked := Generations(r), Stores(r);
    forall k {:trigger marked[k]} | i <= k < j
      ensures if marked[k] then gens[k] < gens[k + 1] else gens[k] == gens[k + 1]
    {
      ClimbsAt(r, k) by { assert Numbered(r.states[k].file); }
    }
    assert Numbered(r.states[j - 1].file);
    UpdateAt(r, j - 1);
  }

  /** Along a run without outside writers the file's generation never goes back, and it has grown
      between two steps if and only if a refresh was stored between them. */
  lemma GenerationGrowsAlong(r: Run, i: nat, j: nat)
    requires i < j <= |r.events| && NoOutside(r, j) && AllNumbered(r, i, j)
    ensures r.states[i].file.Stored? && r.states[j].file.Stored?
    ensures GenerationIn(r.states[i].file) <= GenerationIn(r.states[j].file)
    ensures GenerationIn(r.states[i].file) < GenerationIn(r.states[j].file) <==> exists k :: i <= k < j && Stores(r)[k]
  {
    assert Numbered(r.states[i].file);
    RunClimbs(r, i, j);
    ClimbsAlong(Generations(r), Stores(r), i, j);
  }

  // ----- with outside writers -----

  lemma CarryControl(s: State, e: Event, t: CallId, doc: Document)
    requires Enabled(s, e) && !e.Act? && Carries(Control(s, e), t, doc)
    ensures Carries(s, t, doc)
  {
  }

  lemma CarryAct(cfg: Config, s: State, c: Caller, stage: Stage, action: Action)
    requires ActionEnabled(stage, c.cancelled, action) && Carrying(NextStage(cfg, s, c, stage, action))
    ensures var doc := NextStage(cfg, s, c, stage, action).doc;
            (Carrying(stage) && stage.doc == doc && !action.SaveFile?) || (action.LoadFile? && s.file == Stored(doc))
  {
  }

  lemma CarryStep(cfg: Config, s: State, e: Event, t: CallId, doc: Document)
    requires Enabled(s, e) && Carries(Next(cfg, s, e), t, doc)
    ensures Keeping(s, e, t) && (Carries(s, t, doc) || (e == Act(t, LoadFile) && s.file == Stored(doc)))
  {
    if e.Act? {
      var c := s.callers[e.call];
      if e.call == t {
        CarryAct(cfg, s, c, c.phase.stage, e.action);
      }
    } else {
      CarryControl(s, e, t, doc);
    }
  }

  /** `t` loaded `doc` at step `l` and has carried it ever since. */
  ghost predicate CarriedSince(r: Run, l: nat, j: nat, t: CallId, doc: Document) {
    && l < j < |r.states| && r.events[l] == Act(t, LoadFile) && r.states[l].file == Stored(doc)
    && forall k {:trigger r.events[k]} | l <= k < j :: Keeping(r.states[k], r.events[k], t)
  }

  lemma CarryBack(r: Run, j: nat, t: CallId, doc: Document)
    requires 0 < j < |r.states| && Carries(r.states[j], t, doc)
    ensures Keeping(r.states[j - 1], r.events[j - 1], t)
    ensures Carries(r.states[j - 1], t, doc) || (r.events[j - 1] == Act(t, LoadFile) && r.states[j - 1].file == Stored(doc))
  {
    assert StepAt(r, j - 1);
    CarryStep(r.cfg, r.states[j - 1], r.events[j - 1], t, doc);
  }

  lemma {:induction false} CarryHistory(r: Run, j: nat, t: CallId, doc: Document) returns (l: nat)
    requires j < |r.states| && Carries(r.states[j], t, doc)
    ensures CarriedSince(r, l, j, t, doc)
    decreases j
  {
    assert j > 0;
    CarryBack(r, j, t, doc);
    if r.events[j - 1] == Act(t, LoadFile) && r.states[j - 1].file == Stored(doc) {
      l := j - 1;
    } else {
      l := CarryHistory(r, j - 1, t, doc);
    }
  }

  lemma {:induction false} FileStays(r: Run, l: nat, j: nat, t: CallId, doc: Document)
    requires CarriedSince(r, l, j, t, doc) && forall k {:trigger r.events[k]} | l < k < j :: !Outside(r.events[k])
    ensures r.states[j].file == Stored(doc)
    decreases j
  {
    assert Keeping(r.states[j - 1], r.events[j - 1], t);
    assert StepAt(r, j - 1);
    if l < j - 1 {
      FileStays(r, l, j - 1, t, doc);
    }
    Reachable(r, j - 1);
    FileStep(r.cfg, r.states[j - 1], r.events[j - 1], t);
  }

  /** In every run, a save goes over the document its caller loaded earlier under the same lock hold.
      If outside writers store credentials as Save does, over a document that carries a generation,
      that is still the document in the file if and only if none of them has saved since. */
  lemma SaveOverCurrent(r: Run, j: nat, t: CallId)
    requires j < |r.events| && OwnSave(r.events[j], t)
    ensures t in r.states[j].callers && r.states[j].callers[t].phase.Leading? && r.states[j].callers[t].phase.stage.Saving?
    ensures var doc := r.states[j].callers[t].phase.stage.doc;
            exists l: nat :: CarriedSince(r, l, j, t, doc)
              && (Standing(doc, false).0 && OnlySaves(r, l, j) ==>
                    (r.states[j].file == Stored(doc) <==> forall k :: l < k < j ==> !r.events[k].ForeignSave?))
  {
    assert StepAt(r, j);
    var doc := r.states[j].callers[t].phase.stage.doc;
    var l := CarryHistory(r, j, t, doc);
    if Standing(doc, false).0 && OnlySaves(r, l, j) {
      CurrentExactly(r, l, j, t, doc);
    }
  }

  lemma CurrentExactly(r: Run, l: nat, j: nat, t: CallId, doc: Document)
    requires CarriedSince(r, l, j, t, doc) && Standing(doc, false).0 && OnlySaves(r, l, j)
    ensures r.states[j].file == Stored(doc) <==> forall k {:trigger r.events[k]} | l < k < j :: !r.events[k].ForeignSave?
  {
    GenerationTracks(r, l, j, t);
    if forall k {:trigger r.events[k]} | l < k < j :: !r.events[k].ForeignSave? {
      assert forall k {:trigger r.events[k]} | l <= k < j :: SavesOnly(r.states[k], r.events[k]);
      FileStays(r, l, j, t, doc);
    }
  }
}
