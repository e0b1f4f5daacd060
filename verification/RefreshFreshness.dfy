/** After a refresh has been stored: nobody asks again before it runs out, cancelled calls store
    nothing, and the generation test tells whether someone else has stored a credential. */
module RefreshFreshness {
  import opened Wrappers
  import opened RefreshProtocol
  import opened RefreshInvariants
  import opened RefreshRuns
  import opened CredentialStore
  import opened Credentials
  import opened StoreLaws
  import opened TokenExchange

  // ----- grants -----

  /** What a leader is about to store came from a grant. */
  ghost predicate GrantInv(s: State) {
    forall t | t in s.callers && s.callers[t].phase.Leading? ::
      var stage := s.callers[t].phase.stage;
      stage.Committing? || stage.Saving? ==> Storable(stage.granted)
  }

  lemma GrantReceived(current: Credential, doc: Document, attempt: nat, tries: int, reply: Reply, now: int)
    ensures var stage := Received(current, doc, attempt, tries, Evaluate(reply, current, now));
            stage.Committing? ==> Storable(stage.granted)
  {
    if Evaluate(reply, current, now).Granted? {
      GrantIsValid(reply, current, now);
      var c := Evaluate(reply, current, now).credential;
      assert c.(generation := current.generation) == c;
    }
  }

  lemma GrantInvKept(cfg: Config, s: State, e: Event)
    requires GrantInv(s) && Enabled(s, e)
    ensures GrantInv(Next(cfg, s, e))
  {
    if e.Act? {
      var c := s.callers[e.call];
      GrantAct(cfg, s, c, c.phase.stage, e.action);
    } else {
      GrantControl(s, e);
    }
  }

  lemma GrantControl(s: State, e: Event)
    requires GrantInv(s) && Enabled(s, e) && !e.Act?
    ensures GrantInv(Control(s, e))
  {
  }

  lemma GrantAct(cfg: Config, s: State, c: Caller, stage: Stage, action: Action)
    requires ActionEnabled(stage, c.cancelled, action) && (stage.Committing? ==> Storable(stage.granted))
    ensures var next := NextStage(cfg, s, c, stage, action);
            next.Committing? || next.Saving? ==> Storable(next.granted)
  {
    if action.Receive? {
      GrantReceived(stage.current, stage.doc, stage.attempt, Tries(cfg.maxTries(c.proc)), action.reply, s.clock);
    }
  }

  lemma {:induction false} GrantReachable(r: Run, k: nat)
    requires k < |r.states|
    ensures GrantInv(r.states[k])
  {
    if k > 0 {
      GrantReachable(r, k - 1);
      assert StepAt(r, k - 1);
      GrantInvKept(r.cfg, r.states[k - 1], r.events[k - 1]);
    }
  }

  // ----- quiet after a save -----

  /** A write that does not go through the lock. */
  predicate Outside(e: Event) { e.Foreign? || e.ForeignSave? }

  /** The file holds `doc` and no caller is beyond the decision on it. */
  ghost predicate Quiet(s: State, doc: Document) {
    && s.file == Stored(doc)
    && forall t | t in s.callers && s.callers[t].phase.Leading? :: QuietStage(s.callers[t].phase.stage, doc)
  }

  predicate QuietStage(stage: Stage, doc: Document) {
    || stage.Locking? || stage.Holding? || stage.Unlocking? || stage.Publishing?
    || (stage.Deciding? && stage.doc == doc && stage.current == Decode(doc))
  }

  lemma QuietControl(s: State, e: Event, doc: Document)
    requires Quiet(s, doc) && Enabled(s, e) && !e.Act? && !Outside(e)
    ensures Quiet(Control(s, e), doc)
  {
  }

  lemma QuietAct(cfg: Config, s: State, c: Caller, stage: Stage, action: Action, doc: Document)
    requires s.file == Stored(doc) && QuietStage(stage, doc) && ActionEnabled(stage, c.cancelled, action)
    ensures NextFile(s, stage, action) == s.file
    ensures action.LoadFile? || action.Decide?
    ensures action.LoadFile? ==> QuietStage(NextStage(cfg, s, c, stage, action), doc)
    ensures action.Decide? ==>
              var next := NextStage(cfg, s, c, stage, action);
              next == Decision(Decode(doc), doc, c.force, s.clock, Skew(cfg, c.proc))
              && (next.Sending? || QuietStage(next, doc))
  {
  }

  /** One step from a quiet state: still quiet, or a decision to send a request. */
  lemma QuietStep(cfg: Config, s: State, e: Event, doc: Document)
    requires Quiet(s, doc) && Enabled(s, e) && !Outside(e)
    ensures Quiet(Next(cfg, s, e), doc)
            || (e.Act? && e.action.Decide?
                && Decision(Decode(doc), doc, s.callers[e.call].force, s.clock, Skew(cfg, s.callers[e.call].proc)).Sending?)
  {
    if e.Act? {
      var c := s.callers[e.call];
      QuietAct(cfg, s, c, c.phase.stage, e.action, doc);
      QuietPerform(s, e.call, NextStage(cfg, s, c, c.phase.stage, e.action), doc);
    } else {
      QuietControl(s, e, doc);
    }
  }

  lemma QuietPerform(s: State, call: CallId, stage: Stage, doc: Document)
    requires Quiet(s, doc) && call in s.callers
    ensures QuietStage(stage, doc) ==> Quiet(Perform(s, call, stage, s.file), doc)
  {
  }

  /** Whoever stores a credential leaves a quiet state behind: nobody else holds the lock. */
  lemma QuietAfterSave(s: State, call: CallId, outcome: Outcome, doc: Document)
    requires LockInv(s) && call in s.callers && s.callers[call].Holds()
    ensures Quiet(Perform(s, call, Unlocking(outcome), Stored(doc)), doc)
  {
  }

  /** Deciding on this document sends no request before the given expiry nears. */
  ghost predicate Lasting(doc: Document, expiresAt: int) {
    forall later, skew :: Decision(Decode(doc), doc, false, later, skew).Sending? ==> Expiring(expiresAt, later, skew)
  }

  lemma GrantLasts(granted: Credential, doc: Document, now: int)
    requires Storable(granted) && granted.expiresAt > 0
    ensures Lasting(Saved(granted, doc, now), granted.expiresAt)
  {
    var d := Saved(granted, doc, now);
    forall later, skew
      ensures Decision(Decode(d), d, false, later, skew).Sending? ==> Expiring(granted.expiresAt, later, skew)
    {
      FreshAfterSave(granted, doc, now, later, skew);
    }
  }

  /** The step at which a grant reaches the file. */
  predicate StoresGrant(s: State, e: Event) {
    && Enabled(s, e) && e.Act? && e.action.SaveFile? && !e.action.write.FailedBefore?
    && Valid(s.callers[e.call].phase.stage.granted)
  }

  function StoredGrant(s: State, e: Event): Credential
    requires StoresGrant(s, e)
  {
    s.callers[e.call].phase.stage.granted
  }

  function StoredDocument(s: State, e: Event): Document
    requires StoresGrant(s, e)
  {
    Saved(StoredGrant(s, e), s.callers[e.call].phase.stage.doc, s.clock)
  }

  lemma QuietAtSave(cfg: Config, s: State, e: Event)
    requires LockInv(s) && StoresGrant(s, e)
    ensures Quiet(Next(cfg, s, e), StoredDocument(s, e))
  {
    var c := s.callers[e.call];
    var next := NextStage(cfg, s, c, c.phase.stage, e.action);
    assert next.Unlocking?;
    QuietAfterSave(s, e.call, next.outcome, StoredDocument(s, e));
  }

  /** A decision taken when the stored grant was due. */
  predicate DueDecision(cfg: Config, s: State, e: Event, expiresAt: int) {
    && e.Act? && e.action.Decide? && e.call in s.callers
    && Expiring(expiresAt, s.clock, Skew(cfg, s.callers[e.call].proc))
  }

  predicate ForcedDecision(s: State, e: Event) {
    e.Act? && e.action.Decide? && e.call in s.callers && s.callers[e.call].force
  }

  /** No writer from outside and no forced decision at steps after `i` and before `m`. */
  ghost predicate Undisturbed(r: Run, i: nat, m: nat) {
    && m <= |r.events|
    && forall k {:trigger r.events[k]} | i < k < m :: !Outside(r.events[k]) && !ForcedDecision(r.states[k], r.events[k])
  }

  lemma QuietOrDue(cfg: Config, s: State, e: Event, doc: Document, expiresAt: int)
    requires Quiet(s, doc) && Lasting(doc, expiresAt) && Enabled(s, e) && !Outside(e)
    requires e.Act? && e.action.Decide? ==> !s.callers[e.call].force
    ensures Quiet(Next(cfg, s, e), doc) || DueDecision(cfg, s, e, expiresAt)
  {
    QuietStep(cfg, s, e, doc);
  }

  lemma QuietFirst(r: Run, i: nat)
    requires i < |r.events| && StoresGrant(r.states[i], r.events[i]) && StoredGrant(r.states[i], r.events[i]).expiresAt > 0
    ensures Quiet(r.states[i + 1], StoredDocument(r.states[i], r.events[i]))
    ensures Lasting(StoredDocument(r.states[i], r.events[i]), StoredGrant(r.states[i], r.events[i]).expiresAt)
  {
    assert StepAt(r, i);
    Reachable(r, i);
    GrantReachable(r, i);
    QuietAtSave(r.cfg, r.states[i], r.events[i]);
    GrantLasts(StoredGrant(r.states[i], r.events[i]), r.states[i].callers[r.events[i].call].phase.stage.doc, r.states[i].clock);
  }

  lemma QuietNext(r: Run, k: nat, doc: Document, expiresAt: int)
    requires k < |r.events| && Quiet(r.states[k], doc) && Lasting(doc, expiresAt) && !Outside(r.events[k])
    requires !ForcedDecision(r.states[k], r.events[k])
    ensures Quiet(r.states[k + 1], doc) || DueDecision(r.cfg, r.states[k], r.events[k], expiresAt)
  {
    assert StepAt(r, k);
    QuietOrDue(r.cfg, r.states[k], r.events[k], doc, expiresAt);
  }

  lemma {:induction false} QuietUntilDue(r: Run, i: nat, m: nat, doc: Document, expiresAt: int)
    requires i < m <= |r.events| && Undisturbed(r, i, m) && Lasting(doc, expiresAt) && Quiet(r.states[i + 1], doc)
    ensures Quiet(r.states[m], doc) || exists k :: i < k < m && DueDecision(r.cfg, r.states[k], r.events[k], expiresAt)
    decreases m
  {
    if i + 1 < m {
      QuietUntilDue(r, i, m - 1, doc, expiresAt);
      if Quiet(r.states[m - 1], doc) {
        assert !Outside(r.events[m - 1]) && !ForcedDecision(r.states[m - 1], r.events[m - 1]);
        QuietNext(r, m - 1, doc, expiresAt);
      }
    }
  }

  /** In every run: once a refresh with an expiry is stored at step `i`, and with no outside writer
      or forced call since, a request at a later step `j` is sent only if, in between, some caller's
      decision read a clock that had reached that expiry minus its skew. */
  lemma NoRequestBeforeExpiry(r: Run, i: nat, j: nat)
    requires i < j < |r.events| && Undisturbed(r, i, j)
    requires StoresGrant(r.states[i], r.events[i]) && StoredGrant(r.states[i], r.events[i]).expiresAt > 0
    requires r.events[j].Act? && r.events[j].action.Send?
    ensures exists k :: i < k < j && DueDecision(r.cfg, r.states[k], r.events[k], StoredGrant(r.states[i], r.events[i]).expiresAt)
  {
    QuietFirst(r, i);
    QuietUntilDue(r, i, j, StoredDocument(r.states[i], r.events[i]), StoredGrant(r.states[i], r.events[i]).expiresAt);
    assert StepAt(r, j);
  }

  // ----- cancellation -----

  /** `t` was cancelled before it passed the last check of its context. */
  predicate CancelledInTime(s: State, t: CallId) {
    && t in s.callers && s.callers[t].cancelled
    && !(s.callers[t].phase.Leading? && s.callers[t].phase.stage.Saving?)
  }

  lemma CancelledStep(cfg: Config, s: State, e: Event, t: CallId)
    requires CancelledInTime(s, t) && Enabled(s, e)
    ensures CancelledInTime(Next(cfg, s, e), t)
  {
    if e.Act? && e.call == t {
      var stage := s.callers[t].phase.stage;
      assert !NextStage(cfg, s, s.callers[t], stage, e.action).Saving?;
    }
  }

  /** A call cancelled before its last context check never stores anything, in any continuation. */
  lemma {:induction false} NoSaveAfterCancellation(r: Run, i: nat, j: nat, t: CallId)
    requires i <= j < |r.events| && CancelledInTime(r.states[i], t)
    ensures CancelledInTime(r.states[j], t) && !(r.events[j].Act? && r.events[j].call == t && r.events[j].action.SaveFile?)
    decreases j
  {
    if i < j {
      NoSaveAfterCancellation(r, i, j - 1, t);
      CancelledAt(r, j - 1, t);
    }
    CancelledAt(r, j, t);
  }

  lemma CancelledAt(r: Run, k: nat, t: CallId)
    requires k < |r.events| && CancelledInTime(r.states[k], t)
    ensures CancelledInTime(r.states[k + 1], t)
    ensures !(r.events[k].Act? && r.events[k].call == t && r.events[k].action.SaveFile?)
  {
    assert StepAt(r, k);
    CancelledStep(r.cfg, r.states[k], r.events[k], t);
  }

  // ----- the generation test -----

  predicate OwnSave(e: Event, t: CallId) { e.Act? && e.call == t && e.action.SaveFile? }

  /** `t` holds the lock and the step is not its save. */
  predicate Keeping(s: State, e: Event, t: CallId) {
    t in s.callers && s.callers[t].Holds() && !OwnSave(e, t)
  }

  /** Only the lock holder, while saving, or an outside writer changes the file. */
  lemma FileStep(cfg: Config, s: State, e: Event, t: CallId)
    requires LockInv(s) && Enabled(s, e) && Keeping(s, e, t) && !Outside(e)
    ensures Next(cfg, s, e).file == s.file
  {
  }

  lemma ForeignSaveGrows(s: State, credential: Credential)
    requires s.file.Stored? && StoredGeneration(s.file.doc) < MAX_INT64
    requires !IsApiKey(credential) && Standing(s.file.doc, false).0
    ensures var after := Saved(credential, s.file.doc, s.clock);
            Standing(after, false).0 && Standing(s.file.doc, false).1 < Standing(after, false).1
  {
    SaveGrows(credential, s.file.doc, Saved(credential, s.file.doc, s.clock), s.clock, false);
  }

  /** Outside writers, if any, store OAuth or setup-token credentials, and the 64-bit generation does not run out. */
  predicate SavesOnly(s: State, e: Event) {
    && !e.Foreign?
    && (e.ForeignSave? ==> !IsApiKey(e.credential) && s.file.Stored? && StoredGeneration(s.file.doc) < MAX_INT64)
  }

  ghost predicate OnlySaves(r: Run, l: nat, j: nat) {
    && j <= |r.events|
    && forall k {:trigger r.events[k]} | l <= k < j :: SavesOnly(r.states[k], r.events[k])
  }

  /** The generation of the file has moved on from `origin` exactly when an outside save happened in between. */
  ghost predicate Tracks(r: Run, l: nat, m: nat, origin: int) {
    && m < |r.states| && r.states[m].file.Stored? && Standing(r.states[m].file.doc, false).0
    && origin <= Standing(r.states[m].file.doc, false).1
    && (Standing(r.states[m].file.doc, false).1 == origin <==> forall k {:trigger r.events[k]} | l < k < m :: !r.events[k].ForeignSave?)
  }

  /** What one step does to the file while `t` is working. */
  ghost predicate FileMoves(s: State, e: Event, s': State) {
    && s'.file.Stored? && Standing(s'.file.doc, false).0 && s.file.Stored?
    && (!e.ForeignSave? ==> s'.file == s.file)
    && (e.ForeignSave? ==> Standing(s.file.doc, false).1 < Standing(s'.file.doc, false).1)
  }

  ghost predicate MovesFrom(s: State, e: Event, s': State) {
    s.file.Stored? && Standing(s.file.doc, false).0 ==> FileMoves(s, e, s')
  }

  lemma MovesAt(r: Run, k: nat, t: CallId)
    requires k < |r.events|
    requires Keeping(r.states[k], r.events[k], t)
    requires SavesOnly(r.states[k], r.events[k])
    ensures MovesFrom(r.states[k], r.events[k], r.states[k + 1])
  {
    assert StepAt(r, k);
    if r.events[k].ForeignSave? {
      if Standing(r.states[k].file.doc, false).0 {
        ForeignSaveGrows(r.states[k], r.events[k].credential);
      }
    } else {
      Reachable(r, k);
      FileStep(r.cfg, r.states[k], r.events[k], t);
    }
  }

  lemma TracksExtend(r: Run, l: nat, m: nat, origin: int)
    requires l < m && Tracks(r, l, m, origin) && m < |r.events| && FileMoves(r.states[m], r.events[m], r.states[m + 1])
    ensures Tracks(r, l, m + 1, origin)
  {
  }

  lemma {:induction false} TracksFrom(r: Run, l: nat, m: nat)
    requires l < m < |r.states| && !r.events[l].ForeignSave?
    requires r.states[l].file.Stored? && Standing(r.states[l].file.doc, false).0
    requires forall k {:trigger r.events[k]} | l <= k < m :: MovesFrom(r.states[k], r.events[k], r.states[k + 1])
    ensures Tracks(r, l, m, Standing(r.states[l].file.doc, false).1)
    decreases m
  {
    assert MovesFrom(r.states[m - 1], r.events[m - 1], r.states[m]);
    if l + 1 < m {
      TracksFrom(r, l, m - 1);
      TracksExtend(r, l, m - 1, Standing(r.states[l].file.doc, false).1);
    }
  }

  lemma GenerationTracks(r: Run, l: nat, m: nat, t: CallId)
    requires l < m < |r.states| && OnlySaves(r, l, m)
    requires forall k {:trigger r.events[k]} | l <= k < m :: Keeping(r.states[k], r.events[k], t)
    requires !r.events[l].ForeignSave? && r.states[l].file.Stored? && Standing(r.states[l].file.doc, false).0
    ensures Tracks(r, l, m, Standing(r.states[l].file.doc, false).1)
  {
    StepsMove(r, l, m, t);
    TracksFrom(r, l, m);
  }

  lemma StepsMove(r: Run, l: nat, m: nat, t: CallId)
    requires l < m < |r.states| && OnlySaves(r, l, m)
    requires forall k {:trigger r.events[k]} | l <= k < m :: Keeping(r.states[k], r.events[k], t)
    ensures forall k {:trigger r.events[k]} | l <= k < m :: MovesFrom(r.states[k], r.events[k], r.states[k + 1])
  {
    forall k {:trigger r.events[k]} | l <= k < m ensures MovesFrom(r.states[k], r.events[k], r.states[k + 1]) {
      assert SavesOnly(r.states[k], r.events[k]);
      assert Keeping(r.states[k], r.events[k], t);
      MovesAt(r, k, t);
    }
  }

  /** In every run where outside writers store credentials as Save does, over a document that
      carries a generation: when a caller re-reads the file after a failed refresh, the generation
      differs from the one it loaded if and only if some outside save happened since its load. */
  lemma RecheckDetectsSaves(r: Run, j: nat, t: CallId)
    requires j < |r.events| && r.events[j] == Act(t, Recheck)
    ensures Working(r.states[j], t)
    ensures exists a: nat, l: nat :: LoadedSince(r, a, l, j, t, Current(r.states[j], t))
              && FileHolds(r.states[l], Current(r.states[j], t))
              && (Standing(r.states[l].file.doc, false).0 && OnlySaves(r, l, j) ==>
                    r.states[j].file.Stored?
                    && (Decode(r.states[j].file.doc).generation != Current(r.states[j], t).generation
                        <==> exists k :: l < k < j && r.events[k].ForeignSave?))
  {
    assert StepAt(r, j);
    var a, l := LoadHistory(r, j, t);
    if Standing(r.states[l].file.doc, false).0 && OnlySaves(r, l, j) {
      WorkingKeeps(r, a, l, j, t, Current(r.states[j], t));
      GenerationTracks(r, l, j, t);
    }
  }

  lemma WorkingKeeps(r: Run, a: nat, l: nat, j: nat, t: CallId, current: Credential)
    requires LoadedSince(r, a, l, j, t, current)
    ensures forall k {:trigger r.events[k]} | l <= k < j :: Keeping(r.states[k], r.events[k], t)
  {
    forall k {:trigger r.events[k]} | l <= k < j ensures Keeping(r.states[k], r.events[k], t) {
      assert StepAt(r, k);
      assert k > l ==> WorkingOn(r.states[k], t, current);
    }
  }
}
