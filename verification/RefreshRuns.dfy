/** Properties of whole runs of the refresh manager. */
module RefreshRuns {
  import opened Wrappers
  import opened RefreshProtocol
  import opened RefreshInvariants
  import opened CredentialStore
  import opened Credentials

  // ----- one Refresher -----

  lemma {:induction false} LogOnlyGrows(r: Run, i: nat, j: nat)
    requires i <= j < |r.states|
    ensures r.states[i].log <= r.states[j].log
    decreases j
  {
    if i < j {
      LogOnlyGrows(r, i, j - 1);
      LogStepAt(r, j - 1);
    }
  }

  lemma LogStepAt(r: Run, k: nat)
    requires k < |r.events|
    ensures r.states[k].log <= r.states[k + 1].log
    ensures r.events[k].Publish? ==> r.states[k + 1].Closed(r.events[k].call)
  {
    assert StepAt(r, k);
    LogStep(r.cfg, r.states[k], r.events[k]);
  }

  lemma LogStep(cfg: Config, s: State, e: Event)
    requires Enabled(s, e)
    ensures s.log <= Next(cfg, s, e).log
    ensures e.Publish? ==> Next(cfg, s, e).Closed(e.call)
  {
    if e.Publish? {
      assert Next(cfg, s, e).log[|s.log|].leader == e.call;
    }
  }

  /** In every reachable state a process has at most one leader. */
  lemma AtMostOneLeader(r: Run, k: nat, t: CallId, u: CallId)
    requires k < |r.states| && t in r.states[k].callers && u in r.states[k].callers
    requires r.states[k].callers[t].phase.Leading? && r.states[k].callers[u].phase.Leading?
    requires r.states[k].callers[t].proc == r.states[k].callers[u].proc
    ensures t == u
  {
    Reachable(r, k);
  }

  /** No channel is closed twice. */
  lemma ChannelClosedOnce(r: Run, i: nat, j: nat)
    requires i < |r.events| && j < |r.events| && r.events[i].Publish? && r.events[j] == r.events[i]
    ensures i == j
  {
    if i != j {
      var a, b := if i < j then i else j, if i < j then j else i;
      var call := r.events[a].call;
      assert StepAt(r, a) && StepAt(r, b);
      LogStepAt(r, a);
      LogOnlyGrows(r, a + 1, b);
      var k :| 0 <= k < |r.states[a + 1].log| && r.states[a + 1].log[k].leader == call;
      assert r.states[b].log[k].leader == call;
      Reachable(r, b);
      assert false;
    }
  }

  /** A blocked follower always has an unfinished leader, in its own process, to wait for. */
  lemma BlockedOnlyByLiveLeader(r: Run, k: nat, t: CallId)
    requires k < |r.states| && t in r.states[k].callers && r.states[k].callers[t].phase.Waiting?
    requires !r.states[k].Closed(r.states[k].callers[t].phase.chan)
    ensures var leader := r.states[k].callers[t].phase.chan;
            leader in r.states[k].callers && r.states[k].callers[leader].phase.Leading?
            && r.states[k].callers[leader].proc == r.states[k].callers[t].proc
  {
    Reachable(r, k);
  }

  ghost predicate LeftInv(s: State) {
    forall t | t in s.callers && s.callers[t].phase.Left? :: s.callers[t].cancelled
  }

  lemma LeftControl(s: State, e: Event)
    requires Enabled(s, e) && !e.Act? && LeftInv(s)
    ensures LeftInv(Control(s, e))
  {
  }

  lemma LeftPerform(s: State, call: CallId, stage: Stage, file: File)
    requires call in s.callers && LeftInv(s)
    ensures LeftInv(Perform(s, call, stage, file))
  {
  }

  lemma LeftKept(cfg: Config, s: State, e: Event)
    requires Enabled(s, e) && LeftInv(s)
    ensures LeftInv(Next(cfg, s, e))
  {
    if e.Act? {
      var c := s.callers[e.call];
      LeftPerform(s, e.call, NextStage(cfg, s, c, c.phase.stage, e.action), NextFile(s, c.phase.stage, e.action));
    } else {
      LeftControl(s, e);
    }
  }

  /** Only a cancelled follower leaves without an outcome. */
  lemma {:induction false} LeftWasCancelled(r: Run, k: nat)
    requires k < |r.states|
    ensures LeftInv(r.states[k])
  {
    if k > 0 {
      LeftWasCancelled(r, k - 1);
      assert StepAt(r, k - 1);
      LeftKept(r.cfg, r.states[k - 1], r.events[k - 1]);
    }
  }

  /** A follower that returns takes along, marked shared, the outcome of a flight of its process
      published at or after the one it joined, and leaves without one only if it was cancelled; a
      leader's channel is closed when it returns. */
  lemma FollowerOutcome(r: Run, k: nat, t: CallId)
    requires k < |r.states| && t in r.states[k].callers
    ensures var c := r.states[k].callers[t];
            && (c.phase.Joined? ==> c.phase.outcome.shared && FromFlight(r.states[k].log, c.proc, c.phase.chan, c.phase.outcome))
            && (c.phase.Left? ==> c.cancelled)
            && (c.phase.Led? ==> r.states[k].Closed(t))
  {
    Reachable(r, k);
    LeftWasCancelled(r, k);
  }

  /** Publishing ends the flight, makes its outcome the latest of the process, and lets every caller
      that waits for it go on. */
  lemma PublishReleases(r: Run, j: nat, t: CallId)
    requires j < |r.events| && r.events[j] == Publish(t)
    ensures t in r.states[j].callers && r.states[j].callers[t].phase.Leading? && r.states[j].callers[t].phase.stage.Publishing?
    ensures var proc, outcome, after := r.states[j].callers[t].proc, r.states[j].callers[t].phase.stage.outcome, r.states[j + 1];
            && !r.states[j].Closed(t)
            && after.SlotOf(proc).inFlight.None? && LastOutcome(after.log, proc) == after.SlotOf(proc).last == outcome
            && forall u | u in after.callers && after.callers[u].phase == Waiting(t) :: Enabled(after, Wake(u))
  {
    assert StepAt(r, j);
    LogStepAt(r, j);
    Reachable(r, j);
  }

  /** What a woken follower takes along is the latest outcome of its process at that moment. */
  lemma ShareIsLatest(r: Run, j: nat, t: CallId)
    requires j < |r.events| && r.events[j] == ReadLast(t)
    ensures t in r.states[j].callers && r.states[j].callers[t].phase.Woken?
    ensures var c := r.states[j].callers[t];
            && r.states[j].Closed(c.phase.chan)
            && t in r.states[j + 1].callers
            && r.states[j + 1].callers[t].phase == Joined(LastOutcome(r.states[j].log, c.proc).(shared := true), c.phase.chan)
  {
    assert StepAt(r, j);
    Reachable(r, j);
    WokenClosed(r.states[j], t);
  }

  lemma WokenClosed(s: State, t: CallId)
    requires Inv(s) && t in s.callers && s.callers[t].phase.Woken?
    ensures s.Closed(s.callers[t].phase.chan) && s.callers[t].proc in s.slots
  {
    var k :| 0 <= k < |s.log| && s.log[k].leader == s.callers[t].phase.chan && s.log[k].proc == s.callers[t].proc;
    assert s.log[k].proc in s.slots;
  }

  // ----- the file lock -----

  lemma HoldStep(cfg: Config, s: State, e: Event, t: CallId)
    requires Enabled(s, e) && t in Next(cfg, s, e).callers && Next(cfg, s, e).callers[t].Holds()
    ensures e == Acquire(t) || (t in s.callers && s.callers[t].Holds())
  {
    if e.Act? {
      var c := s.callers[e.call];
      ActionsStayLocked(cfg, s, c, c.phase.stage, e.action);
    }
  }

  /** The lock has been held by `t` ever since it was acquired at step `a`. */
  ghost predicate HeldSince(r: Run, a: nat, j: nat, t: CallId) {
    && a < j < |r.states| && r.events[a] == Acquire(t)
    && forall m {:trigger r.states[m]} | a < m <= j :: r.states[m].lock == Some(t)
  }

  lemma HoldBack(r: Run, j: nat, t: CallId)
    requires j < |r.states| && t in r.states[j].callers && r.states[j].callers[t].Holds()
    ensures j > 0 && r.states[j].lock == Some(t)
    ensures r.events[j - 1] == Acquire(t) || (t in r.states[j - 1].callers && r.states[j - 1].callers[t].Holds())
  {
    Reachable(r, j);
    assert j > 0;
    assert StepAt(r, j - 1);
    HoldStep(r.cfg, r.states[j - 1], r.events[j - 1], t);
  }

  lemma {:induction false} HoldHistory(r: Run, j: nat, t: CallId) returns (a: nat)
    requires j < |r.states| && t in r.states[j].callers && r.states[j].callers[t].Holds()
    ensures HeldSince(r, a, j, t)
    decreases j
  {
    HoldBack(r, j, t);
    if r.events[j - 1] == Acquire(t) {
      a := j - 1;
    } else {
      a := HoldHistory(r, j - 1, t);
    }
  }

  /** `t` has loaded a credential and neither stored a new one nor let go of the lock since. */
  predicate Working(s: State, t: CallId) {
    && t in s.callers && s.callers[t].phase.Leading?
    && AtWork(s.callers[t].phase.stage)
  }

  function Current(s: State, t: CallId): Credential
    requires Working(s, t)
  {
    s.callers[t].phase.stage.current
  }

  predicate Requesting(s: State, t: CallId) {
    Working(s, t) && (s.callers[t].phase.stage.Sending? || s.callers[t].phase.stage.Awaiting?)
  }

  lemma WorkControl(s: State, e: Event, t: CallId)
    requires Enabled(s, e) && !e.Act? && Working(Control(s, e), t)
    ensures Working(s, t) && Current(s, t) == Current(Control(s, e), t)
  {
  }

  predicate AtWork(stage: Stage) { stage.Deciding? || stage.Sending? || stage.Awaiting? || stage.Failing? }

  lemma WorkAct(cfg: Config, s: State, c: Caller, stage: Stage, action: Action)
    requires ActionEnabled(stage, c.cancelled, action) && AtWork(NextStage(cfg, s, c, stage, action))
    ensures var current := NextStage(cfg, s, c, stage, action).current;
            || (AtWork(stage) && stage.current == current)
            || (action.LoadFile? && stage.Holding? && s.file.Stored? && current == Decode(s.file.doc))
  {
  }

  lemma WorkStep(cfg: Config, s: State, e: Event, t: CallId)
    requires Enabled(s, e) && Working(Next(cfg, s, e), t)
    ensures (Working(s, t) && Current(s, t) == Current(Next(cfg, s, e), t))
            || (e == Act(t, LoadFile) && t in s.callers && s.callers[t].Holds() && s.file.Stored?
                && Current(Next(cfg, s, e), t) == Decode(s.file.doc))
  {
    if e.Act? {
      var c := s.callers[e.call];
      if e.call == t {
        WorkAct(cfg, s, c, c.phase.stage, e.action);
      }
    } else {
      WorkControl(s, e, t);
    }
  }

  predicate WorkingOn(s: State, t: CallId, current: Credential) { Working(s, t) && Current(s, t) == current }

  predicate FileHolds(s: State, current: Credential) { s.file.Stored? && current == Decode(s.file.doc) }

  /** `t` loaded the file at step `l`, under a lock hold begun at step `a`, and has been working on
      the credential it got ever since. */
  ghost predicate LoadedSince(r: Run, a: nat, l: nat, j: nat, t: CallId, current: Credential) {
    && HeldSince(r, a, j, t) && a < l < j && r.events[l] == Act(t, LoadFile)
    && forall m {:trigger r.states[m]} | l < m <= j :: WorkingOn(r.states[m], t, current)
  }

  lemma WorkBack(r: Run, j: nat, t: CallId)
    requires j < |r.states| && Working(r.states[j], t)
    ensures j > 0 && r.states[j].lock == Some(t) && t in r.states[j - 1].callers && r.states[j - 1].callers[t].Holds()
    ensures (Working(r.states[j - 1], t) && Current(r.states[j - 1], t) == Current(r.states[j], t))
            || (r.events[j - 1] == Act(t, LoadFile) && FileHolds(r.states[j - 1], Current(r.states[j], t)))
  {
    Reachable(r, j);
    assert j > 0;
    assert StepAt(r, j - 1);
    WorkStep(r.cfg, r.states[j - 1], r.events[j - 1], t);
  }

  lemma {:induction false} LoadHistory(r: Run, j: nat, t: CallId) returns (a: nat, l: nat)
    requires j < |r.states| && Working(r.states[j], t)
    ensures LoadedSince(r, a, l, j, t, Current(r.states[j], t)) && FileHolds(r.states[l], Current(r.states[j], t))
    decreases j
  {
    WorkBack(r, j, t);
    if Working(r.states[j - 1], t) && Current(r.states[j - 1], t) == Current(r.states[j], t) {
      a, l := LoadHistory(r, j - 1, t);
      LoadExtends(r, a, l, j, t, Current(r.states[j], t));
    } else {
      a := HoldHistory(r, j - 1, t);
      l := j - 1;
      LoadStarts(r, a, j, t, Current(r.states[j], t));
    }
  }

  lemma LoadStarts(r: Run, a: nat, j: nat, t: CallId, current: Credential)
    requires 0 < j < |r.states| && HeldSince(r, a, j - 1, t) && r.states[j].lock == Some(t)
    requires r.events[j - 1] == Act(t, LoadFile) && WorkingOn(r.states[j], t, current)
    ensures LoadedSince(r, a, j - 1, j, t, current)
  {
  }

  lemma LoadExtends(r: Run, a: nat, l: nat, j: nat, t: CallId, current: Credential)
    requires 0 < j < |r.states| && LoadedSince(r, a, l, j - 1, t, current) && r.states[j].lock == Some(t)
    requires WorkingOn(r.states[j], t, current)
    ensures LoadedSince(r, a, l, j, t, current)
  {
  }

  /** The decision that lets a request go out. */
  predicate Warranted(cfg: Config, s: State, t: CallId)
    requires Working(s, t)
  {
    var c, current := s.callers[t], Current(s, t);
    && !IsApiKey(current) && TrimSpace(current.refreshToken) != ""
    && (c.force || NeedsRefresh(current, s.clock, Skew(cfg, c.proc)))
  }

  lemma RequestStep(cfg: Config, s: State, e: Event, t: CallId)
    requires Enabled(s, e) && Requesting(Next(cfg, s, e), t)
    ensures Requesting(s, t) || (e == Act(t, Decide) && Working(s, t) && Warranted(cfg, s, t))
  {
  }

  /** `t` decided at step `d` that a request is warranted. */
  ghost predicate DecidedAt(r: Run, d: nat, j: nat, t: CallId) {
    && d < j < |r.states| && r.events[d] == Act(t, Decide) && Working(r.states[d], t) && Warranted(r.cfg, r.states[d], t)
    && forall m {:trigger r.states[m]} | d < m <= j :: Requesting(r.states[m], t)
  }

  lemma RequestBack(r: Run, j: nat, t: CallId)
    requires j < |r.states| && Requesting(r.states[j], t)
    ensures j > 0
    ensures Requesting(r.states[j - 1], t)
            || (r.events[j - 1] == Act(t, Decide) && Working(r.states[j - 1], t) && Warranted(r.cfg, r.states[j - 1], t))
  {
    assert j > 0;
    assert StepAt(r, j - 1);
    RequestStep(r.cfg, r.states[j - 1], r.events[j - 1], t);
  }

  lemma {:induction false} DecisionHistory(r: Run, j: nat, t: CallId) returns (d: nat)
    requires j < |r.states| && Requesting(r.states[j], t)
    ensures DecidedAt(r, d, j, t)
    decreases j
  {
    RequestBack(r, j, t);
    if Requesting(r.states[j - 1], t) {
      d := DecisionHistory(r, j - 1, t);
    } else {
      d := j - 1;
    }
  }

  /** In every run, a token request is sent only by a caller that holds the file lock and, under
      that same hold, first loaded the file and then found that the loaded credential needs a
      refresh (or was forced). */
  lemma RequestUnderLock(r: Run, j: nat, t: CallId)
    requires j < |r.events| && r.events[j] == Act(t, Send)
    ensures Working(r.states[j], t)
    ensures var current := Current(r.states[j], t);
            exists a: nat, l: nat, d: nat :: LoadedSince(r, a, l, j, t, current) && FileHolds(r.states[l], current)
                              && l < d && DecidedAt(r, d, j, t)
  {
    assert StepAt(r, j);
    var a, l := LoadHistory(r, j, t);
    var d := DecisionHistory(r, j, t);
    LoadBeforeDecision(r, l, d, j, t);
  }

  lemma LoadBeforeDecision(r: Run, l: nat, d: nat, j: nat, t: CallId)
    requires l < j < |r.states| && d < j
    requires r.events[l] == Act(t, LoadFile) && r.events[d] == Act(t, Decide)
    requires forall m {:trigger r.states[m]} | d < m <= j :: Requesting(r.states[m], t)
    ensures l < d
  {
    assert StepAt(r, l);
  }
}
