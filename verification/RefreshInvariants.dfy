/** What every reachable state of the refresh manager satisfies. */
module RefreshInvariants {
  import opened Wrappers
  import opened RefreshProtocol
  import opened CredentialStore
  import opened Credentials

  /** The file lock is held by exactly the leader that is between taking and releasing it. */
  ghost predicate LockInv(s: State) {
    && (s.lock.Some? ==> s.lock.value in s.callers && s.callers[s.lock.value].Holds())
    && forall t | t in s.callers && s.callers[t].Holds() :: s.lock == Some(t)
  }

  /** Actions under the lock stay under the lock. */
  lemma ActionsStayLocked(cfg: Config, s: State, c: Caller, stage: Stage, action: Action)
    requires ActionEnabled(stage, c.cancelled, action)
    ensures stage.Locked() && NextStage(cfg, s, c, stage, action).Locked()
  {
  }

  lemma LockInvControl(s: State, e: Event)
    requires LockInv(s) && Enabled(s, e) && !e.Act?
    ensures LockInv(Control(s, e))
  {
  }

  lemma LockInvPerform(s: State, call: CallId, stage: Stage, file: File)
    requires LockInv(s) && call in s.callers && s.callers[call].Holds() && stage.Locked()
    ensures LockInv(Perform(s, call, stage, file))
  {
  }

  /** The in-flight channel of a live process belongs to its one unfinished leader. */
  ghost predicate LeaderInv(s: State) {
    && (forall t | t in s.callers && s.callers[t].phase.Leading? :: s.SlotOf(s.callers[t].proc).inFlight == Some(t))
    && (forall p | p in s.slots && p !in s.dead && s.slots[p].inFlight.Some? ::
          var t := s.slots[p].inFlight.value;
          t in s.callers && s.callers[t].proc == p && s.callers[t].phase.Leading?)
  }

  /** A crashed process has no call under way. */
  ghost predicate DeadInv(s: State) {
    forall t | t in s.callers && s.callers[t].proc in s.dead :: s.callers[t].phase.Over()
  }

  lemma DeadInvControl(s: State, e: Event)
    requires DeadInv(s) && Enabled(s, e) && !e.Act?
    ensures DeadInv(Control(s, e))
  {
  }

  lemma LeaderInvControl(s: State, e: Event)
    requires LeaderInv(s) && DeadInv(s) && Enabled(s, e) && !e.Act?
    ensures LeaderInv(Control(s, e))
  {
  }

  /** The log records each published flight once, and its leader has returned that outcome. */
  ghost predicate LogInv(s: State) {
    && (forall k | 0 <= k < |s.log| ::
          var f := s.log[k];
          f.leader in s.callers && s.callers[f.leader].proc == f.proc && s.callers[f.leader].phase == Led(f.outcome)
          && f.proc in s.slots)
    && (forall i, j | 0 <= i < j < |s.log| :: s.log[i].leader != s.log[j].leader)
  }

  /** A leader that has returned has closed its channel. */
  ghost predicate LedInv(s: State) {
    forall t | t in s.callers && s.callers[t].phase.Led? :: s.Closed(t)
  }

  ghost predicate ClosedIn(log: seq<Flight>, proc: ProcId, chan: CallId) {
    exists k :: 0 <= k < |log| && log[k].leader == chan && log[k].proc == proc
  }

  /** A follower waits on a channel of its own process that is open under a live leader or already closed. */
  ghost predicate WaitInv(s: State) {
    forall t | t in s.callers ::
      var c := s.callers[t];
      && (c.phase.Waiting? ==> ClosedIn(s.log, c.proc, c.phase.chan) || s.SlotOf(c.proc).inFlight == Some(c.phase.chan))
      && (c.phase.Woken? ==> ClosedIn(s.log, c.proc, c.phase.chan))
  }

  /** The outcome of the latest published flight of a process. */
  function LastOutcome(log: seq<Flight>, proc: ProcId): Outcome {
    if log == [] then NO_OUTCOME
    else if log[|log| - 1].proc == proc then log[|log| - 1].outcome
    else LastOutcome(log[..|log| - 1], proc)
  }

  ghost predicate LastInv(s: State) {
    forall p | p in s.slots && p !in s.dead :: s.slots[p].last == LastOutcome(s.log, p)
  }

  /** `outcome` is that of a flight of `proc` published at or after the one led by `chan`. */
  ghost predicate FromFlight(log: seq<Flight>, proc: ProcId, chan: CallId, outcome: Outcome) {
    exists k, l :: 0 <= k <= l < |log| && log[k].leader == chan && log[k].proc == proc
                   && log[l].proc == proc && outcome == log[l].outcome.(shared := true)
  }

  ghost predicate JoinInv(s: State) {
    forall t | t in s.callers && s.callers[t].phase.Joined? ::
      FromFlight(s.log, s.callers[t].proc, s.callers[t].phase.chan, s.callers[t].phase.outcome)
  }

  lemma LogGrows(log: seq<Flight>, f: Flight, proc: ProcId, chan: CallId)
    ensures ClosedIn(log, proc, chan) ==> ClosedIn(log + [f], proc, chan)
    ensures f.leader == chan && f.proc == proc ==> ClosedIn(log + [f], proc, chan)
    ensures forall outcome :: FromFlight(log, proc, chan, outcome) ==> FromFlight(log + [f], proc, chan, outcome)
  {
    if ClosedIn(log, proc, chan) {
      var k :| 0 <= k < |log| && log[k].leader == chan && log[k].proc == proc;
      assert (log + [f])[k] == log[k];
    }
    if f.leader == chan && f.proc == proc {
      assert (log + [f])[|log|] == f;
    }
    forall outcome | FromFlight(log, proc, chan, outcome) ensures FromFlight(log + [f], proc, chan, outcome) {
      var k, l :| 0 <= k <= l < |log| && log[k].leader == chan && log[k].proc == proc
                  && log[l].proc == proc && outcome == log[l].outcome.(shared := true);
      assert (log + [f])[k] == log[k] && (log + [f])[l] == log[l];
    }
  }

  /** Every flight of a process is at or before the one whose outcome is its latest. */
  lemma {:induction false} LastIsLatest(log: seq<Flight>, proc: ProcId, k: nat)
    requires k < |log| && log[k].proc == proc
    ensures exists l :: k <= l < |log| && log[l].proc == proc && LastOutcome(log, proc) == log[l].outcome
  {
    var n := |log| - 1;
    if log[n].proc != proc {
      LastIsLatest(log[..n], proc, k);
      var l :| k <= l < n && log[..n][l].proc == proc && LastOutcome(log[..n], proc) == log[..n][l].outcome;
      assert log[l].proc == proc;
    }
  }

  lemma LogInvControl(s: State, e: Event)
    requires LogInv(s) && Enabled(s, e) && !e.Act?
    ensures LogInv(Control(s, e))
  {
  }

  lemma LedInvControl(s: State, e: Event)
    requires LedInv(s) && Enabled(s, e) && !e.Act?
    ensures LedInv(Control(s, e))
  {
    var s' := Control(s, e);
    forall t | t in s'.callers && s'.callers[t].phase.Led? ensures s'.Closed(t) {
      if e.Publish? && t == e.call {
        assert s'.log[|s.log|].leader == t;
      } else {
        assert s.Closed(t);
        var k :| 0 <= k < |s.log| && s.log[k].leader == t;
        assert s'.log[k] == s.log[k];
      }
    }
  }

  lemma WaitInvControl(s: State, e: Event)
    requires WaitInv(s) && DeadInv(s) && LeaderInv(s) && LogInv(s) && Enabled(s, e) && !e.Act?
    ensures WaitInv(Control(s, e))
  {
    var s' := Control(s, e);
    forall t | t in s'.callers
      ensures var c := s'.callers[t];
              && (c.phase.Waiting? ==> ClosedIn(s'.log, c.proc, c.phase.chan) || s'.SlotOf(c.proc).inFlight == Some(c.phase.chan))
              && (c.phase.Woken? ==> ClosedIn(s'.log, c.proc, c.phase.chan))
    {
      var c := s'.callers[t];
      if e.Publish? && (c.phase.Waiting? || c.phase.Woken?) {
        LogGrows(s.log, s'.log[|s.log|], c.proc, c.phase.chan);
      }
      if e.Wake? && e.call == t {
        var k :| 0 <= k < |s.log| && s.log[k].leader == c.phase.chan;
        assert ClosedIn(s.log, s.callers[c.phase.chan].proc, c.phase.chan);
      }
    }
  }

  lemma LastInvControl(s: State, e: Event)
    requires LastInv(s) && LogInv(s) && Enabled(s, e) && !e.Act?
    ensures LastInv(Control(s, e))
  {
    var s' := Control(s, e);
    if e.Publish? {
      assert s'.log[..|s.log|] == s.log;
    }
    forall p | p in s'.slots && p !in s'.dead ensures s'.slots[p].last == LastOutcome(s'.log, p) {
      if e.Enter? && p !in s.slots {
        NoFlights(s.log, p);
      }
    }
  }

  lemma {:induction false} NoFlights(log: seq<Flight>, proc: ProcId)
    requires forall k | 0 <= k < |log| :: log[k].proc != proc
    ensures LastOutcome(log, proc) == NO_OUTCOME
  {
    if log != [] {
      NoFlights(log[..|log| - 1], proc);
    }
  }

  lemma JoinInvControl(s: State, e: Event)
    requires JoinInv(s) && WaitInv(s) && LastInv(s) && LogInv(s) && DeadInv(s) && Enabled(s, e) && !e.Act?
    ensures JoinInv(Control(s, e))
  {
    var s' := Control(s, e);
    forall t | t in s'.callers && s'.callers[t].phase.Joined?
      ensures FromFlight(s'.log, s'.callers[t].proc, s'.callers[t].phase.chan, s'.callers[t].phase.outcome)
    {
      var c := s'.callers[t];
      if e.ReadLast? && e.call == t {
        var k :| 0 <= k < |s.log| && s.log[k].leader == c.phase.chan && s.log[k].proc == c.proc;
        LastIsLatest(s.log, c.proc, k);
      } else if e.Publish? {
        LogGrows(s.log, s'.log[|s.log|], c.proc, c.phase.chan);
      }
    }
  }

  ghost predicate Inv(s: State) {
    LockInv(s) && DeadInv(s) && LeaderInv(s) && LogInv(s) && LedInv(s) && WaitInv(s) && LastInv(s) && JoinInv(s)
  }

  lemma InvControl(s: State, e: Event)
    requires Inv(s) && Enabled(s, e) && !e.Act?
    ensures Inv(Control(s, e))
  {
    LockInvControl(s, e);
    DeadInvControl(s, e);
    LeaderInvControl(s, e);
    LogInvControl(s, e);
    LedInvControl(s, e);
    WaitInvControl(s, e);
    LastInvControl(s, e);
    JoinInvControl(s, e);
  }

  lemma InvPerform(s: State, call: CallId, stage: Stage, file: File)
    requires Inv(s) && call in s.callers && s.callers[call].Holds() && stage.Locked()
    ensures Inv(Perform(s, call, stage, file))
  {
    LockInvPerform(s, call, stage, file);
    var s' := Perform(s, call, stage, file);
    forall t | t in s'.callers && s'.callers[t].phase.Led? ensures s'.Closed(t) {
      assert s.Closed(t);
    }
  }

  /** Every event keeps the invariant. */
  lemma InvKept(cfg: Config, s: State, e: Event)
    requires Inv(s) && Enabled(s, e)
    ensures Inv(Next(cfg, s, e))
  {
    if e.Act? {
      var c := s.callers[e.call];
      ActionsStayLocked(cfg, s, c, c.phase.stage, e.action);
      InvPerform(s, e.call, NextStage(cfg, s, c, c.phase.stage, e.action), NextFile(s, c.phase.stage, e.action));
    } else {
      InvControl(s, e);
    }
  }

  /** Every state of every run satisfies the invariant. */
  lemma {:induction false} Reachable(r: Run, k: nat)
    requires k < |r.states|
    ensures Inv(r.states[k])
  {
    if k > 0 {
      Reachable(r, k - 1);
      assert StepAt(r, k - 1);
      InvKept(r.cfg, r.states[k - 1], r.events[k - 1]);
    }
  }
}
