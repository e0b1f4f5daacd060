/** The refresh manager as a state machine: any number of Ensure calls, in any number of
    processes, over one credential file guarded by an advisory lock
    (worker/internal/oauth/refresher.go, worker/internal/credential/store.go). The clock, the
    token server, cancellation, crashes and writers that ignore the lock are events of the
    environment. */
module RefreshProtocol {
  import opened Wrappers
  import opened Credentials
  import opened CredentialStore
  import opened TokenExchange

  type CallId = nat
  type ProcId = nat

  datatype Failure =
    | Cancelled | LockFailed | LoadFailed | ApiKeyMissing | RefreshTokenMissing
    | Rejected(error: TokenError) | SaveFailed

  datatype Outcome = Outcome(credential: Credential, refreshed: bool, shared: bool, failure: Option<Failure>)

  const NO_OUTCOME := Outcome(NO_CREDENTIAL, false, false, None)

  function Failed(failure: Failure): Outcome { NO_OUTCOME.(failure := Some(failure)) }

  /** Per-process settings as configured; the defaults apply to non-positive values. */
  datatype Config = Config(skew: ProcId -> int, maxTries: ProcId -> int)

  const FIVE_MINUTES: int := 300 * 1_000_000_000

  function Skew(cfg: Config, proc: ProcId): int {
    if cfg.skew(proc) <= 0 then FIVE_MINUTES else cfg.skew(proc)
  }

  /** The fields of one Refresher that its mutex guards. A channel is named by the call that made it. */
  datatype Slot = Slot(inFlight: Option<CallId>, last: Outcome)

  const NEW_SLOT := Slot(None, NO_OUTCOME)

  /** How far the leader of a flight has got. From Holding to Unlocking it holds the file lock. */
  datatype Stage =
    | Locking
    | Holding
    | Deciding(current: Credential, doc: Document)
    | Sending(current: Credential, doc: Document, attempt: nat)
    | Awaiting(current: Credential, doc: Document, attempt: nat)
    | Failing(current: Credential, error: TokenError)
    | Committing(granted: Credential, doc: Document)
    | Saving(granted: Credential, doc: Document)
    | Unlocking(outcome: Outcome)
    | Publishing(outcome: Outcome)
  {
    predicate Locked() { !Locking? && !Publishing? }
  }

  datatype Phase =
    | Entering
    | Waiting(chan: CallId)
    | Woken(chan: CallId)
    | Leading(stage: Stage)
    | Led(outcome: Outcome)
    | Joined(outcome: Outcome, chan: CallId)
    | Left
    | Crashed
  {
    predicate Over() { Led? || Joined? || Left? || Crashed? }
  }

  datatype Caller = Caller(proc: ProcId, force: bool, cancelled: bool, phase: Phase) {
    predicate Holds() { phase.Leading? && phase.stage.Locked() }
  }

  /** A published flight. Publishing closes the channel of its leader. */
  datatype Flight = Flight(proc: ProcId, leader: CallId, outcome: Outcome)

  datatype State = State(
    file: File, lock: Option<CallId>, clock: int,
    slots: map<ProcId, Slot>, callers: map<CallId, Caller>, dead: set<ProcId>, log: seq<Flight>)
  {
    function SlotOf(proc: ProcId): Slot { if proc in slots then slots[proc] else NEW_SLOT }

    predicate Closed(chan: CallId) { exists k :: 0 <= k < |log| && log[k].leader == chan }
  }

  /** One action of a leader between taking and releasing the file lock. */
  datatype Action =
    | LoadFile | Decide | Send | QuitBackoff | Receive(reply: Reply) | GiveUp | Recheck | Commit | SaveFile(write: Write)

  /** `Foreign` is a writer that ignores the lock and replaces the file by anything; `ForeignSave`
      is one that ignores the lock but stores a credential the way Save does. */
  datatype Event =
    | Tick(now: int)
    | Spawn(call: CallId, proc: ProcId, force: bool)
    | Cancel(call: CallId)
    | Enter(call: CallId)
    | Wake(call: CallId)
    | Abandon(call: CallId)
    | ReadLast(call: CallId)
    | Acquire(call: CallId)
    | LockFails(call: CallId, failure: Failure)
    | Act(call: CallId, action: Action)
    | Unlock(call: CallId)
    | Publish(call: CallId)
    | Crash(proc: ProcId)
    | Foreign(file: File)
    | ForeignSave(credential: Credential)

  predicate ActionEnabled(stage: Stage, cancelled: bool, action: Action) {
    match action
    case LoadFile => stage.Holding?
    case Decide => stage.Deciding?
    case Send => stage.Sending?
    case QuitBackoff => stage.Sending? && stage.attempt > 0 && cancelled
    case Receive(_) => stage.Awaiting?
    case GiveUp => stage.Failing? && cancelled
    case Recheck => stage.Failing? && !cancelled
    case Commit => stage.Committing?
    case SaveFile(_) => stage.Saving?
  }

  /** The decision taken on a freshly loaded credential. */
  function Decision(current: Credential, doc: Document, force: bool, now: int, skew: int): Stage {
    if IsApiKey(current) then
      Unlocking(if Valid(current) then NO_OUTCOME.(credential := current) else Failed(ApiKeyMissing))
    else if !force && !NeedsRefresh(current, now, skew) then Unlocking(NO_OUTCOME.(credential := current))
    else if TrimSpace(current.refreshToken) == "" then Unlocking(Failed(RefreshTokenMissing))
    else Sending(current, doc, 0)
  }

  /** After a failed refresh: another writer may have stored a newer credential meanwhile. */
  function Rechecked(current: Credential, error: TokenError, file: File, now: int, skew: int): Stage {
    if file.Stored? && Decode(file.doc).generation != current.generation && !NeedsRefresh(Decode(file.doc), now, skew)
    then Unlocking(NO_OUTCOME.(credential := Decode(file.doc), shared := true))
    else Unlocking(Failed(Rejected(error)))
  }

  function Received(current: Credential, doc: Document, attempt: nat, tries: int, exchange: Exchange): Stage {
    match exchange
    case Granted(granted) => Committing(granted.(generation := current.generation), doc)
    case Denied(error) =>
      if Retryable(error) && attempt + 1 < tries then Sending(current, doc, attempt + 1) else Failing(current, error)
  }

  function AfterWrite(granted: Credential, doc: Document, now: int, write: Write): Stage {
    if !Valid(granted) || !write.Written? then Unlocking(Failed(SaveFailed))
    else Unlocking(NO_OUTCOME.(credential := Stamped(granted, doc, now), refreshed := true))
  }

  function NextStage(cfg: Config, s: State, c: Caller, stage: Stage, action: Action): Stage
    requires ActionEnabled(stage, c.cancelled, action)
  {
    match action
    case LoadFile =>
      if s.file.Stored? then Deciding(Decode(s.file.doc), s.file.doc) else Unlocking(Failed(LoadFailed))
    case Decide => Decision(stage.current, stage.doc, c.force, s.clock, Skew(cfg, c.proc))
    case Send => Awaiting(stage.current, stage.doc, stage.attempt)
    case QuitBackoff => Unlocking(Failed(Cancelled))
    case Receive(reply) =>
      Received(stage.current, stage.doc, stage.attempt, Tries(cfg.maxTries(c.proc)), Evaluate(reply, stage.current, s.clock))
    case GiveUp => Unlocking(Failed(Cancelled))
    case Recheck => Rechecked(stage.current, stage.error, s.file, s.clock, Skew(cfg, c.proc))
    case Commit => if c.cancelled then Unlocking(Failed(Cancelled)) else Saving(stage.granted, stage.doc)
    case SaveFile(write) => AfterWrite(stage.granted, stage.doc, s.clock, write)
  }

  function NextFile(s: State, stage: Stage, action: Action): File {
    if action.SaveFile? && stage.Saving? && Valid(stage.granted) && !action.write.FailedBefore?
    then Stored(Saved(stage.granted, stage.doc, s.clock))
    else s.file
  }

  predicate Enabled(s: State, e: Event) {
    match e
    case Tick(_) => true
    case Spawn(call, proc, _) => call !in s.callers && proc !in s.dead
    case Cancel(call) => call in s.callers
    case Enter(call) => call in s.callers && s.callers[call].phase.Entering?
    case Wake(call) => call in s.callers && s.callers[call].phase.Waiting? && s.Closed(s.callers[call].phase.chan)
    case Abandon(call) => call in s.callers && s.callers[call].phase.Waiting? && s.callers[call].cancelled
    case ReadLast(call) => call in s.callers && s.callers[call].phase.Woken?
    case Acquire(call) => call in s.callers && s.callers[call].phase == Leading(Locking) && s.lock.None?
    case LockFails(call, failure) =>
      call in s.callers && s.callers[call].phase == Leading(Locking)
      && (failure.LockFailed? || (failure.Cancelled? && s.callers[call].cancelled))
    case Act(call, action) =>
      call in s.callers && s.callers[call].phase.Leading?
      && ActionEnabled(s.callers[call].phase.stage, s.callers[call].cancelled, action)
    case Unlock(call) => call in s.callers && s.callers[call].phase.Leading? && s.callers[call].phase.stage.Unlocking?
    case Publish(call) => call in s.callers && s.callers[call].phase.Leading? && s.callers[call].phase.stage.Publishing?
    case Crash(_) => true
    case Foreign(_) => true
    case ForeignSave(credential) => s.file.Stored? && Valid(credential)
  }

  function Move(s: State, call: CallId, phase: Phase): State
    requires call in s.callers
  {
    s.(callers := s.callers[call := s.callers[call].(phase := phase)])
  }

  /** First critical section of Ensure: join the flight under way, or start one. */
  function Entered(slot: Slot, call: CallId): (Slot, Phase) {
    if slot.inFlight.Some? then (slot, Waiting(slot.inFlight.value))
    else (slot.(inFlight := Some(call)), Leading(Locking))
  }

  /** Last critical section of a leader: the flight is over and its outcome recorded. */
  function Published(slot: Slot, outcome: Outcome): Slot { slot.(inFlight := None, last := outcome) }

  /** What a follower that was woken takes along. */
  function SharedFrom(slot: Slot): Outcome { slot.last.(shared := true) }

  function CrashCaller(c: Caller, proc: ProcId): Caller {
    if c.proc == proc && !c.phase.Over() then c.(phase := Crashed) else c
  }

  /** Every event but the leader's own actions under the lock. */
  function Control(s: State, e: Event): State
    requires Enabled(s, e) && !e.Act?
  {
    match e
    case Tick(now) => s.(clock := now)
    case Spawn(call, proc, force) => s.(callers := s.callers[call := Caller(proc, force, false, Entering)])
    case Cancel(call) => s.(callers := s.callers[call := s.callers[call].(cancelled := true)])
    case Enter(call) =>
      var proc := s.callers[call].proc;
      var (slot, phase) := Entered(s.SlotOf(proc), call);
      Move(s, call, phase).(slots := s.slots[proc := slot])
    case Wake(call) => Move(s, call, Woken(s.callers[call].phase.chan))
    case Abandon(call) => Move(s, call, Left)
    case ReadLast(call) =>
      Move(s, call, Joined(SharedFrom(s.SlotOf(s.callers[call].proc)), s.callers[call].phase.chan))
    case Acquire(call) => Move(s, call, Leading(Holding)).(lock := Some(call))
    case LockFails(call, failure) => Move(s, call, Leading(Publishing(Failed(failure))))
    case Unlock(call) => Move(s, call, Leading(Publishing(s.callers[call].phase.stage.outcome))).(lock := None)
    case Publish(call) =>
      var c := s.callers[call];
      Move(s, call, Led(c.phase.stage.outcome)).(
        slots := s.slots[c.proc := Published(s.SlotOf(c.proc), c.phase.stage.outcome)],
        log := s.log + [Flight(c.proc, call, c.phase.stage.outcome)])
    case Crash(proc) =>
      s.(callers := map t | t in s.callers :: CrashCaller(s.callers[t], proc),
         lock := if s.lock.Some? && s.lock.value in s.callers && s.callers[s.lock.value].proc == proc then None else s.lock,
         dead := s.dead + {proc})
    case Foreign(file) => s.(file := file)
    case ForeignSave(credential) => s.(file := Stored(Saved(credential, s.file.doc, s.clock)))
  }

  function Perform(s: State, call: CallId, stage: Stage, file: File): State
    requires call in s.callers
  {
    Move(s, call, Leading(stage)).(file := file)
  }

  function Next(cfg: Config, s: State, e: Event): State
    requires Enabled(s, e)
  {
    if e.Act? then
      var c := s.callers[e.call];
      Perform(s, e.call, NextStage(cfg, s, c, c.phase.stage, e.action), NextFile(s, c.phase.stage, e.action))
    else Control(s, e)
  }

  predicate Init(s: State) {
    s.lock.None? && s.slots == map[] && s.callers == map[] && s.dead == {} && s.log == []
  }

  /** States linked by enabled events, from an initial one. */
  datatype Trace = Trace(cfg: Config, states: seq<State>, events: seq<Event>)

  ghost predicate StepAt(r: Trace, i: nat) {
    && i < |r.events| < |r.states|
    && Enabled(r.states[i], r.events[i]) && r.states[i + 1] == Next(r.cfg, r.states[i], r.events[i])
  }

  ghost predicate IsRun(r: Trace) {
    && |r.states| == |r.events| + 1 && Init(r.states[0])
    && forall i | 0 <= i < |r.events| :: StepAt(r, i)
  }

  const START := State(Missing, None, 0, map[], map[], {}, [])

  /** A run of the system. */
  type Run = r: Trace | IsRun(r) ghost witness Trace(Config(p => 0, p => 0), [START], [])

  /** The critical sections of Ensure on the Refresher's own fields. */
  class Refresher {
    var inFlight: Option<CallId>
    var last: Outcome

    ghost function View(): Slot reads this { Slot(inFlight, last) }

    constructor ()
      ensures View() == NEW_SLOT
    {
      inFlight, last := None, NO_OUTCOME;
    }

    method Begin(call: CallId) returns (phase: Phase)
      modifies this
      ensures (View(), phase) == Entered(old(View()), call)
    {
      if inFlight.Some? {
        return Waiting(inFlight.value);
      }
      inFlight := Some(call);
      phase := Leading(Locking);
    }

    method Finish(outcome: Outcome)
      modifies this
      ensures View() == Published(old(View()), outcome)
    {
      last := outcome;
      inFlight := None;
    }

    method Share() returns (outcome: Outcome)
      ensures outcome == SharedFrom(View())
    {
      outcome := last.(shared := true);
    }
  }
}
