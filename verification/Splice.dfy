/** The TCP splice: two copy loops between two connections, sharing one idle deadline
    (worker/internal/egress/server.go). Scheduling, traffic, faults and the clock belong to the
    environment. */
module Splice {
  import opened Wrappers

  /** How a read or write can end a loop. `TimedOut` is a network timeout other than the deadline. */
  datatype Fault = Eof | Closed | DeadlineExceeded | TimedOut | Reset(id: int)

  predicate IsIdleTimeout(f: Fault) { f.DeadlineExceeded? || f.TimedOut? }

  predicate IsBenignEnd(f: Fault) { f.Eof? || f.Closed? }

  predicate IsBad(f: Fault) { !IsIdleTimeout(f) && !IsBenignEnd(f) }

  datatype Class = NoError | IdleClose(cause: Fault) | SpliceReset(cause: Fault)

  /** The loop over the collected errors. A timeout wins wherever it stands; otherwise the first
      error that is not a normal end is reported. */
  method Classify(faults: seq<Fault>) returns (r: Class)
    ensures r.IdleClose? <==> exists f :: f in faults && IsIdleTimeout(f)
    ensures r.IdleClose? ==> r.cause in faults && IsIdleTimeout(r.cause)
    ensures r.NoError? <==> forall f :: f in faults ==> IsBenignEnd(f)
    ensures r.SpliceReset? ==>
              exists i :: 0 <= i < |faults| && faults[i] == r.cause && IsBad(r.cause)
                          && forall k | 0 <= k < i :: !IsBad(faults[k])
    ensures ClassName(r) == ClassOf(multiset(faults))
  {
    var firstBad: Option<Fault> := None;
    var i := 0;
    while i < |faults|
      invariant 0 <= i <= |faults|
      invariant forall k | 0 <= k < i :: !IsIdleTimeout(faults[k])
      invariant firstBad.None? ==> forall k | 0 <= k < i :: IsBenignEnd(faults[k])
      invariant firstBad.Some? ==>
                  exists b :: 0 <= b < i && faults[b] == firstBad.value && IsBad(firstBad.value)
                              && forall k | 0 <= k < b :: !IsBad(faults[k])
    {
      if IsIdleTimeout(faults[i]) {
        r := IdleClose(faults[i]);
        assert faults[i] in multiset(faults);
        return;
      }
      if IsBad(faults[i]) && firstBad.None? {
        firstBad := Some(faults[i]);
      }
      i := i + 1;
    }
    assert forall f | f in multiset(faults) :: f in faults;
    if firstBad.None? {
      return NoError;
    }
    r := SpliceReset(firstBad.value);
    assert r.cause in multiset(faults);
  }

  datatype Name = Quiet | Idle | Rst

  function ClassName(c: Class): Name {
    match c
    case NoError => Quiet
    case IdleClose(_) => Idle
    case SpliceReset(_) => Rst
  }

  /** The class does not depend on the order in which the errors arrive. */
  ghost function ClassOf(faults: multiset<Fault>): Name {
    if exists f :: f in faults && IsIdleTimeout(f) then Idle
    else if exists f :: f in faults && IsBad(f) then Rst
    else Quiet
  }

  // ----- the two loops -----

  const BUFFER := 32 * 1024

  datatype Direction = ToA | ToB

  /** Where a copy loop stands; a fault returned together with bytes is carried until they are written. */
  datatype Status =
    | Reading
    | Arming(ended: Option<Fault>)
    | Writing(ended: Option<Fault>)
    | Closing(cause: Fault)
    | Reporting(cause: Fault)
    | Ended(cause: Fault)
  {
    predicate Looping() { Reading? || Arming? || Writing? }
  }

  /** `read` and `written` are all bytes the loop has taken from its source and handed to its
      destination; `buffer` is what it still has to write. */
  datatype Loop = Loop(
    status: Status, read: seq<Byte>, written: seq<Byte>, buffer: seq<Byte>, writeFailed: bool, halfClosed: bool)

  const NEW_LOOP := Loop(Reading, [], [], [], false, false)

  datatype State = State(
    toA: Loop, toB: Loop, clock: int, deadline: int, faults: seq<Fault>, returned: Option<seq<Fault>>)
  {
    function At(d: Direction): Loop { if d.ToA? then toA else toB }

    function With(d: Direction, l: Loop): State { if d.ToA? then this.(toA := l) else this.(toB := l) }
  }

  datatype Event =
    | Tick(now: int)
    | Read(d: Direction, bytes: seq<Byte>, fault: Option<Fault>)
    | Arm(d: Direction)
    | Write(d: Direction, accepted: nat, fault: Option<Fault>)
    | CloseWrite(d: Direction)
    | Report(d: Direction)
    | Return

  predicate Enabled(idle: int, s: State, e: Event) {
    match e
    case Tick(now) => now >= s.clock
    case Read(d, bytes, fault) =>
      && s.At(d).status.Reading? && |bytes| <= BUFFER
      && (fault == Some(DeadlineExceeded) ==> bytes == [] && idle > 0 && s.clock >= s.deadline)
    case Arm(d) => s.At(d).status.Arming?
    case Write(d, accepted, fault) =>
      s.At(d).status.Writing? && accepted <= |s.At(d).buffer| && (fault.None? ==> accepted == |s.At(d).buffer|)
    case CloseWrite(d) => s.At(d).status.Closing?
    case Report(d) => s.At(d).status.Reporting?
    case Return => s.toA.status.Ended? && s.toB.status.Ended? && s.returned.None?
  }

  function AfterRead(l: Loop, bytes: seq<Byte>, fault: Option<Fault>): Loop {
    if bytes != [] then l.(status := Arming(fault), read := l.read + bytes, buffer := bytes)
    else if fault.Some? then l.(status := Closing(fault.value))
    else l
  }

  function AfterWrite(l: Loop, accepted: nat, fault: Option<Fault>): Loop
    requires l.status.Writing? && accepted <= |l.buffer|
  {
    var done := l.(written := l.written + l.buffer[..accepted], buffer := []);
    if fault.Some? then done.(status := Closing(fault.value), writeFailed := true)
    else if l.status.ended.Some? then done.(status := Closing(l.status.ended.value))
    else done.(status := Reading)
  }

  function Next(idle: int, s: State, e: Event): State
    requires Enabled(idle, s, e)
  {
    match e
    case Tick(now) => s.(clock := now)
    case Read(d, bytes, fault) => s.With(d, AfterRead(s.At(d), bytes, fault))
    case Arm(d) =>
      var armed := s.With(d, s.At(d).(status := Writing(s.At(d).status.ended)));
      if idle > 0 then armed.(deadline := s.clock + idle) else armed
    case Write(d, accepted, fault) => s.With(d, AfterWrite(s.At(d), accepted, fault))
    case CloseWrite(d) => s.With(d, s.At(d).(status := Reporting(s.At(d).status.cause), halfClosed := true))
    case Report(d) => s.With(d, s.At(d).(status := Ended(s.At(d).status.cause))).(faults := s.faults + [s.At(d).status.cause])
    case Return => s.(returned := Some(s.faults))
  }

  predicate Init(idle: int, s: State) {
    && s.toA == NEW_LOOP && s.toB == NEW_LOOP && s.faults == [] && s.returned.None?
    && (idle > 0 ==> s.deadline == s.clock + idle)
  }

  datatype Trace = Trace(idle: int, states: seq<State>, events: seq<Event>)

  ghost predicate StepAt(r: Trace, i: nat) {
    && i < |r.events| < |r.states|
    && Enabled(r.idle, r.states[i], r.events[i]) && r.states[i + 1] == Next(r.idle, r.states[i], r.events[i])
  }

  ghost predicate IsRun(r: Trace) {
    && |r.states| == |r.events| + 1 && Init(r.idle, r.states[0])
    && forall i | 0 <= i < |r.events| :: StepAt(r, i)
  }

  type Run = r: Trace | IsRun(r) ghost witness Trace(0, [State(NEW_LOOP, NEW_LOOP, 0, 0, [], None)], [])

  /** What one Read or Write call of the source loop returned. */
  datatype Taken = Taken(bytes: seq<Byte>, fault: Option<Fault>)

  datatype Given = Given(accepted: nat, fault: Option<Fault>)

  /** All bytes of the first `n` reads. */
  function Gathered(takes: seq<Taken>, n: nat): seq<Byte>
    requires n <= |takes|
  {
    if n == 0 then [] else Gathered(takes, n - 1) + takes[n - 1].bytes
  }

  /** One copy loop run alone, against an environment that answers its i-th read and write with
      `takes[i]` and `gives[i]` and ends the stream at the latest with the last read. `stop` is
      the iteration that ended the loop. */
  method CopyOne(takes: seq<Taken>, gives: seq<Given>)
    returns (written: seq<Byte>, cause: Fault, writeFailed: bool, stop: nat)
    requires |takes| == |gives| > 0 && takes[|takes| - 1].fault.Some?
    requires forall i | 0 <= i < |takes| ::
               gives[i].accepted <= |takes[i].bytes| && (gives[i].fault.None? ==> gives[i].accepted == |takes[i].bytes|)
    ensures stop < |takes|
    ensures forall i | 0 <= i < stop :: takes[i].fault.None? && (takes[i].bytes == [] || gives[i].fault.None?)
    ensures writeFailed <==> takes[stop].bytes != [] && gives[stop].fault.Some?
    ensures writeFailed ==>
              cause == gives[stop].fault.value
              && written == Gathered(takes, stop) + takes[stop].bytes[..gives[stop].accepted]
    ensures !writeFailed ==> takes[stop].fault == Some(cause) && written == Gathered(takes, stop + 1)
  {
    written, stop := [], 0;
    while true
      invariant stop < |takes|
      invariant forall i | 0 <= i < stop :: takes[i].fault.None? && (takes[i].bytes == [] || gives[i].fault.None?)
      invariant written == Gathered(takes, stop)
      decreases |takes| - stop
    {
      var n := |takes[stop].bytes|;
      if n > 0 {
        written := written + takes[stop].bytes[..gives[stop].accepted];
        if gives[stop].fault.Some? {
          return written, gives[stop].fault.value, true, stop;
        }
      }
      if takes[stop].fault.Some? {
        return written, takes[stop].fault.value, false, stop;
      }
      stop := stop + 1;
    }
  }

  // ----- conservation -----

  /** Nothing is lost, duplicated or reordered in a loop; a loop that ended without a write error
      has delivered everything it read. */
  predicate LoopInv(l: Loop) {
    && (l.status.Reading? ==> l.written == l.read)
    && (l.status.Arming? || l.status.Writing? ==> l.read == l.written + l.buffer)
    && l.written <= l.read
    && (!l.status.Looping() && !l.writeFailed ==> l.written == l.read)
    && (l.status.Looping() || l.status.Closing? ==> !l.halfClosed)
    && (l.status.Reporting? || l.status.Ended? ==> l.halfClosed)
    && (l.status.Looping() ==> !l.writeFailed)
  }

  lemma LoopInvKept(idle: int, s: State, e: Event, d: Direction)
    requires Enabled(idle, s, e) && LoopInv(s.At(d))
    ensures LoopInv(Next(idle, s, e).At(d))
    ensures s.At(d).halfClosed ==> Next(idle, s, e).At(d).halfClosed
                                   && Next(idle, s, e).At(d).read == s.At(d).read
                                   && Next(idle, s, e).At(d).written == s.At(d).written
  {
    if e.Read? && e.d == d && e.bytes != [] {
      assert s.At(d).written <= s.At(d).read + e.bytes;
    }
    if e.Write? && e.d == d {
      var l := s.At(d);
      assert l.read == l.written + l.buffer[..e.accepted] + l.buffer[e.accepted..];
    }
  }

  /** In every state of every schedule. */
  lemma {:induction false} Conservation(r: Run, k: nat, d: Direction)
    requires k < |r.states|
    ensures LoopInv(r.states[k].At(d))
    decreases k
  {
    if k > 0 {
      Conservation(r, k - 1, d);
      assert StepAt(r, k - 1);
      LoopInvKept(r.idle, r.states[k - 1], r.events[k - 1], d);
    }
  }

  /** When a direction is half-closed and no write failed, every byte read, including those that
      came together with the final error, has been delivered; and that never changes afterwards. */
  lemma {:induction false} DeliveredBeforeHalfClose(r: Run, i: nat, j: nat, d: Direction)
    requires i < j < |r.states| && r.events[i] == CloseWrite(d)
    ensures r.states[j].At(d).halfClosed
    ensures r.states[j].At(d).read == r.states[i].At(d).read && r.states[j].At(d).written == r.states[i].At(d).written
    ensures r.states[j].At(d).written <= r.states[j].At(d).read
    ensures !r.states[j].At(d).writeFailed ==> r.states[i].At(d).written == r.states[i].At(d).read
    decreases j
  {
    Conservation(r, j, d);
    assert StepAt(r, j - 1);
    if i + 1 < j {
      DeliveredBeforeHalfClose(r, i, j - 1, d);
      Conservation(r, j - 1, d);
      LoopInvKept(r.idle, r.states[j - 1], r.events[j - 1], d);
    }
  }

  function CauseOf(l: Loop): Option<Fault> {
    if l.status.Ended? then Some(l.status.cause) else None
  }

  /** The errors reported so far are those of the loops that have ended, in either order. */
  predicate Collected(a: Option<Fault>, b: Option<Fault>, faults: seq<Fault>) {
    match (a, b)
    case (None, None) => faults == []
    case (Some(f), None) => faults == [f]
    case (None, Some(g)) => faults == [g]
    case (Some(f), Some(g)) => faults == [f, g] || faults == [g, f]
  }

  predicate ReturnInv(s: State) {
    && (s.returned.Some? ==> s.toA.status.Ended? && s.toB.status.Ended? && s.returned.value == s.faults)
    && Collected(CauseOf(s.toA), CauseOf(s.toB), s.faults)
  }

  lemma ReturnInvKept(idle: int, s: State, e: Event)
    requires Enabled(idle, s, e) && ReturnInv(s)
    ensures ReturnInv(Next(idle, s, e))
  {
  }

  lemma {:induction false} ReturnReachable(r: Run, k: nat)
    requires k < |r.states|
    ensures ReturnInv(r.states[k])
    decreases k
  {
    if k > 0 {
      ReturnReachable(r, k - 1);
      assert StepAt(r, k - 1);
      ReturnInvKept(r.idle, r.states[k - 1], r.events[k - 1]);
    }
  }

  /** The splice returns only after both loops have ended and half-closed their destinations, and
      what it classifies are the two errors they ended with; the class is the same for both
      orders in which the loops can report. */
  lemma ReturnsAfterBothEnd(r: Run, k: nat)
    requires k < |r.states| && r.states[k].returned.Some?
    ensures var s := r.states[k];
            && s.toA.status.Ended? && s.toB.status.Ended? && s.toA.halfClosed && s.toB.halfClosed
            && ClassOf(multiset(s.returned.value)) == ClassOf(multiset{s.toA.status.cause, s.toB.status.cause})
  {
    Conservation(r, k, ToA);
    Conservation(r, k, ToB);
    ReturnReachable(r, k);
    var s := r.states[k];
    var f, g := s.toA.status.cause, s.toB.status.cause;
    assert multiset([f, g]) == multiset([g, f]) == multiset{f, g};
  }

  // ----- the idle deadline -----

  lemma {:induction false} DeadlineHolds(r: Run, m: nat, j: nat)
    requires r.idle > 0 && m <= j < |r.states|
    ensures r.states[m].clock <= r.states[j].clock && r.states[m].deadline <= r.states[j].deadline
    ensures r.states[j].deadline <= r.states[j].clock + r.idle
    decreases j
  {
    if j > 0 {
      assert StepAt(r, j - 1);
      DeadlineHolds(r, if m < j then m else j - 1, j - 1);
    }
  }

  predicate Timeout(e: Event) { e.Read? && e.fault == Some(DeadlineExceeded) }

  predicate Traffic(e: Event) { e.Read? && e.bytes != [] }

  /** A loop that has got beyond a read with bytes has re-armed the deadline in between. */
  lemma {:induction false} TrafficIsArmed(r: Run, k: nat, j: nat)
    requires k < j < |r.states| && Traffic(r.events[k])
    ensures r.states[j].At(r.events[k].d).status.Arming? || exists m :: k < m < j && r.events[m] == Arm(r.events[k].d)
    decreases j
  {
    assert StepAt(r, j - 1);
    if k + 1 < j {
      TrafficIsArmed(r, k, j - 1);
      if r.states[j - 1].At(r.events[k].d).status.Arming? && !r.states[j].At(r.events[k].d).status.Arming? {
        assert r.events[j - 1] == Arm(r.events[k].d);
      }
    }
  }

  /** A read hits the deadline only if, for the whole idle period, no byte was read in either
      direction, apart from a read whose loop has not yet come to re-arming. */
  lemma TimeoutMeansIdle(r: Run, k: nat, j: nat)
    requires k < j < |r.events| && Timeout(r.events[j]) && Traffic(r.events[k])
    ensures r.states[k].clock + r.idle <= r.states[j].clock || r.states[j].At(r.events[k].d).status.Arming?
  {
    assert StepAt(r, j);
    TrafficIsArmed(r, k, j);
    if !r.states[j].At(r.events[k].d).status.Arming? {
      var m :| k < m < j && r.events[m] == Arm(r.events[k].d);
      assert StepAt(r, m);
      DeadlineHolds(r, k, m);
      DeadlineHolds(r, m + 1, j);
    }
  }

  /** Nor does it ever hit the deadline before the idle period has passed since the start. */
  lemma NoEarlyTimeout(r: Run, j: nat)
    requires j < |r.events| && Timeout(r.events[j])
    ensures r.idle > 0 && r.states[0].clock + r.idle <= r.states[j].clock
  {
    assert StepAt(r, j);
    DeadlineHolds(r, 0, j);
  }

  // ----- exactly when a timeout can come early -----

  ghost predicate Extends(r: Trace, longer: Trace) {
    && longer.idle == r.idle && |r.states| == |r.events| + 1 && |longer.states| == |longer.events| + 1
    && r.states <= longer.states && r.events <= longer.events
  }

  function Other(d: Direction): Direction { if d.ToA? then ToB else ToA }

  /** The run ends with a read of bytes in direction `d`. */
  ghost predicate JustRead(r: Trace, d: Direction) {
    |r.events| > 0 && Traffic(r.events[|r.events| - 1]) && r.events[|r.events| - 1].d == d
  }

  function End(r: Trace): State
    requires |r.states| > 0
  {
    r.states[|r.states| - 1]
  }

  /** In the continuation, a read at step `j` times out less than an idle period after the end of `r`. */
  ghost predicate TimesOutEarly(r: Trace, longer: Trace, j: nat) {
    && IsRun(longer) && Extends(r, longer) && |r.events| <= j < |longer.events|
    && Timeout(longer.events[j]) && longer.states[j].clock < End(r).clock + r.idle
  }

  /** The loop can come to a read without re-arming the deadline. */
  predicate Free(l: Loop) { l.status.Reading? || (l.status.Writing? && l.status.ended.None?) }

  /** Either the deadline has been moved behind `limit`, or nobody can read before it is. */
  predicate Bound(s: State, d: Direction, limit: int) {
    s.deadline >= limit || (s.At(d).status.Arming? && !Free(s.At(Other(d))))
  }

  lemma BoundKept(idle: int, s: State, e: Event, d: Direction, limit: int)
    requires Enabled(idle, s, e) && idle > 0 && Bound(s, d, limit) && s.clock + idle >= limit
    ensures Bound(Next(idle, s, e), d, limit) && Next(idle, s, e).clock >= s.clock
  {
  }

  lemma {:induction false} StaysBound(r: Run, m: nat, j: nat, d: Direction, limit: int)
    requires r.idle > 0 && m <= j < |r.states| && Bound(r.states[m], d, limit) && r.states[m].clock + r.idle >= limit
    ensures Bound(r.states[j], d, limit) && r.states[j].clock >= r.states[m].clock
    decreases j
  {
    if m < j {
      StaysBound(r, m, j - 1, d, limit);
      assert StepAt(r, j - 1);
      BoundKept(r.idle, r.states[j - 1], r.events[j - 1], d, limit);
    }
  }

  lemma ArmingAfterRead(r: Run, d: Direction)
    requires JustRead(r, d)
    ensures End(r).At(d).status.Arming?
  {
    assert StepAt(r, |r.events| - 1);
  }

  lemma EarlyNeedsRoom(r: Run, d: Direction, longer: Run, j: nat)
    requires JustRead(r, d) && TimesOutEarly(r, longer, j)
    ensures r.idle > 0 && End(r).deadline < End(r).clock + r.idle && Free(End(r).At(Other(d)))
  {
    var n, limit := |r.events|, End(r).clock + r.idle;
    assert StepAt(longer, j);
    assert longer.states[n] == End(r);
    DeadlineHolds(longer, n, j);
    ArmingAfterRead(r, d);
    if !Free(End(r).At(Other(d))) {
      StaysBound(longer, n, j, d, limit);
    }
  }

  function Appended(r: Trace, e: Event): Trace
    requires |r.states| > 0 && Enabled(r.idle, End(r), e)
  {
    Trace(r.idle, r.states + [Next(r.idle, End(r), e)], r.events + [e])
  }

  lemma AppendRun(r: Trace, e: Event)
    requires IsRun(r) && Enabled(r.idle, End(r), e)
    ensures IsRun(Appended(r, e)) && Extends(r, Appended(r, e))
    ensures End(Appended(r, e)) == Next(r.idle, End(r), e)
  {
    var longer := Appended(r, e);
    forall i | 0 <= i < |longer.events| ensures StepAt(longer, i) {
      if i < |r.events| {
        assert StepAt(r, i);
      }
    }
  }

  lemma ExtendsOn(a: Trace, b: Trace, c: Trace)
    requires Extends(a, b) && Extends(b, c)
    ensures Extends(a, c)
  {
  }

  /** A loop that reads times out once the clock has reached the deadline. */
  lemma TimesOutNow(r: Trace, mid: Trace, d: Direction) returns (longer: Trace, j: nat)
    requires IsRun(r) && IsRun(mid) && Extends(r, mid) && mid.idle > 0 && End(mid).At(d).status.Reading?
    requires End(mid).clock == End(r).clock && End(mid).deadline < End(r).clock + r.idle
    ensures TimesOutEarly(r, longer, j)
  {
    var now := if End(mid).clock < End(mid).deadline then End(mid).deadline else End(mid).clock;
    AppendRun(mid, Tick(now));
    var ticked := Appended(mid, Tick(now));
    var timeout := Read(d, [], Some(DeadlineExceeded));
    AppendRun(ticked, timeout);
    longer, j := Appended(ticked, timeout), |ticked.events|;
    ExtendsOn(r, mid, ticked);
    ExtendsOn(r, ticked, longer);
  }

  lemma EarlyWithRoom(r: Trace, d: Direction) returns (longer: Trace, j: nat)
    requires IsRun(r) && r.idle > 0 && End(r).deadline < End(r).clock + r.idle && Free(End(r).At(Other(d)))
    ensures TimesOutEarly(r, longer, j)
  {
    var l := End(r).At(Other(d));
    if l.status.Reading? {
      longer, j := TimesOutNow(r, r, Other(d));
    } else {
      var write := Write(Other(d), |l.buffer|, None);
      AppendRun(r, write);
      longer, j := TimesOutNow(r, Appended(r, write), Other(d));
    }
  }

  /** Just after bytes were read in one direction, some continuation times out within less than an
      idle period if and only if the deadline has not been moved that far and the other loop can come
      to a read without moving it. */
  lemma EarlyTimeoutExactly(r: Run, d: Direction)
    requires JustRead(r, d)
    ensures (exists longer: Trace, j: nat :: TimesOutEarly(r, longer, j))
       <==> r.idle > 0 && End(r).deadline < End(r).clock + r.idle && Free(End(r).At(Other(d)))
  {
    if r.idle > 0 && End(r).deadline < End(r).clock + r.idle && Free(End(r).At(Other(d))) {
      var longer, j := EarlyWithRoom(r, d);
    }
    if exists longer: Trace, j: nat :: TimesOutEarly(r, longer, j) {
      var longer: Trace, j: nat :| TimesOutEarly(r, longer, j);
      EarlyNeedsRoom(r, d, longer, j);
    }
  }

  lemma Starts(idle: int) returns (r: Trace)
    requires idle > 0
    ensures IsRun(r) && r.idle == idle && End(r) == State(NEW_LOOP, NEW_LOOP, 0, idle, [], None)
  {
    r := Trace(idle, [State(NEW_LOOP, NEW_LOOP, 0, idle, [], None)], []);
  }

  /** Time passes and then bytes are read. */
  lemma ReadsAt(start: Trace, now: int, d: Direction, bytes: seq<Byte>) returns (r: Trace)
    requires IsRun(start) && now >= End(start).clock && End(start).At(d).status.Reading? && 0 < |bytes| <= BUFFER
    ensures IsRun(r) && JustRead(r, d) && r.idle == start.idle && End(r).clock == now
    ensures End(r).deadline == End(start).deadline && End(r).At(Other(d)) == End(start).At(Other(d))
  {
    AppendRun(start, Tick(now));
    var ticked := Appended(start, Tick(now));
    var read := Read(d, bytes, None);
    AppendRun(ticked, read);
    r := Appended(ticked, read);
  }

  /** Such a run exists for every idle period: bytes are read when the deadline is reached, and the
      other direction times out before the deadline is moved. */
  lemma TimeoutDespiteTraffic(idle: int) returns (r: Trace, longer: Trace, j: nat)
    requires idle > 0
    ensures r.idle == idle && IsRun(r) && JustRead(r, ToA) && TimesOutEarly(r, longer, j)
  {
    var start := Starts(idle);
    r := ReadsAt(start, idle, ToA, [1]);
    longer, j := EarlyWithRoom(r, ToA);
  }
}
