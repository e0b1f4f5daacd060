/** What the panel says about a slot: account status, credential status, pool status and group
    (web/src/lib/vm-status.ts). The clock and the status-text patterns are parameters. */
module SlotStatus {
  import opened Wrappers
  import opened Text

  // ----- slot records -----

  /** A time field: missing, not a date, or milliseconds. */
  datatype Stamp = Absent | Unparsable | At(ms: int)

  /** A numeric field: missing, not a finite number, or a number. */
  datatype Amount = Missing | NotFinite | Finite(value: real)

  datatype AvailabilityKey = KeyNone | KeyBad | KeyOff | KeyQuota | KeySessions | KeyCool | KeyOk

  datatype Availability = Availability(key: AvailabilityKey, usable: bool, text: string, reason: string)

  datatype ScheduleState = Unset | On | Restricted | Off

  datatype CredStatus = CredStatus(text: string, key: string, tone: string)

  datatype Probe = Probe(at: Stamp, ok: bool, source: string, error: string, transport: bool)

  datatype Fable = Fable(
    banned: bool, planDenied: bool, status: int, error: string, kind: string, ok: bool, limited: bool,
    utilization: Amount, probedAt: Stamp)

  datatype Worker = Worker(lastError: string, lastErrorClass: string, expiresAt: Stamp)

  /** Missing texts are empty, missing switches are false unless the code tells them apart. */
  datatype Vm = Vm(
    id: string, name: string, hasToken: bool, hasRefresh: bool, cred: CredStatus,
    availability: Option<Availability>,
    schedulable: Option<bool>, scheduleManual: bool, scheduleState: ScheduleState,
    scheduleDisabledReason: string, restrictionReason: string, cooldownReason: string, refreshError: string,
    cooldownUntil: int, expiresAt: Stamp, refreshedAt: Stamp,
    lastProbe: Option<Probe>, probeSource: string, worker: Worker, fable: Fable,
    utilization5h: Amount, utilization7d: Amount, utilization7dOi: Amount,
    status5h: string, status7d: string, status7dOi: string, nearLimit: bool, weeklyFableOnly: bool,
    codexWindows: seq<CodexWindow>, codex: bool, accountTier: string, usageHasFable: bool,
    reset5h: Stamp, reset7d: Stamp, reset7dOi: Stamp)

  datatype CodexWindow = CodexWindow(id: string, usedPercent: Amount)

  /** The regular expressions that the code tests texts with. */
  datatype Patterns = Patterns(
    grantDeath: string -> bool, revoked: string -> bool, testSource: string -> bool, transport: string -> bool,
    oauthError: string -> bool, permission: string -> bool, quotaReason: string -> bool, coolReason: string -> bool,
    quota5h: string -> bool, quota7d: string -> bool, fableText: string -> bool, unusableText: string -> bool,
    limitText: string -> bool, cautionText: string -> bool, windowText: string -> bool)

  predicate Mentions(s: string, word: string) {
    word <= s || (s != [] && Mentions(s[1..], word))
  }

  lemma {:induction false} NotMentioned(s: string, word: string)
    requires word != [] && forall i | 0 <= i < |s| :: s[i] != word[0]
    ensures !Mentions(s, word)
  {
    if s != [] {
      assert s[0] != word[0];
      NotMentioned(s[1..], word);
    }
  }

  // ----- percentages -----

  /** A share 0-1 or a percentage, as a percentage. */
  function Pct(v: Amount): (p: real)
    ensures 0.0 <= p <= 100.0
  {
    match v
    case Finite(n) => if n < 0.0 then 0.0 else if n > 100.0 then 100.0 else if n > 1.0 then n else n * 100.0
    case _ => 0.0
  }

  predicate WindowLimited(status: string, used: real) {
    Lower(status) == "rejected" || Lower(status) == "rate_limited" || used >= 100.0
  }

  predicate WindowWarn(status: string, used: real) {
    Lower(status) == "allowed_warning" || Lower(status) == "warning" || used >= 85.0
  }

  // ----- probes and grants -----

  function Or(a: string, b: string): string { if a != [] then a else b }

  /** The nonempty texts joined with blanks. */
  function Blob(texts: seq<string>): string { Join(Inked(texts), " ") }

  function Inked(texts: seq<string>): seq<string> {
    if texts == [] then [] else (if texts[0] == [] then [] else [texts[0]]) + Inked(texts[1..])
  }

  predicate FablePlanDenied(fb: Fable, p: Patterns) {
    var error := Or(fb.error, fb.kind);
    if fb.planDenied then true
    else if fb.status == 401 || p.oauthError(error) then false
    else fb.status == 403 || p.permission(error)
  }

  predicate ProbeOlderThanRefresh(vm: Vm) {
    var probe := if vm.lastProbe.None? || vm.lastProbe.value.at.Absent? then vm.fable.probedAt else vm.lastProbe.value.at;
    probe.At? && vm.refreshedAt.At? && probe.ms < vm.refreshedAt.ms
  }

  predicate IsTestChatProbe(vm: Vm, p: Patterns) {
    p.testSource(if vm.lastProbe.Some? then vm.lastProbe.value.source else "")
  }

  predicate IsUsageProbeOk(vm: Vm) {
    && vm.lastProbe.Some? && vm.lastProbe.value.ok
    && var source := Or(vm.lastProbe.value.source, vm.probeSource);
       source == "" || source == "vm-oauth-usage" || source == "official-cc-usage" || source == "messages-headers"
  }

  predicate IsTransportProbe(vm: Vm, p: Patterns) {
    && vm.lastProbe.Some?
    && (vm.lastProbe.value.transport
        || p.transport(Blob([vm.lastProbe.value.error, vm.worker.lastError, vm.worker.lastErrorClass])))
  }

  predicate ProbeOverridesGrant(vm: Vm, p: Patterns) {
    IsTestChatProbe(vm, p) || IsUsageProbeOk(vm) || IsTransportProbe(vm, p)
  }

  function ReasonOf(vm: Vm): string { if vm.availability.Some? then vm.availability.value.reason else "" }

  predicate HasKey(vm: Vm, key: AvailabilityKey) { vm.availability.Some? && vm.availability.value.key == key }

  predicate ProbeTaintedAvailability(vm: Vm, p: Patterns) {
    HasKey(vm, KeyBad) && (ProbeOverridesGrant(vm, p) || (IsTestChatProbe(vm, p) && p.grantDeath(ReasonOf(vm))))
  }

  function Unless(skip: bool, s: string): string { if skip then "" else s }

  predicate GrantRevoked(vm: Vm, p: Patterns) {
    if ProbeOlderThanRefresh(vm) then false
    else
      var skip := ProbeOverridesGrant(vm, p);
      p.revoked(Blob([
        Unless(skip || vm.lastProbe.None?, if vm.lastProbe.Some? then vm.lastProbe.value.error else ""),
        Unless(skip, vm.fable.error),
        vm.scheduleDisabledReason,
        Unless(skip, vm.worker.lastError),
        vm.cooldownReason,
        Unless(IsUsageProbeOk(vm) || IsTransportProbe(vm, p), vm.refreshError),
        Unless(skip && p.grantDeath(ReasonOf(vm)), ReasonOf(vm))]))
  }

  predicate VmRevoked(vm: Vm, p: Patterns) {
    GrantRevoked(vm, p) || (ReasonOf(vm) == "oauth_revoked" && !ProbeOverridesGrant(vm, p))
  }

  predicate ParkedGrantDeath(vm: Vm, p: Patterns) {
    if !vm.hasToken then false
    else if !p.grantDeath(vm.scheduleDisabledReason + " " + vm.refreshError) then false
    else if IsTransportProbe(vm, p) && !p.grantDeath(vm.scheduleDisabledReason) then false
    else if vm.schedulable != Some(false) && (IsUsageProbeOk(vm) || IsTestChatProbe(vm, p)) then false
    else true
  }

  /** The grant is dead, whatever else the record says. */
  predicate GrantDead(vm: Vm, p: Patterns) { ParkedGrantDeath(vm, p) || VmRevoked(vm, p) }

  // ----- tones -----

  datatype Cls = ClsOk | ClsCaution | ClsWarn | ClsBad | ClsOff | ClsNone

  datatype Key = Ok | Caution | Warn | Bad | Revoke | OffKey | NoneKey | Cool | Quota | Sessions | Pool

  datatype Tone = Tone(cls: Cls, key: Key, text: string)

  function InvalidCredTone(vm: Vm, p: Patterns): Tone {
    Tone(ClsBad, if VmRevoked(vm, p) then Revoke else Bad, "无效凭证")
  }

  const HOUR := 3_600_000

  /** How the ticket's expiry looks. */
  function CredExpiry(vm: Vm, now: int): Cls {
    var at := if vm.worker.expiresAt.Absent? then vm.expiresAt else vm.worker.expiresAt;
    if !vm.hasToken then ClsNone
    else if !at.At? then ClsOk
    else if at.ms - now <= 0 then ClsBad
    else if at.ms - now < HOUR then ClsCaution
    else ClsOk
  }

  predicate TicketExpiredDead(vm: Vm, now: int) { CredExpiry(vm, now) == ClsBad && !vm.hasRefresh }

  predicate Cooling(vm: Vm, now: int) { vm.cooldownUntil != 0 && vm.cooldownUntil > now }

  predicate LeftoverQuotaOff(vm: Vm, p: Patterns) {
    vm.schedulable == Some(false) && !vm.scheduleManual && p.quotaReason(vm.scheduleDisabledReason)
  }

  predicate IsRestrictedSchedule(vm: Vm, p: Patterns) { vm.scheduleState == Restricted || LeftoverQuotaOff(vm, p) }

  function RestrictionLabel(vm: Vm, p: Patterns, fallback: string): string {
    var raw := if vm.availability.Some? then Trim(vm.availability.value.text, JsSpace) else "";
    var reason := Or(vm.restrictionReason, Or(ReasonOf(vm), vm.scheduleDisabledReason));
    if raw != [] && raw != "调度关" && !HasKey(vm, KeyOff) then raw
    else if p.quota5h(reason) then "5h 限制"
    else if p.quota7d(reason) then "7d 限制"
    else fallback
  }

  function RestrictionTone(vm: Vm, p: Patterns): Option<Tone> {
    if !IsRestrictedSchedule(vm, p) then None
    else if HasKey(vm, KeyCool) || p.coolReason(Or(vm.restrictionReason, ReasonOf(vm))) then
      Some(Tone(ClsCaution, Cool, RestrictionLabel(vm, p, "冷却中")))
    else Some(Tone(ClsWarn, Quota, RestrictionLabel(vm, p, "额度限制")))
  }

  const NO_TOKEN := Tone(ClsNone, NoneKey, "无凭证")
  const EXPIRED := Tone(ClsBad, Bad, "已过期")
  const BANNED := Tone(ClsBad, Bad, "被吊销")
  const PROBE_FAILED := Tone(ClsCaution, Caution, "探测失败")

  predicate BannedNow(vm: Vm, p: Patterns, now: int) {
    && vm.fable.banned && !FablePlanDenied(vm.fable, p)
    && CredExpiry(vm, now) != ClsOk && CredExpiry(vm, now) != ClsCaution
  }

  predicate ProbeFailed(vm: Vm, p: Patterns) { IsTransportProbe(vm, p) && !IsUsageProbeOk(vm) }

  // ----- account status -----

  function KeyOf(key: AvailabilityKey): Key {
    match key
    case KeyNone => NoneKey
    case KeyBad => Bad
    case KeyOff => OffKey
    case KeyQuota => Quota
    case KeySessions => Sessions
    case KeyCool => Cool
    case KeyOk => Ok
  }

  function ClsOf(key: AvailabilityKey): Cls {
    match key
    case KeyNone => ClsNone
    case KeyBad => ClsBad
    case KeyOff => ClsOff
    case KeyQuota => ClsWarn
    case KeySessions => ClsWarn
    case KeyCool => ClsCaution
    case KeyOk => ClsOk
  }

  function FallbackText(key: AvailabilityKey): string {
    match key
    case KeyNone => "无凭证"
    case KeyBad => "无效凭证"
    case KeyOff => "调度关"
    case KeyQuota => "额度限制"
    case KeySessions => "会话已满"
    case KeyCool => "冷却中"
    case KeyOk => "可用"
  }

  function AccountByAvailability(vm: Vm, a: Availability, now: int): Tone {
    if a.key == KeyOff && !vm.hasToken then NO_TOKEN
    else if a.key == KeyOff && TicketExpiredDead(vm, now) then EXPIRED
    else Tone(ClsOf(a.key), KeyOf(a.key), Or(a.text, FallbackText(a.key)))
  }

  predicate Limited5h(vm: Vm) { WindowLimited(vm.status5h, Pct(vm.utilization5h)) }
  predicate Limited7d(vm: Vm) { WindowLimited(vm.status7d, Pct(vm.utilization7d)) }
  predicate Warned5h(vm: Vm) { WindowWarn(vm.status5h, Pct(vm.utilization5h)) || vm.nearLimit }
  predicate Warned7d(vm: Vm) { WindowWarn(vm.status7d, Pct(vm.utilization7d)) }

  /** The credential status says that the credential is dead, and nothing newer speaks against it. */
  predicate CredDead(vm: Vm, p: Patterns) {
    && !p.fableText(vm.cred.text) && !ProbeOlderThanRefresh(vm) && !ProbeOverridesGrant(vm, p)
    && (vm.cred.key == "bad" || vm.cred.tone == "bad" || p.unusableText(vm.cred.text))
  }

  /** The text with the first "limited" turned into "warning". */
  function Softened(text: string): string {
    if |text| < 2 then text
    else if text[..2] == "限制" then "警告" + text[2..]
    else [text[0]] + Softened(text[1..])
  }

  function AccountByCred(vm: Vm, p: Patterns): Tone {
    var text := vm.cred.text;
    if p.cautionText(text) || (vm.cred.key == "warn" && !p.limitText(text)) then Tone(ClsCaution, Caution, Or(text, "警告"))
    else if p.limitText(text) || vm.cred.key == "warn" then
      if !Limited5h(vm) && !Limited7d(vm) && p.windowText(text) then Tone(ClsCaution, Caution, Softened(text))
      else Tone(ClsWarn, Warn, text)
    else Tone(ClsOk, Ok, "可用")
  }

  function AccountByTicket(vm: Vm, p: Patterns, now: int): Tone {
    var fableOnly := p.fableText(vm.cred.text);
    if !vm.hasToken then NO_TOKEN
    else if Cooling(vm, now) then Tone(ClsCaution, Caution, "冷却中")
    else if BannedNow(vm, p, now) then BANNED
    else if TicketExpiredDead(vm, now) then EXPIRED
    else if Limited5h(vm) then Tone(ClsWarn, Warn, "5h 限制")
    else if Limited7d(vm) then Tone(ClsWarn, Warn, "7d 限制")
    else if vm.weeklyFableOnly then Tone(ClsWarn, Warn, "普通限制")
    else if CredDead(vm, p) then Tone(ClsBad, Bad, Or(vm.cred.text, "无效凭证"))
    else if ProbeFailed(vm, p) then PROBE_FAILED
    else if Warned5h(vm) then Tone(ClsCaution, Caution, "5h 警告")
    else if Warned7d(vm) then Tone(ClsCaution, Caution, "7d 警告")
    else if !fableOnly then AccountByCred(vm, p)
    else Tone(ClsOk, Ok, "可用")
  }

  function AccountStatus(vm: Vm, p: Patterns, now: int): Tone {
    if GrantDead(vm, p) then InvalidCredTone(vm, p)
    else if RestrictionTone(vm, p).Some? then RestrictionTone(vm, p).value
    else if vm.availability.Some? && !ProbeTaintedAvailability(vm, p) then
      AccountByAvailability(vm, vm.availability.value, now)
    else AccountByTicket(vm, p, now)
  }

  /** Account status without the operator's switch. */
  function CredentialStatus(vm: Vm, p: Patterns, now: int): Tone {
    var base := AccountStatus(vm, p, now);
    if base.key != OffKey then base
    else if !vm.hasToken then NO_TOKEN
    else if CredExpiry(vm, now) == ClsBad then EXPIRED
    else if CredExpiry(vm, now) == ClsCaution then Tone(ClsCaution, Caution, "即将过期")
    else Tone(ClsOk, Ok, "凭证有效")
  }

  predicate AccountUsable(vm: Vm, p: Patterns, now: int) {
    vm.hasToken && CredentialStatus(vm, p, now).cls != ClsBad
  }

  // ----- pool status -----

  function PoolByAvailability(vm: Vm, a: Availability, now: int): Tone {
    if a.key == KeyNone then Tone(ClsNone, NoneKey, Or(a.text, "无凭证"))
    else if a.key == KeyBad then Tone(ClsBad, Bad, Or(a.text, "无效凭证"))
    else if a.key == KeyOff then
      if !vm.hasToken then NO_TOKEN
      else if TicketExpiredDead(vm, now) then EXPIRED
      else Tone(ClsOff, OffKey, Or(a.text, "调度关"))
    else if a.key == KeyQuota || a.key == KeySessions then Tone(ClsWarn, Quota, Or(a.text, "额度限制"))
    else if a.key == KeyCool || Cooling(vm, now) then Tone(ClsCaution, Cool, Or(a.text, "冷却中"))
    else if !a.usable then Tone(ClsBad, Bad, Or(a.text, "无效凭证"))
    else Tone(ClsOk, Pool, Or(a.text, "可用"))
  }

  function PoolByTicket(vm: Vm, p: Patterns, now: int): Tone {
    if !vm.hasToken then NO_TOKEN
    else if BannedNow(vm, p, now) then BANNED
    else if TicketExpiredDead(vm, now) then EXPIRED
    else if vm.schedulable == Some(false) then Tone(ClsOff, OffKey, "调度关")
    else if Cooling(vm, now) then Tone(ClsCaution, Cool, "冷却中")
    else if Limited5h(vm) then Tone(ClsWarn, Quota, "5h 限制")
    else if Limited7d(vm) then Tone(ClsWarn, Quota, "7d 限制")
    else if vm.weeklyFableOnly then Tone(ClsWarn, Quota, "普通限制")
    else if Warned5h(vm) then Tone(ClsCaution, Quota, "5h 警告")
    else if Warned7d(vm) then Tone(ClsCaution, Quota, "7d 警告")
    else if ProbeFailed(vm, p) then PROBE_FAILED
    else Tone(ClsOk, Pool, "在池")
  }

  function PoolStatus(vm: Vm, p: Patterns, now: int): Tone {
    if GrantDead(vm, p) then InvalidCredTone(vm, p)
    else if RestrictionTone(vm, p).Some? then RestrictionTone(vm, p).value
    else if vm.scheduleState == Off then
      if !vm.hasToken then NO_TOKEN
      else if TicketExpiredDead(vm, now) then EXPIRED
      else Tone(ClsOff, OffKey, "调度关")
    else if vm.availability.Some? && !ProbeTaintedAvailability(vm, p) then
      PoolByAvailability(vm, vm.availability.value, now)
    else PoolByTicket(vm, p, now)
  }

  datatype FleetGroup = InPool | Limited | SwitchedOff | Unused | Invalid | Revoked

  function GroupOf(vm: Vm, p: Patterns, now: int): FleetGroup {
    var status := PoolStatus(vm, p, now);
    if status.key == Revoke then Revoked
    else if status.key == Bad then Invalid
    else if status.key == NoneKey then Unused
    else if status.key == OffKey then SwitchedOff
    else if IsRestrictedSchedule(vm, p) || status.key == Cool then Limited
    else if status.key == Quota && !Mentions(status.text, "警告") then Limited
    else InPool
  }

  // ----- the chains agree -----

  /** A dead grant is grouped as such and is never usable, whatever the other fields say; and only a
      revoked one is grouped as revoked. */
  lemma DeadGrantNeverUsable(vm: Vm, p: Patterns, now: int)
    ensures GrantDead(vm, p) ==> !AccountUsable(vm, p, now)
    ensures GrantDead(vm, p) ==> GroupOf(vm, p, now) == if VmRevoked(vm, p) then Revoked else Invalid
    ensures GroupOf(vm, p, now) == Revoked <==> VmRevoked(vm, p)
  {
  }

  lemma TaintOverrides(vm: Vm, p: Patterns)
    requires ProbeTaintedAvailability(vm, p)
    ensures !CredDead(vm, p)
  {
  }

  lemma LimitsAreNoWarnings(text: string)
    requires text == "5h 限制" || text == "7d 限制" || text == "普通限制"
    ensures !Mentions(text, "警告")
  {
    NotMentioned(text, "警告");
  }

  lemma LimitNotWarned(vm: Vm, p: Patterns, now: int)
    requires PoolByTicket(vm, p, now).cls == ClsWarn
    ensures !Mentions(PoolByTicket(vm, p, now).text, "警告")
  {
    LimitsAreNoWarnings(PoolByTicket(vm, p, now).text);
  }

  /** What the pool chain takes in is alive for the account chain, unless the credential status
      alone says that it is dead. */
  lemma PooledTicket(vm: Vm, p: Patterns, now: int)
    requires vm.hasToken
    requires var status := PoolByTicket(vm, p, now);
             status.key == Pool || status.key == Caution || (status.key == Quota && status.cls != ClsWarn)
    ensures AccountByTicket(vm, p, now).cls == ClsBad <==> CredDead(vm, p)
    ensures AccountByTicket(vm, p, now).key != OffKey
  {
  }

  /** A slot with a token that is grouped as pool is usable if and only if the backend gave it an
      availability or its credential status does not say that it is dead. */
  lemma PooledUsable(vm: Vm, p: Patterns, now: int)
    requires vm.hasToken && GroupOf(vm, p, now) == InPool
    ensures AccountUsable(vm, p, now) <==> vm.availability.Some? || !CredDead(vm, p)
  {
    assert !GrantDead(vm, p) && RestrictionTone(vm, p).None? && vm.scheduleState != Off;
    if vm.availability.None? || ProbeTaintedAvailability(vm, p) {
      if PoolByTicket(vm, p, now).cls == ClsWarn {
        LimitNotWarned(vm, p, now);
      }
      PooledTicket(vm, p, now);
      if vm.availability.Some? {
        TaintOverrides(vm, p);
      }
    }
  }

  // ----- a slot in the pool that is not usable -----

  function Never(s: string): bool { false }

  const NOTHING := Patterns(Never, Never, Never, Never, Never, Never, Never, Never, Never, Never, Never, Never, Never, Never, Never)

  const PLAIN := Vm(
    "", "", true, false, CredStatus("", "", ""), None, None, false, Unset, "", "", "", "", 0, Absent, Absent, None, "",
    Worker("", "", Absent), Fable(false, false, 0, "", "", false, false, Missing, Absent), Missing, Missing, Missing,
    "", "", "", false, false, [], false, "", false, Absent, Absent, Absent)

  /** Without an availability, a credential status of "bad" makes a slot unusable, but the pool chain
      does not read it and keeps the slot in the pool. */
  lemma PooledButDead(now: int)
    ensures var vm := PLAIN.(cred := CredStatus("", "bad", ""));
            GroupOf(vm, NOTHING, now) == InPool && !AccountUsable(vm, NOTHING, now)
  {
    var vm := PLAIN.(cred := CredStatus("", "bad", ""));
    assert !GrantDead(vm, NOTHING) && RestrictionTone(vm, NOTHING).None?;
    assert PoolByTicket(vm, NOTHING, now) == Tone(ClsOk, Pool, "在池");
    assert AccountByTicket(vm, NOTHING, now).cls == ClsBad;
  }

  // ----- slots called invalid that are usable -----

  /** The backend's availability counts. */
  predicate Rated(vm: Vm, p: Patterns) { vm.availability.Some? && !ProbeTaintedAvailability(vm, p) }

  /** Where the pool chain finds a dead credential and the account chain does not look. */
  predicate Disputed(vm: Vm, p: Patterns, now: int) {
    && vm.hasToken && !GrantDead(vm, p) && !IsRestrictedSchedule(vm, p)
    && if vm.scheduleState == Off then
         TicketExpiredDead(vm, now)
         && (if Rated(vm, p) then !HasKey(vm, KeyOff) && !HasKey(vm, KeyBad) else Cooling(vm, now))
       else if Rated(vm, p) then
         HasKey(vm, KeyOk) && !vm.availability.value.usable && !Cooling(vm, now)
       else
         Cooling(vm, now) && (BannedNow(vm, p, now) || TicketExpiredDead(vm, now))
  }

  /** A slot is grouped as invalid and yet usable exactly in those cases. */
  lemma InvalidButUsable(vm: Vm, p: Patterns, now: int)
    ensures GroupOf(vm, p, now) == Invalid && AccountUsable(vm, p, now) <==> Disputed(vm, p, now)
  {
    DeadGrantNeverUsable(vm, p, now);
  }

  /** An availability that is fine but not usable. */
  lemma UnusableButUsable(now: int)
    ensures var vm := PLAIN.(availability := Some(Availability(KeyOk, false, "", "")));
            GroupOf(vm, NOTHING, now) == Invalid && AccountUsable(vm, NOTHING, now)
  {
    var vm := PLAIN.(availability := Some(Availability(KeyOk, false, "", "")));
    assert !GrantDead(vm, NOTHING) && Rated(vm, NOTHING);
    InvalidButUsable(vm, NOTHING, now);
  }

  /** An expired ticket without refresh that is cooling down. */
  lemma ExpiredButUsable(now: int)
    requires now > 0
    ensures var vm := PLAIN.(expiresAt := At(now), cooldownUntil := now + 1);
            GroupOf(vm, NOTHING, now) == Invalid && AccountUsable(vm, NOTHING, now)
  {
    var vm := PLAIN.(expiresAt := At(now), cooldownUntil := now + 1);
    assert !GrantDead(vm, NOTHING) && !Rated(vm, NOTHING);
    assert TicketExpiredDead(vm, now) && Cooling(vm, now);
    InvalidButUsable(vm, NOTHING, now);
  }
}
