/**
 * Login with a second factor over several nodes: every node runs Login, the OIDC hand-off and
 * VerifyMFA as a sequence of atomic storage calls, and the calls of different attempts
 * interleave freely. Passwords, codes and tokens are oracles; the rows they touch are modelled.
 */
module Login {
  import opened Wrappers

  // ---------------------------------------------------------------------------
  // Policy
  // ---------------------------------------------------------------------------

  datatype Mode = Unset | Disabled | Optional | Required

  datatype Settings = Settings(mode: Mode, deviceTrust: bool, bypass: bool)

  datatype Policy = Policy(required: bool, bypass: bool)

  function ResolvePolicy(st: Settings, userRequires: bool, mfaEnabled: bool): Policy {
    var mode := if st.mode == Unset then Disabled else st.mode;
    var required := if userRequires then true
      else if mode == Required then true
      else mode == Optional && mfaEnabled;
    Policy(required, st.bypass && st.deviceTrust)
  }

  function Strictness(m: Mode): nat {
    match m case Unset => 0 case Disabled => 0 case Optional => 1 case Required => 2
  }

  /** Requirements are a floor: a stricter mode, an account flag or an enrolment never lifts one. */
  lemma PolicyIsMonotone(a: Settings, b: Settings, flagA: bool, flagB: bool, enabledA: bool, enabledB: bool)
    requires Strictness(a.mode) <= Strictness(b.mode) && (flagA ==> flagB) && (enabledA ==> enabledB)
    requires ResolvePolicy(a, flagA, enabledA).required
    ensures ResolvePolicy(b, flagB, enabledB).required
  {
  }

  // ---------------------------------------------------------------------------
  // Rows and attempts
  // ---------------------------------------------------------------------------

  /** Each enrolment is its own row generation; replacing it resets the accepted step. */
  datatype Enrolment = Enrolment(user: nat, enabled: bool, lastStep: int)

  datatype Code = Code(user: nat, used: bool, deleted: bool)

  datatype Challenge = Challenge(
    user: nat, login: bool, consumed: bool, expiresAt: int, attempts: nat, maxAttempts: nat)

  datatype Device = Device(user: nat, expiresAt: int, revokedAt: Option<int>)

  /** A spent second factor: a TOTP step charged to one row after matching another's secret, or a recovery code. */
  datatype Factor = Totp(charged: nat, verified: nat, step: int) | Recovery(code: nat)

  /** What a session rests on; version says which settings were read. */
  datatype Evidence =
    | NoMfa(version: nat, userRequires: bool, enabled: bool)
    | ByDevice(version: nat, device: nat, at: int)
    | ByChallenge(challenge: nat, factor: Factor)

  /** Where an attempt stands between two storage calls. A Minted attempt is a session. */
  datatype Phase =
    | Authenticated(userRequires: bool, device: Option<nat>)
    | HaveSettings(userRequires: bool, device: Option<nat>, version: nat)
    | HavePolicy(userRequires: bool, device: Option<nat>, version: nat, enabled: bool)
    | Loaded(challenge: nat)
    | Known(challenge: nat)
    | Verifying(challenge: nat, row: nat)
    | Matched(challenge: nat, row: nat, step: int)
    | Refused(challenge: nat)
    | Factored(challenge: nat, factor: Factor)
    | Minting(evidence: Evidence)
    | Minted(evidence: Evidence)
    | Over

  datatype Attempt = Attempt(user: nat, phase: Phase)

  datatype State = State(
    settings: seq<Settings>, active: set<nat>, flagged: set<nat>, current: map<nat, nat>, enrolments: seq<Enrolment>,
    codes: seq<Code>, challenges: seq<Challenge>, devices: seq<Device>, attempts: seq<Attempt>, clock: int)

  /**
   * Administration, enrolment and time, all of which may happen at any moment. Disabling the second factor
   * or regenerating recovery codes first spends a step or a code, outside any login.
   */
  datatype Admin =
    | ChangeSettings(settings: Settings)
    | RequireMfa(user: nat, on: bool)
    | SetActive(user: nat, on: bool)
    | Enrol(user: nat, codes: nat)
    | Enable(user: nat, step: int)
    | SpendStep(user: nat, step: int)
    | SpendCode(user: nat, code: nat)
    | ReplaceCodes(user: nat, codes: nat)
    | RemoveMfa(user: nat)
    | IssueDevice(user: nat, ttl: nat)
    | RevokeDevice(device: nat)
    | OtherChallenge(user: nat)
    | Purge(challenge: nat)
    | Tick

  datatype Event =
    | Adm(admin: Admin)
    | Begin(user: nat, device: Option<nat>)
    | ReadSettings(attempt: nat)
    | ReadEnabled(attempt: nat)
    | Decide(attempt: nat)
    | LoadChallenge(challenge: nat)
    | ReadUser(attempt: nat)
    | ReadRow(attempt: nat)
    | MatchTotp(attempt: nat, step: int)
    | WrongCode(attempt: nat)
    | MarkUsed(attempt: nat)
    | UseCode(attempt: nat, code: nat)
    | FailChallenge(attempt: nat)
    | ConsumeChallenge(attempt: nat)
    | Mint(attempt: nat)

  datatype Config = Config(defaults: Settings, challengeTtl: nat, maxAttempts: nat)

  /** The wrong codes a login challenge takes; the last of them burns it. */
  function Budget(c: Config): (n: nat)
    ensures n >= 1
  {
    if c.maxAttempts == 0 then 1 else c.maxAttempts
  }

  function NewChallenge(c: Config, u: nat, now: int): Challenge {
    Challenge(u, true, false, now + c.challengeTtl, 0, Budget(c))
  }

  function Init(c: Config): State {
    State([c.defaults], {}, {}, map[], [], [], [], [], [], 0)
  }

  function Set(s: State, t: nat, p: Phase): State
    requires t < |s.attempts|
  {
    s.(attempts := s.attempts[t := s.attempts[t].(phase := p)])
  }

  function Spawn(s: State, user: nat, p: Phase): State {
    s.(attempts := s.attempts + [Attempt(user, p)])
  }

  predicate HasCurrent(s: State, u: nat) {
    u in s.current && s.current[u] < |s.enrolments|
  }

  predicate IsEnabled(s: State, u: nat) {
    HasCurrent(s, u) && s.enrolments[s.current[u]].enabled
  }

  predicate ChallengeOpen(s: State, c: nat) {
    c < |s.challenges| && s.challenges[c].login && !s.challenges[c].consumed && s.clock < s.challenges[c].expiresAt
  }

  predicate DeviceValid(s: State, d: nat) {
    d < |s.devices| && s.devices[d].revokedAt == None && s.clock < s.devices[d].expiresAt
  }

  predicate CodeUsable(s: State, k: nat, u: nat) {
    k < |s.codes| && s.codes[k].user == u && !s.codes[k].used && !s.codes[k].deleted
  }

  // The administrative steps.

  function DeleteCodes(codes: seq<Code>, u: nat): (r: seq<Code>)
    ensures |r| == |codes|
    ensures forall i :: 0 <= i < |codes| ==>
      r[i].user == codes[i].user && r[i].used == codes[i].used && (codes[i].deleted ==> r[i].deleted)
  {
    seq(|codes|, i requires 0 <= i < |codes| => if codes[i].user == u then codes[i].(deleted := true) else codes[i])
  }

  function RevokeAll(devices: seq<Device>, u: nat, now: int): (r: seq<Device>)
    ensures |r| == |devices|
    ensures forall i :: 0 <= i < |devices| ==>
      var hit := devices[i].user == u && devices[i].revokedAt == None;
      r[i] == if hit then devices[i].(revokedAt := Some(now)) else devices[i]
  {
    seq(|devices|, i requires 0 <= i < |devices| =>
      if devices[i].user == u && devices[i].revokedAt == None then devices[i].(revokedAt := Some(now)) else devices[i])
  }

  function NewCodes(u: nat, n: nat): (r: seq<Code>)
    ensures forall i :: 0 <= i < |r| ==> r[i].user == u && !r[i].used
  {
    seq(n, i => Code(u, false, false))
  }

  function Charge(s: State, g: nat, step: int): seq<Enrolment>
    requires g < |s.enrolments|
  {
    s.enrolments[g := s.enrolments[g].(lastStep := step)]
  }

  function Administer(s: State, a: Admin): State {
    match a
    case ChangeSettings(x) => s.(settings := s.settings + [x])
    case RequireMfa(u, on) => s.(flagged := if on then s.flagged + {u} else s.flagged - {u})
    case SetActive(u, on) => s.(active := if on then s.active + {u} else s.active - {u})
    case Enrol(u, n) =>
      s.(enrolments := s.enrolments + [Enrolment(u, false, -1)], current := s.current[u := |s.enrolments|],
         codes := DeleteCodes(s.codes, u) + NewCodes(u, n))
    case Enable(u, step) =>
      if HasCurrent(s, u) && s.enrolments[s.current[u]].lastStep < step then
        var g := s.current[u];
        s.(enrolments := Charge(s, g, step)[g := Charge(s, g, step)[g].(enabled := true)])
      else s
    case SpendStep(u, step) =>
      if IsEnabled(s, u) && s.enrolments[s.current[u]].lastStep < step
      then s.(enrolments := Charge(s, s.current[u], step)) else s
    case SpendCode(u, k) =>
      if IsEnabled(s, u) && CodeUsable(s, k, u) then s.(codes := s.codes[k := s.codes[k].(used := true)]) else s
    case ReplaceCodes(u, n) => s.(codes := DeleteCodes(s.codes, u) + NewCodes(u, n))
    case RemoveMfa(u) =>
      s.(current := s.current - {u}, codes := DeleteCodes(s.codes, u), devices := RevokeAll(s.devices, u, s.clock))
    case IssueDevice(u, ttl) => s.(devices := s.devices + [Device(u, s.clock + ttl, None)])
    case RevokeDevice(d) =>
      if d < |s.devices| && s.devices[d].revokedAt == None
      then s.(devices := s.devices[d := s.devices[d].(revokedAt := Some(s.clock))]) else s
    case OtherChallenge(u) => s.(challenges := s.challenges + [Challenge(u, false, false, s.clock, 0, 1)])
    case Purge(c) =>
      if c < |s.challenges| && s.challenges[c].expiresAt < s.clock
      then s.(challenges := s.challenges[c := s.challenges[c].(consumed := true)]) else s
    case Tick => s.(clock := s.clock + 1)
  }

  predicate Enabled(s: State, e: Event) {
    match e
    case Adm(_) => true
    case Begin(u, _) => u in s.active
    case LoadChallenge(c) => ChallengeOpen(s, c)
    case ReadSettings(t) => t < |s.attempts| && s.attempts[t].phase.Authenticated? && s.settings != []
    case ReadEnabled(t) => t < |s.attempts| && s.attempts[t].phase.HaveSettings?
    case Decide(t) =>
      t < |s.attempts| && s.attempts[t].phase.HavePolicy? && s.attempts[t].phase.version < |s.settings|
    case ReadUser(t) => t < |s.attempts| && s.attempts[t].phase.Loaded?
    case ReadRow(t) => t < |s.attempts| && s.attempts[t].phase.Known?
    case MatchTotp(t, _) => t < |s.attempts| && s.attempts[t].phase.Verifying?
    case WrongCode(t) => t < |s.attempts| && s.attempts[t].phase.Verifying?
    case MarkUsed(t) => t < |s.attempts| && s.attempts[t].phase.Matched?
    case UseCode(t, _) => t < |s.attempts| && s.attempts[t].phase.Verifying?
    case FailChallenge(t) =>
      t < |s.attempts| && s.attempts[t].phase.Refused? && s.attempts[t].phase.challenge < |s.challenges|
    case ConsumeChallenge(t) =>
      t < |s.attempts| && s.attempts[t].phase.Factored? && s.attempts[t].phase.challenge < |s.challenges|
    case Mint(t) => t < |s.attempts| && s.attempts[t].phase.Minting?
  }

  /** The policy decision: a session without a second factor, one on a trusted device, or a new challenge. */
  function Decided(c: Config, s: State, t: nat): State
    requires t < |s.attempts| && s.attempts[t].phase.HavePolicy? && s.attempts[t].phase.version < |s.settings|
  {
    var u, p := s.attempts[t].user, s.attempts[t].phase;
    var policy := ResolvePolicy(s.settings[p.version], p.userRequires, p.enabled);
    if !policy.required then Set(s, t, Minting(NoMfa(p.version, p.userRequires, p.enabled)))
    else if policy.bypass && p.device.Some? && DeviceValid(s, p.device.value) &&
      s.devices[p.device.value].user == u then
      Set(s, t, Minting(ByDevice(p.version, p.device.value, s.clock)))
    else
      Set(s, t, Over).(challenges := s.challenges + [NewChallenge(c, u, s.clock)])
  }

  function Marked(s: State, t: nat): State
    requires t < |s.attempts| && s.attempts[t].phase.Matched?
  {
    var u, p := s.attempts[t].user, s.attempts[t].phase;
    if HasCurrent(s, u) && s.enrolments[s.current[u]].lastStep < p.step then
      var g := s.current[u];
      Set(s, t, Factored(p.challenge, Totp(g, p.row, p.step))).(enrolments := Charge(s, g, p.step))
    else Set(s, t, Refused(p.challenge))
  }

  function CodeUsed(s: State, t: nat, k: nat): State
    requires t < |s.attempts| && s.attempts[t].phase.Verifying?
  {
    var u, p := s.attempts[t].user, s.attempts[t].phase;
    if CodeUsable(s, k, u) then
      Set(s, t, Factored(p.challenge, Recovery(k))).(codes := s.codes[k := s.codes[k].(used := true)])
    else Set(s, t, Refused(p.challenge))
  }

  function FailedChallenge(x: Challenge): Challenge {
    if x.consumed then x
    else x.(attempts := x.attempts + 1, consumed := x.attempts + 1 >= x.maxAttempts)
  }

  function Consumed(s: State, t: nat): State
    requires t < |s.attempts| && s.attempts[t].phase.Factored? && s.attempts[t].phase.challenge < |s.challenges|
  {
    var p := s.attempts[t].phase;
    if s.challenges[p.challenge].consumed then Set(s, t, Over)
    else
      Set(s, t, Minting(ByChallenge(p.challenge, p.factor))).(
        challenges := s.challenges[p.challenge := s.challenges[p.challenge].(consumed := true)])
  }

  function Apply(c: Config, s: State, e: Event): State
    requires Enabled(s, e)
  {
    match e
    case Adm(a) => Administer(s, a)
    case Begin(u, device) => Spawn(s, u, Authenticated(u in s.flagged, device))
    case LoadChallenge(x) => Spawn(s, s.challenges[x].user, Loaded(x))
    case ReadSettings(t) =>
      var p := s.attempts[t].phase;
      Set(s, t, HaveSettings(p.userRequires, p.device, |s.settings| - 1))
    case ReadEnabled(t) =>
      var p := s.attempts[t].phase;
      Set(s, t, HavePolicy(p.userRequires, p.device, p.version, IsEnabled(s, s.attempts[t].user)))
    case Decide(t) => Decided(c, s, t)
    case ReadUser(t) =>
      Set(s, t, if s.attempts[t].user in s.active then Known(s.attempts[t].phase.challenge) else Over)
    case ReadRow(t) =>
      var u, p := s.attempts[t].user, s.attempts[t].phase;
      Set(s, t, if IsEnabled(s, u) then Verifying(p.challenge, s.current[u]) else Over)
    case MatchTotp(t, step) =>
      var p := s.attempts[t].phase;
      Set(s, t, Matched(p.challenge, p.row, step))
    case WrongCode(t) => Set(s, t, Refused(s.attempts[t].phase.challenge))
    case MarkUsed(t) => Marked(s, t)
    case UseCode(t, k) => CodeUsed(s, t, k)
    case FailChallenge(t) =>
      var x := s.attempts[t].phase.challenge;
      Set(s, t, Over).(challenges := s.challenges[x := FailedChallenge(s.challenges[x])])
    case ConsumeChallenge(t) => Consumed(s, t)
    case Mint(t) => Set(s, t, Minted(s.attempts[t].phase.evidence))
  }

  function Step(c: Config, s: State, e: Event): State {
    if Enabled(s, e) then Apply(c, s, e) else s
  }

  function Exec(c: Config, es: seq<Event>): State {
    if es == [] then Init(c) else Step(c, Exec(c, es[..|es| - 1]), es[|es| - 1])
  }

  // ---------------------------------------------------------------------------
  // What an attempt rests on
  // ---------------------------------------------------------------------------

  /** The factor was this user's and has been spent. */
  predicate FactorOk(s: State, u: nat, f: Factor) {
    match f
    case Totp(charged, verified, step) =>
      && charged < |s.enrolments| && s.enrolments[charged].user == u && step <= s.enrolments[charged].lastStep
      && verified < |s.enrolments| && s.enrolments[verified].user == u
    case Recovery(k) => k < |s.codes| && s.codes[k].user == u && s.codes[k].used
  }

  predicate ChallengeOf(s: State, u: nat, c: nat) {
    c < |s.challenges| && s.challenges[c].login && s.challenges[c].user == u
  }

  predicate RowOf(s: State, u: nat, g: nat) {
    g < |s.enrolments| && s.enrolments[g].user == u
  }

  /**
   * Session evidence: settings that did not require a second factor; a device of the same user that was
   * valid when it was looked at, under settings that allow the bypass; or a spent login challenge of the
   * user together with a spent factor of the user.
   */
  predicate Backed(s: State, u: nat, ev: Evidence) {
    match ev
    case NoMfa(v, flag, enabled) => v < |s.settings| && !ResolvePolicy(s.settings[v], flag, enabled).required
    case ByDevice(v, d, at) =>
      && v < |s.settings| && s.settings[v].bypass && s.settings[v].deviceTrust
      && d < |s.devices| && s.devices[d].user == u && at <= s.clock && at < s.devices[d].expiresAt
      && (s.devices[d].revokedAt.Some? ==> at <= s.devices[d].revokedAt.value)
    case ByChallenge(c, f) => ChallengeOf(s, u, c) && s.challenges[c].consumed && FactorOk(s, u, f)
  }

  predicate PhaseOk(s: State, u: nat, p: Phase) {
    match p
    case Authenticated(_, _) => true
    case HaveSettings(_, _, v) => v < |s.settings|
    case HavePolicy(_, _, v, _) => v < |s.settings|
    case Loaded(c) => ChallengeOf(s, u, c)
    case Known(c) => ChallengeOf(s, u, c)
    case Verifying(c, g) => ChallengeOf(s, u, c) && RowOf(s, u, g)
    case Matched(c, g, _) => ChallengeOf(s, u, c) && RowOf(s, u, g)
    case Refused(c) => ChallengeOf(s, u, c)
    case Factored(c, f) => ChallengeOf(s, u, c) && FactorOk(s, u, f)
    case Minting(ev) => Backed(s, u, ev)
    case Minted(ev) => Backed(s, u, ev)
    case Over => true
  }

  function FactorIn(p: Phase): Option<Factor> {
    match p
    case Factored(_, f) => Some(f)
    case Minting(ev) => if ev.ByChallenge? then Some(ev.factor) else None
    case Minted(ev) => if ev.ByChallenge? then Some(ev.factor) else None
    case _ => None
  }

  function SpentChallenge(p: Phase): Option<nat> {
    match p
    case Minting(ev) => if ev.ByChallenge? then Some(ev.challenge) else None
    case Minted(ev) => if ev.ByChallenge? then Some(ev.challenge) else None
    case _ => None
  }

  /** The same step charged to the same row, or the same recovery code. */
  predicate SameFactor(a: Factor, b: Factor) {
    || (a.Totp? && b.Totp? && a.charged == b.charged && a.step == b.step)
    || (a.Recovery? && b.Recovery? && a.code == b.code)
  }

  /** Two attempts drawing on the same factor or the same challenge. */
  predicate Clash(p: Phase, q: Phase) {
    || (FactorIn(p).Some? && FactorIn(q).Some? && SameFactor(FactorIn(p).value, FactorIn(q).value))
    || (SpentChallenge(p).Some? && SpentChallenge(p) == SpentChallenge(q))
  }

  predicate NoClash(attempts: seq<Attempt>) {
    forall i, j :: 0 <= i < |attempts| && 0 <= j < |attempts| && i != j ==> !Clash(attempts[i].phase, attempts[j].phase)
  }

  predicate CurrentOk(s: State) {
    forall u :: u in s.current ==> RowOf(s, u, s.current[u])
  }

  predicate AttemptsOk(s: State) {
    forall t :: 0 <= t < |s.attempts| ==> PhaseOk(s, s.attempts[t].user, s.attempts[t].phase)
  }

  predicate Inv(s: State) {
    s.settings != [] && CurrentOk(s) && AttemptsOk(s) && NoClash(s.attempts)
  }

  // Rows only grow and only become more spent.

  ghost predicate MoreEnrolments(a: seq<Enrolment>, b: seq<Enrolment>) {
    |a| <= |b| && forall g :: 0 <= g < |a| ==> b[g].user == a[g].user && a[g].lastStep <= b[g].lastStep
  }

  ghost predicate MoreCodes(a: seq<Code>, b: seq<Code>) {
    |a| <= |b| && forall k :: 0 <= k < |a| ==> b[k].user == a[k].user && (a[k].used ==> b[k].used)
  }

  ghost predicate MoreChallenges(a: seq<Challenge>, b: seq<Challenge>) {
    |a| <= |b| && forall c :: 0 <= c < |a| ==>
      b[c].user == a[c].user && b[c].login == a[c].login && (a[c].consumed ==> b[c].consumed)
  }

  ghost predicate MoreDevices(a: seq<Device>, b: seq<Device>, now: int) {
    |a| <= |b| && forall d :: 0 <= d < |a| ==>
      && b[d].user == a[d].user && b[d].expiresAt == a[d].expiresAt
      && (b[d].revokedAt == a[d].revokedAt || (a[d].revokedAt == None && b[d].revokedAt == Some(now)))
  }

  ghost predicate Extends(s: State, t: State) {
    && s.settings <= t.settings && s.clock <= t.clock
    && MoreEnrolments(s.enrolments, t.enrolments) && MoreCodes(s.codes, t.codes)
    && MoreChallenges(s.challenges, t.challenges) && MoreDevices(s.devices, t.devices, s.clock)
  }

  lemma PhaseLasts(s: State, t: State, u: nat, p: Phase)
    requires Extends(s, t) && PhaseOk(s, u, p)
    ensures PhaseOk(t, u, p)
  {
  }

  lemma AttemptsLast(s: State, t: State)
    requires Extends(s, t) && AttemptsOk(s) && s.attempts == t.attempts
    ensures AttemptsOk(t)
  {
    forall i | 0 <= i < |t.attempts| ensures PhaseOk(t, t.attempts[i].user, t.attempts[i].phase) {
      PhaseLasts(s, t, s.attempts[i].user, s.attempts[i].phase);
    }
  }

  // ---------------------------------------------------------------------------
  // Every step keeps the invariant
  // ---------------------------------------------------------------------------

  /** Nobody else draws on what phase p draws on. */
  ghost predicate Alone(attempts: seq<Attempt>, t: nat, p: Phase) {
    forall j :: 0 <= j < |attempts| && j != t ==> !Clash(p, attempts[j].phase)
  }

  lemma SetNoClash(attempts: seq<Attempt>, t: nat, p: Phase)
    requires NoClash(attempts) && t < |attempts| && Alone(attempts, t, p)
    ensures NoClash(attempts[t := attempts[t].(phase := p)])
  {
  }

  /** One attempt moves to phase p while the rows go from those of s to those of r. */
  lemma MoveKeeps(s: State, r: State, t: nat, p: Phase)
    requires Inv(s) && Extends(s, r) && r.attempts == s.attempts && CurrentOk(r) && t < |s.attempts|
    requires PhaseOk(r, s.attempts[t].user, p) && Alone(s.attempts, t, p)
    ensures Inv(Set(r, t, p))
  {
    var n := Set(r, t, p);
    AttemptsLast(s, r);
    SetNoClash(s.attempts, t, p);
    assert Extends(r, n);
    forall i | 0 <= i < |n.attempts| ensures PhaseOk(n, n.attempts[i].user, n.attempts[i].phase) {
      if i == t {
        PhaseLasts(r, n, s.attempts[t].user, p);
      } else {
        PhaseLasts(r, n, s.attempts[i].user, s.attempts[i].phase);
      }
    }
  }

  predicate Holdless(p: Phase) {
    FactorIn(p) == None && SpentChallenge(p) == None
  }

  lemma MoveFree(s: State, r: State, t: nat, p: Phase)
    requires Inv(s) && Extends(s, r) && r.attempts == s.attempts && CurrentOk(r) && t < |s.attempts|
    requires PhaseOk(r, s.attempts[t].user, p) && Holdless(p)
    ensures Inv(Set(r, t, p))
  {
    MoveKeeps(s, r, t, p);
  }

  lemma SpawnKeeps(s: State, u: nat, p: Phase)
    requires Inv(s) && PhaseOk(s, u, p) && Holdless(p)
    ensures Inv(Spawn(s, u, p))
  {
  }

  lemma DecideKeeps(c: Config, s: State, t: nat)
    requires Inv(s) && Enabled(s, Decide(t))
    ensures Inv(Decided(c, s, t))
  {
    var u, p := s.attempts[t].user, s.attempts[t].phase;
    var policy := ResolvePolicy(s.settings[p.version], p.userRequires, p.enabled);
    if !policy.required {
      MoveFree(s, s, t, Minting(NoMfa(p.version, p.userRequires, p.enabled)));
    } else if policy.bypass && p.device.Some? && DeviceValid(s, p.device.value) && s.devices[p.device.value].user == u {
      MoveFree(s, s, t, Minting(ByDevice(p.version, p.device.value, s.clock)));
    } else {
      MoveFree(s, s.(challenges := s.challenges + [NewChallenge(c, u, s.clock)]), t, Over);
    }
  }

  lemma MarkKeeps(s: State, t: nat)
    requires Inv(s) && Enabled(s, MarkUsed(t))
    ensures Inv(Marked(s, t))
  {
    var u, p := s.attempts[t].user, s.attempts[t].phase;
    assert PhaseOk(s, u, p);
    if HasCurrent(s, u) && s.enrolments[s.current[u]].lastStep < p.step {
      var g := s.current[u];
      var r := s.(enrolments := Charge(s, g, p.step));
      var q := Factored(p.challenge, Totp(g, p.row, p.step));
      assert RowOf(s, u, g);
      forall j | 0 <= j < |s.attempts| && j != t ensures !Clash(q, s.attempts[j].phase) {
        assert PhaseOk(s, s.attempts[j].user, s.attempts[j].phase);
      }
      MoveKeeps(s, r, t, q);
    } else {
      MoveFree(s, s, t, Refused(p.challenge));
    }
  }

  lemma UseCodeKeeps(s: State, t: nat, k: nat)
    requires Inv(s) && Enabled(s, UseCode(t, k))
    ensures Inv(CodeUsed(s, t, k))
  {
    var u, p := s.attempts[t].user, s.attempts[t].phase;
    assert PhaseOk(s, u, p);
    if CodeUsable(s, k, u) {
      var r := s.(codes := s.codes[k := s.codes[k].(used := true)]);
      var q := Factored(p.challenge, Recovery(k));
      forall j | 0 <= j < |s.attempts| && j != t ensures !Clash(q, s.attempts[j].phase) {
        assert PhaseOk(s, s.attempts[j].user, s.attempts[j].phase);
      }
      MoveKeeps(s, r, t, q);
    } else {
      MoveFree(s, s, t, Refused(p.challenge));
    }
  }

  lemma ConsumeKeeps(s: State, t: nat)
    requires Inv(s) && Enabled(s, ConsumeChallenge(t))
    ensures Inv(Consumed(s, t))
  {
    var p := s.attempts[t].phase;
    assert PhaseOk(s, s.attempts[t].user, p);
    if s.challenges[p.challenge].consumed {
      MoveFree(s, s, t, Over);
    } else {
      var r := s.(challenges := s.challenges[p.challenge := s.challenges[p.challenge].(consumed := true)]);
      var q := Minting(ByChallenge(p.challenge, p.factor));
      forall j | 0 <= j < |s.attempts| && j != t ensures !Clash(q, s.attempts[j].phase) {
        assert !Clash(p, s.attempts[j].phase);
        assert PhaseOk(s, s.attempts[j].user, s.attempts[j].phase);
      }
      PhaseLasts(s, r, s.attempts[t].user, p);
      MoveKeeps(s, r, t, q);
    }
  }

  lemma AdminKeeps(s: State, a: Admin)
    requires Inv(s)
    ensures Inv(Administer(s, a))
  {
    var r := Administer(s, a);
    AdminExtends(s, a);
    AttemptsLast(s, r);
  }

  lemma AdminExtends(s: State, a: Admin)
    requires Inv(s)
    ensures Extends(s, Administer(s, a)) && Administer(s, a).attempts == s.attempts && CurrentOk(Administer(s, a))
  {
  }

  lemma PolicyReadKeeps(c: Config, s: State, e: Event)
    requires Inv(s) && Enabled(s, e) && (e.ReadSettings? || e.ReadEnabled?)
    ensures Inv(Apply(c, s, e))
  {
    var t := e.attempt;
    var u, p := s.attempts[t].user, s.attempts[t].phase;
    assert PhaseOk(s, u, p);
    if e.ReadSettings? {
      MoveFree(s, s, t, HaveSettings(p.userRequires, p.device, |s.settings| - 1));
    } else {
      MoveFree(s, s, t, HavePolicy(p.userRequires, p.device, p.version, IsEnabled(s, u)));
    }
  }

  lemma UserReadKeeps(c: Config, s: State, e: Event)
    requires Inv(s) && Enabled(s, e) && (e.ReadUser? || e.ReadRow?)
    ensures Inv(Apply(c, s, e))
  {
    var t := e.attempt;
    var u, p := s.attempts[t].user, s.attempts[t].phase;
    assert PhaseOk(s, u, p);
    if e.ReadUser? {
      MoveFree(s, s, t, if u in s.active then Known(p.challenge) else Over);
    } else if IsEnabled(s, u) {
      MoveFree(s, s, t, Verifying(p.challenge, s.current[u]));
    } else {
      MoveFree(s, s, t, Over);
    }
  }

  lemma CheckKeeps(c: Config, s: State, e: Event)
    requires Inv(s) && Enabled(s, e) && (e.MatchTotp? || e.WrongCode? || e.FailChallenge?)
    ensures Inv(Apply(c, s, e))
  {
    var t := e.attempt;
    var p := s.attempts[t].phase;
    assert PhaseOk(s, s.attempts[t].user, p);
    match e
    case MatchTotp(_, step) => MoveFree(s, s, t, Matched(p.challenge, p.row, step));
    case WrongCode(_) => MoveFree(s, s, t, Refused(p.challenge));
    case FailChallenge(_) =>
      var x := p.challenge;
      MoveFree(s, s.(challenges := s.challenges[x := FailedChallenge(s.challenges[x])]), t, Over);
  }

  lemma StepKeeps(c: Config, s: State, e: Event)
    requires Inv(s)
    ensures Inv(Step(c, s, e))
  {
    if Enabled(s, e) {
      match e {
        case Adm(a) => AdminKeeps(s, a);
        case Begin(u, device) => SpawnKeeps(s, u, Authenticated(u in s.flagged, device));
        case LoadChallenge(x) => SpawnKeeps(s, s.challenges[x].user, Loaded(x));
        case Decide(t) => DecideKeeps(c, s, t);
        case MarkUsed(t) => MarkKeeps(s, t);
        case UseCode(t, k) => UseCodeKeeps(s, t, k);
        case ConsumeChallenge(t) => ConsumeKeeps(s, t);
        case Mint(t) => MintKeeps(s, t);
        case ReadSettings(_) => PolicyReadKeeps(c, s, e);
        case ReadEnabled(_) => PolicyReadKeeps(c, s, e);
        case ReadUser(_) => UserReadKeeps(c, s, e);
        case ReadRow(_) => UserReadKeeps(c, s, e);
        case _ => CheckKeeps(c, s, e);
      }
    }
  }

  lemma MintKeeps(s: State, t: nat)
    requires Inv(s) && Enabled(s, Mint(t))
    ensures Inv(Set(s, t, Minted(s.attempts[t].phase.evidence)))
  {
    var q := Minted(s.attempts[t].phase.evidence);
    assert PhaseOk(s, s.attempts[t].user, s.attempts[t].phase);
    forall j | 0 <= j < |s.attempts| && j != t ensures !Clash(q, s.attempts[j].phase) {
      assert !Clash(s.attempts[t].phase, s.attempts[j].phase);
    }
    MoveKeeps(s, s, t, q);
  }

  lemma {:induction false} ExecKeeps(c: Config, es: seq<Event>)
    ensures Inv(Exec(c, es))
  {
    if es != [] {
      ExecKeeps(c, es[..|es| - 1]);
      StepKeeps(c, Exec(c, es[..|es| - 1]), es[|es| - 1]);
    }
  }

  // ---------------------------------------------------------------------------
  // What holds over every interleaving
  // ---------------------------------------------------------------------------

  /** No challenge, no step charged to an enrolment row and no recovery code backs two sessions. */
  lemma {:induction false} NothingBacksTwoSessions(c: Config, es: seq<Event>, t: nat, u: nat)
    requires t < |Exec(c, es).attempts| && u < |Exec(c, es).attempts| && t != u
    requires Exec(c, es).attempts[t].phase.Minted? && Exec(c, es).attempts[t].phase.evidence.ByChallenge?
    requires Exec(c, es).attempts[u].phase.Minted? && Exec(c, es).attempts[u].phase.evidence.ByChallenge?
    ensures
      var a, b := Exec(c, es).attempts[t].phase.evidence, Exec(c, es).attempts[u].phase.evidence;
      && a.challenge != b.challenge
      && !(a.factor.Totp? && b.factor.Totp? && a.factor.charged == b.factor.charged && a.factor.step == b.factor.step)
      && !(a.factor.Recovery? && b.factor.Recovery? && a.factor.code == b.factor.code)
  {
    ExecKeeps(c, es);
    assert !Clash(Exec(c, es).attempts[t].phase, Exec(c, es).attempts[u].phase);
  }

  // ---------------------------------------------------------------------------
  // When each attempt read what it rests on
  // ---------------------------------------------------------------------------

  /** The state before event i of the run. */
  function At(c: Config, es: seq<Event>, i: nat): State
    requires i <= |es|
  {
    Exec(c, es[..i])
  }

  lemma {:induction false} Next(c: Config, es: seq<Event>, n: nat)
    requires n < |es|
    ensures At(c, es, n + 1) == Step(c, At(c, es, n), es[n])
  {
    assert es[..n + 1][..n] == es[..n];
  }

  /** Event i starts attempt t for user u, who was active, and reads whether the account requires a second factor. */
  predicate BegunAt(c: Config, es: seq<Event>, t: nat, u: nat, userRequires: bool, i: nat) {
    && i < |es| && es[i].Begin? && es[i].user == u && u in At(c, es, i).active
    && |At(c, es, i).attempts| == t && userRequires == (u in At(c, es, i).flagged)
  }

  /** Event j is attempt t reading the settings then in force. */
  predicate SettingsAt(c: Config, es: seq<Event>, t: nat, version: nat, j: nat) {
    j < |es| && es[j] == ReadSettings(t) && version == |At(c, es, j).settings| - 1
  }

  /** Event k is attempt t reading whether user u has a confirmed enrolment. */
  predicate EnabledAt(c: Config, es: seq<Event>, t: nat, u: nat, enabled: bool, k: nat) {
    k < |es| && es[k] == ReadEnabled(t) && enabled == IsEnabled(At(c, es, k), u)
  }

  /** Event d is attempt t finding a valid device of user u. */
  predicate DeviceAt(c: Config, es: seq<Event>, t: nat, u: nat, device: nat, at: int, d: nat) {
    && d < |es| && es[d] == Decide(t) && DeviceValid(At(c, es, d), device)
    && At(c, es, d).devices[device].user == u && at == At(c, es, d).clock
  }

  /** Event a is attempt t reading user u, who was active. */
  predicate UserReadAt(c: Config, es: seq<Event>, t: nat, u: nat, a: nat) {
    a < |es| && es[a] == ReadUser(t) && u in At(c, es, a).active
  }

  /** Event r is attempt t finding that user u has a confirmed enrolment. */
  predicate EnrolmentAt(c: Config, es: seq<Event>, t: nat, u: nat, r: nat) {
    r < |es| && es[r] == ReadRow(t) && IsEnabled(At(c, es, r), u)
  }

  /** Event r is attempt t reading the confirmed enrolment row of user u. */
  predicate RowReadAt(c: Config, es: seq<Event>, t: nat, u: nat, row: nat, r: nat) {
    EnrolmentAt(c, es, t, u, r) && At(c, es, r).current[u] == row
  }

  /** Event m is attempt t charging the step to the row user u then has. */
  predicate ChargedAt(c: Config, es: seq<Event>, t: nat, u: nat, row: nat, step: int, m: nat) {
    && m < |es| && es[m] == MarkUsed(t) && HasCurrent(At(c, es, m), u) && At(c, es, m).current[u] == row
    && At(c, es, m).enrolments[row].lastStep < step
  }

  /** Event l starts attempt t by loading challenge x of user u, open then. */
  predicate LoadedAt(c: Config, es: seq<Event>, t: nat, u: nat, x: nat, l: nat) {
    && l < |es| && es[l] == LoadChallenge(x) && ChallengeOpen(At(c, es, l), x)
    && At(c, es, l).challenges[x].user == u && |At(c, es, l).attempts| == t
  }

  /** Event m is attempt t using up an unused recovery code of user u. */
  predicate CodeTakenAt(c: Config, es: seq<Event>, t: nat, u: nat, code: nat, m: nat) {
    m < |es| && es[m] == UseCode(t, code) && CodeUsable(At(c, es, m), code, u)
  }

  /** Event k is attempt t consuming challenge x, not consumed until then. */
  predicate ConsumedAt(c: Config, es: seq<Event>, t: nat, x: nat, k: nat) {
    && k < |es| && es[k] == ConsumeChallenge(t)
    && x < |At(c, es, k).challenges| && !At(c, es, k).challenges[x].consumed
  }

  ghost predicate ChallengeLoaded(c: Config, es: seq<Event>, n: nat, t: nat, u: nat, x: nat) {
    exists l :: 0 <= l < n && LoadedAt(c, es, t, u, x, l)
  }

  // Before event n attempt t did each of these things, and before that the one above it.

  ghost predicate UserRead(c: Config, es: seq<Event>, n: nat, t: nat, u: nat, x: nat) {
    exists a :: 0 <= a < n && UserReadAt(c, es, t, u, a) && ChallengeLoaded(c, es, a, t, u, x)
  }

  ghost predicate EnrolmentRead(c: Config, es: seq<Event>, n: nat, t: nat, u: nat, x: nat) {
    exists r :: 0 <= r < n && EnrolmentAt(c, es, t, u, r) && UserRead(c, es, r, t, u, x)
  }

  ghost predicate RowRead(c: Config, es: seq<Event>, n: nat, t: nat, u: nat, x: nat, row: nat) {
    exists r :: 0 <= r < n && RowReadAt(c, es, t, u, row, r) && UserRead(c, es, r, t, u, x)
  }

  ghost predicate FactorAt(c: Config, es: seq<Event>, t: nat, u: nat, x: nat, f: Factor, m: nat) {
    match f
    case Totp(charged, verified, step) =>
      ChargedAt(c, es, t, u, charged, step, m) && RowRead(c, es, m, t, u, x, verified)
    case Recovery(code) => CodeTakenAt(c, es, t, u, code, m) && EnrolmentRead(c, es, m, t, u, x)
  }

  ghost predicate FactorTaken(c: Config, es: seq<Event>, n: nat, t: nat, u: nat, x: nat, f: Factor) {
    exists m :: 0 <= m < n && FactorAt(c, es, t, u, x, f, m)
  }

  ghost predicate ChallengeSpent(c: Config, es: seq<Event>, n: nat, t: nat, u: nat, x: nat, f: Factor) {
    exists k :: 0 <= k < n && ConsumedAt(c, es, t, x, k) && FactorTaken(c, es, k, t, u, x, f)
  }

  ghost predicate Begun(c: Config, es: seq<Event>, n: nat, t: nat, u: nat, flag: bool) {
    exists i :: 0 <= i < n && BegunAt(c, es, t, u, flag, i)
  }

  ghost predicate SettingsRead(c: Config, es: seq<Event>, n: nat, t: nat, u: nat, flag: bool, v: nat) {
    exists i, j :: 0 <= i < j < n && BegunAt(c, es, t, u, flag, i) && SettingsAt(c, es, t, v, j)
  }

  /** In this order attempt t was begun, read the settings and read the enrolment, and found these values. */
  ghost predicate PolicyRead(c: Config, es: seq<Event>, n: nat, t: nat, u: nat, flag: bool, v: nat, enabled: bool) {
    exists i, j, k :: 0 <= i < j < k < n &&
      BegunAt(c, es, t, u, flag, i) && SettingsAt(c, es, t, v, j) && EnabledAt(c, es, t, u, enabled, k)
  }

  ghost predicate DeviceFound(c: Config, es: seq<Event>, n: nat, t: nat, u: nat, v: nat, device: nat, at: int) {
    exists j, d :: 0 <= j < d < n && SettingsAt(c, es, t, v, j) && DeviceAt(c, es, t, u, device, at, d)
  }

  ghost predicate EvidenceRead(c: Config, es: seq<Event>, n: nat, t: nat, u: nat, ev: Evidence) {
    match ev
    case NoMfa(v, flag, enabled) => PolicyRead(c, es, n, t, u, flag, v, enabled)
    case ByDevice(v, d, at) => DeviceFound(c, es, n, t, u, v, d, at)
    case ByChallenge(x, f) => ChallengeSpent(c, es, n, t, u, x, f)
  }

  ghost predicate PhaseRead(c: Config, es: seq<Event>, n: nat, t: nat, u: nat, p: Phase) {
    match p
    case Authenticated(flag, _) => Begun(c, es, n, t, u, flag)
    case HaveSettings(flag, _, v) => SettingsRead(c, es, n, t, u, flag, v)
    case HavePolicy(flag, _, v, enabled) => PolicyRead(c, es, n, t, u, flag, v, enabled)
    case Loaded(x) => ChallengeLoaded(c, es, n, t, u, x)
    case Known(x) => UserRead(c, es, n, t, u, x)
    case Verifying(x, row) => RowRead(c, es, n, t, u, x, row)
    case Matched(x, row, _) => RowRead(c, es, n, t, u, x, row)
    case Factored(x, f) => FactorTaken(c, es, n, t, u, x, f)
    case Minting(ev) => EvidenceRead(c, es, n, t, u, ev)
    case Minted(ev) => EvidenceRead(c, es, n, t, u, ev)
    case _ => true
  }

  ghost predicate History(c: Config, es: seq<Event>, n: nat) {
    n <= |es| && forall t :: 0 <= t < |At(c, es, n).attempts| ==>
      PhaseRead(c, es, n, t, At(c, es, n).attempts[t].user, At(c, es, n).attempts[t].phase)
  }

  lemma {:induction false} ReadsLast(c: Config, es: seq<Event>, n: nat, t: nat, u: nat, p: Phase)
    requires PhaseRead(c, es, n, t, u, p)
    ensures PhaseRead(c, es, n + 1, t, u, p)
  {
  }

  lemma {:induction false} SettingsStep(c: Config, es: seq<Event>, n: nat, t: nat, u: nat, flag: bool)
    requires n < |es| && es[n] == ReadSettings(t) && At(c, es, n).settings != [] && Begun(c, es, n, t, u, flag)
    ensures SettingsRead(c, es, n + 1, t, u, flag, |At(c, es, n).settings| - 1)
  {
    var i :| 0 <= i < n && BegunAt(c, es, t, u, flag, i);
    assert SettingsAt(c, es, t, |At(c, es, n).settings| - 1, n);
  }

  lemma {:induction false} EnabledStep(c: Config, es: seq<Event>, n: nat, t: nat, u: nat, flag: bool, v: nat)
    requires n < |es| && es[n] == ReadEnabled(t) && SettingsRead(c, es, n, t, u, flag, v)
    ensures PolicyRead(c, es, n + 1, t, u, flag, v, IsEnabled(At(c, es, n), u))
  {
    var i, j :| 0 <= i < j < n && BegunAt(c, es, t, u, flag, i) && SettingsAt(c, es, t, v, j);
    assert EnabledAt(c, es, t, u, IsEnabled(At(c, es, n), u), n);
  }

  lemma {:induction false} DeviceStep(
    c: Config, es: seq<Event>, n: nat, t: nat, u: nat, flag: bool, v: nat, enabled: bool, d: nat)
    requires n < |es| && es[n] == Decide(t) && PolicyRead(c, es, n, t, u, flag, v, enabled)
    requires DeviceValid(At(c, es, n), d) && At(c, es, n).devices[d].user == u
    ensures DeviceFound(c, es, n + 1, t, u, v, d, At(c, es, n).clock)
  {
    var i, j, k :| 0 <= i < j < k < n &&
      BegunAt(c, es, t, u, flag, i) && SettingsAt(c, es, t, v, j) && EnabledAt(c, es, t, u, enabled, k);
    assert DeviceAt(c, es, t, u, d, At(c, es, n).clock, n);
  }

  lemma {:induction false} UserStep(c: Config, es: seq<Event>, n: nat, t: nat, u: nat, x: nat)
    requires n < |es| && es[n] == ReadUser(t) && u in At(c, es, n).active && ChallengeLoaded(c, es, n, t, u, x)
    ensures UserRead(c, es, n + 1, t, u, x)
  {
    assert UserReadAt(c, es, t, u, n);
  }

  lemma {:induction false} RowStep(c: Config, es: seq<Event>, n: nat, t: nat, u: nat, x: nat)
    requires n < |es| && es[n] == ReadRow(t) && IsEnabled(At(c, es, n), u) && UserRead(c, es, n, t, u, x)
    ensures RowRead(c, es, n + 1, t, u, x, At(c, es, n).current[u])
  {
    assert RowReadAt(c, es, t, u, At(c, es, n).current[u], n);
  }

  lemma {:induction false} ChargeStep(c: Config, es: seq<Event>, n: nat, t: nat, u: nat, x: nat, row: nat, step: int)
    requires n < |es| && es[n] == MarkUsed(t) && RowRead(c, es, n, t, u, x, row)
    requires HasCurrent(At(c, es, n), u) && At(c, es, n).enrolments[At(c, es, n).current[u]].lastStep < step
    ensures FactorTaken(c, es, n + 1, t, u, x, Totp(At(c, es, n).current[u], row, step))
  {
    assert FactorAt(c, es, t, u, x, Totp(At(c, es, n).current[u], row, step), n);
  }

  lemma {:induction false} CodeStep(c: Config, es: seq<Event>, n: nat, t: nat, u: nat, x: nat, row: nat, code: nat)
    requires n < |es| && es[n] == UseCode(t, code) && CodeUsable(At(c, es, n), code, u)
    requires RowRead(c, es, n, t, u, x, row)
    ensures FactorTaken(c, es, n + 1, t, u, x, Recovery(code))
  {
    var r :| 0 <= r < n && RowReadAt(c, es, t, u, row, r) && UserRead(c, es, r, t, u, x);
    assert EnrolmentAt(c, es, t, u, r);
    assert FactorAt(c, es, t, u, x, Recovery(code), n);
  }

  lemma {:induction false} ConsumeStep(c: Config, es: seq<Event>, n: nat, t: nat, u: nat, x: nat, f: Factor)
    requires n < |es| && es[n] == ConsumeChallenge(t) && FactorTaken(c, es, n, t, u, x, f)
    requires x < |At(c, es, n).challenges| && !At(c, es, n).challenges[x].consumed
    ensures ChallengeSpent(c, es, n + 1, t, u, x, f)
  {
    assert ConsumedAt(c, es, t, x, n);
  }

  /** The attempt an event moves, if it moves one that already exists. */
  function Mover(e: Event): Option<nat> {
    match e
    case Adm(_) => None
    case Begin(_, _) => None
    case LoadChallenge(_) => None
    case _ => Some(e.attempt)
  }

  /** Attempt t has read what phase p says, and the step made p its phase. */
  ghost predicate Moved(c: Config, es: seq<Event>, n: nat, t: nat, r: State)
    requires n < |es| && t < |At(c, es, n).attempts|
  {
    var s := At(c, es, n);
    && |r.attempts| == |s.attempts| && r.attempts[t].user == s.attempts[t].user
    && PhaseRead(c, es, n + 1, t, s.attempts[t].user, r.attempts[t].phase)
  }

  lemma {:induction false} DecisionReads(c: Config, es: seq<Event>, n: nat, t: nat)
    requires n < |es| && es[n] == Decide(t) && Enabled(At(c, es, n), es[n])
    requires PhaseRead(c, es, n, t, At(c, es, n).attempts[t].user, At(c, es, n).attempts[t].phase)
    ensures Moved(c, es, n, t, Decided(c, At(c, es, n), t))
  {
    var s := At(c, es, n);
    var u, p := s.attempts[t].user, s.attempts[t].phase;
    ReadsLast(c, es, n, t, u, p);
    if p.device.Some? && DeviceValid(s, p.device.value) && s.devices[p.device.value].user == u {
      DeviceStep(c, es, n, t, u, p.userRequires, p.version, p.enabled, p.device.value);
    }
  }

  lemma {:induction false} MarkReads(c: Config, es: seq<Event>, n: nat, t: nat)
    requires n < |es| && es[n] == MarkUsed(t) && Enabled(At(c, es, n), es[n])
    requires PhaseRead(c, es, n, t, At(c, es, n).attempts[t].user, At(c, es, n).attempts[t].phase)
    ensures Moved(c, es, n, t, Marked(At(c, es, n), t))
  {
    var s := At(c, es, n);
    var u, p := s.attempts[t].user, s.attempts[t].phase;
    ReadsLast(c, es, n, t, u, p);
    if HasCurrent(s, u) && s.enrolments[s.current[u]].lastStep < p.step {
      ChargeStep(c, es, n, t, u, p.challenge, p.row, p.step);
    }
  }

  lemma {:induction false} PolicyReads(c: Config, es: seq<Event>, n: nat, t: nat)
    requires n < |es| && Enabled(At(c, es, n), es[n]) && (es[n] == ReadSettings(t) || es[n] == ReadEnabled(t))
    requires PhaseRead(c, es, n, t, At(c, es, n).attempts[t].user, At(c, es, n).attempts[t].phase)
    ensures Moved(c, es, n, t, Apply(c, At(c, es, n), es[n]))
  {
    var s := At(c, es, n);
    var u, p := s.attempts[t].user, s.attempts[t].phase;
    if es[n].ReadSettings? {
      SettingsStep(c, es, n, t, u, p.userRequires);
    } else {
      EnabledStep(c, es, n, t, u, p.userRequires, p.version);
    }
  }

  lemma {:induction false} RowReads(c: Config, es: seq<Event>, n: nat, t: nat)
    requires n < |es| && Enabled(At(c, es, n), es[n]) && (es[n] == ReadUser(t) || es[n] == ReadRow(t))
    requires PhaseRead(c, es, n, t, At(c, es, n).attempts[t].user, At(c, es, n).attempts[t].phase)
    ensures Moved(c, es, n, t, Apply(c, At(c, es, n), es[n]))
  {
    var s := At(c, es, n);
    var u, x := s.attempts[t].user, s.attempts[t].phase.challenge;
    if es[n].ReadUser? && u in s.active {
      UserStep(c, es, n, t, u, x);
    }
    if es[n].ReadRow? && IsEnabled(s, u) {
      RowStep(c, es, n, t, u, x);
    }
  }

  lemma {:induction false} CodeReads(c: Config, es: seq<Event>, n: nat, t: nat)
    requires n < |es| && es[n].UseCode? && es[n].attempt == t && Enabled(At(c, es, n), es[n])
    requires PhaseRead(c, es, n, t, At(c, es, n).attempts[t].user, At(c, es, n).attempts[t].phase)
    ensures Moved(c, es, n, t, CodeUsed(At(c, es, n), t, es[n].code))
  {
    var s := At(c, es, n);
    var u, p := s.attempts[t].user, s.attempts[t].phase;
    if CodeUsable(s, es[n].code, u) {
      CodeStep(c, es, n, t, u, p.challenge, p.row, es[n].code);
    }
  }

  lemma {:induction false} ConsumeReads(c: Config, es: seq<Event>, n: nat, t: nat)
    requires n < |es| && es[n] == ConsumeChallenge(t) && Enabled(At(c, es, n), es[n])
    requires PhaseRead(c, es, n, t, At(c, es, n).attempts[t].user, At(c, es, n).attempts[t].phase)
    ensures Moved(c, es, n, t, Consumed(At(c, es, n), t))
  {
    var s := At(c, es, n);
    var u, p := s.attempts[t].user, s.attempts[t].phase;
    if !s.challenges[p.challenge].consumed {
      ConsumeStep(c, es, n, t, u, p.challenge, p.factor);
    }
  }

  lemma {:induction false} PlainReads(c: Config, es: seq<Event>, n: nat, t: nat)
    requires n < |es| && Enabled(At(c, es, n), es[n]) && Mover(es[n]) == Some(t)
    requires es[n].MatchTotp? || es[n].WrongCode? || es[n].FailChallenge? || es[n].Mint?
    requires PhaseRead(c, es, n, t, At(c, es, n).attempts[t].user, At(c, es, n).attempts[t].phase)
    ensures Moved(c, es, n, t, Apply(c, At(c, es, n), es[n]))
  {
    ReadsLast(c, es, n, t, At(c, es, n).attempts[t].user, At(c, es, n).attempts[t].phase);
  }

  /** The attempt whose turn it is has read what its new phase says. */
  lemma {:induction false} MoverReads(c: Config, es: seq<Event>, n: nat, t: nat)
    requires n < |es| && Enabled(At(c, es, n), es[n]) && Mover(es[n]) == Some(t) && t < |At(c, es, n).attempts|
    requires PhaseRead(c, es, n, t, At(c, es, n).attempts[t].user, At(c, es, n).attempts[t].phase)
    ensures Moved(c, es, n, t, Step(c, At(c, es, n), es[n]))
  {
    match es[n]
    case Decide(_) => DecisionReads(c, es, n, t);
    case MarkUsed(_) => MarkReads(c, es, n, t);
    case ReadSettings(_) => PolicyReads(c, es, n, t);
    case ReadEnabled(_) => PolicyReads(c, es, n, t);
    case ReadUser(_) => RowReads(c, es, n, t);
    case ReadRow(_) => RowReads(c, es, n, t);
    case UseCode(_, _) => CodeReads(c, es, n, t);
    case ConsumeChallenge(_) => ConsumeReads(c, es, n, t);
    case _ => PlainReads(c, es, n, t);
  }

  lemma OthersStay(c: Config, s: State, e: Event, t: nat)
    requires t < |s.attempts| && (Enabled(s, e) ==> Mover(e) != Some(t))
    ensures t < |Step(c, s, e).attempts| && Step(c, s, e).attempts[t] == s.attempts[t]
  {
  }

  lemma {:induction false} NewcomerReads(c: Config, es: seq<Event>, n: nat, t: nat)
    requires n < |es| && |At(c, es, n).attempts| <= t < |Step(c, At(c, es, n), es[n]).attempts|
    ensures
      var x := Step(c, At(c, es, n), es[n]).attempts[t];
      PhaseRead(c, es, n + 1, t, x.user, x.phase)
  {
    var s := At(c, es, n);
    OnlyTwoStart(c, s, es[n], t);
    if es[n].LoadChallenge? {
      assert LoadedAt(c, es, t, s.challenges[es[n].challenge].user, es[n].challenge, n);
    } else {
      assert BegunAt(c, es, t, es[n].user, es[n].user in s.flagged, n);
    }
  }

  /** An attempt starts by logging in or by loading a challenge. */
  lemma OnlyTwoStart(c: Config, s: State, e: Event, t: nat)
    requires |s.attempts| <= t < |Step(c, s, e).attempts|
    ensures Enabled(s, e) && (e.Begin? || e.LoadChallenge?) && t == |s.attempts|
    ensures Step(c, s, e).attempts[t] ==
      if e.Begin? then Attempt(e.user, Authenticated(e.user in s.flagged, e.device))
      else Attempt(s.challenges[e.challenge].user, Loaded(e.challenge))
  {
  }

  lemma {:induction false} HistoryHolds(c: Config, es: seq<Event>, n: nat)
    requires n <= |es|
    ensures History(c, es, n)
  {
    if n > 0 {
      var m := n - 1;
      HistoryHolds(c, es, m);
      Next(c, es, m);
      var s, r := At(c, es, m), At(c, es, n);
      forall t | 0 <= t < |r.attempts| ensures PhaseRead(c, es, n, t, r.attempts[t].user, r.attempts[t].phase) {
        if t >= |s.attempts| {
          NewcomerReads(c, es, m, t);
        } else if Enabled(s, es[m]) && Mover(es[m]) == Some(t) {
          MoverReads(c, es, m, t);
        } else {
          OthersStay(c, s, es[m], t);
          ReadsLast(c, es, m, t, s.attempts[t].user, s.attempts[t].phase);
        }
      }
    }
  }

  /**
   * Every minted session rests on a lenient policy, a valid trusted device, or a challenge and a factor, and
   * what it rests on was read from the store on this run, in the code's order. Without a second factor: the
   * account's own flag when it logged in, the settings in force after that, and its enrolment after that.
   * On a device: the settings in force, and the device valid after that. With a challenge: the challenge
   * open, after that the user active, after that the enrolment confirmed, after that an unused recovery code
   * or the row the step was charged to, and after that the challenge still unconsumed.
   */
  lemma {:induction false} EverySessionIsBacked(c: Config, es: seq<Event>, t: nat)
    requires t < |Exec(c, es).attempts| && Exec(c, es).attempts[t].phase.Minted?
    ensures Backed(Exec(c, es), Exec(c, es).attempts[t].user, Exec(c, es).attempts[t].phase.evidence)
    ensures EvidenceRead(c, es, |es|, t, Exec(c, es).attempts[t].user, Exec(c, es).attempts[t].phase.evidence)
  {
    ExecKeeps(c, es);
    HistoryHolds(c, es, |es|);
    assert es[..|es|] == es;
    var s := At(c, es, |es|);
    assert s == Exec(c, es);
    assert PhaseOk(s, s.attempts[t].user, s.attempts[t].phase);
    assert PhaseRead(c, es, |es|, t, s.attempts[t].user, s.attempts[t].phase);
  }

  // ---------------------------------------------------------------------------
  // Which row a step is charged to
  // ---------------------------------------------------------------------------

  /** User u enrols anew at some event from r up to, not including, m. */
  ghost predicate EnrolsBetween(es: seq<Event>, u: nat, r: nat, m: nat) {
    exists i :: r <= i < m && EnrolsAt(es, u, i)
  }

  predicate EnrolsAt(es: seq<Event>, u: nat, i: nat) {
    i < |es| && es[i].Adm? && es[i].admin.Enrol? && es[i].admin.user == u
  }

  /** The user's row stays the same unless the user enrols anew, and is then a newer one. */
  lemma RowStepChange(c: Config, s: State, e: Event, u: nat)
    requires HasCurrent(Step(c, s, e), u)
    ensures |s.enrolments| <= |Step(c, s, e).enrolments|
    ensures e.Adm? && e.admin.Enrol? && e.admin.user == u ==> Step(c, s, e).current[u] == |s.enrolments|
    ensures !(e.Adm? && e.admin.Enrol? && e.admin.user == u) ==>
      u in s.current && Step(c, s, e).current[u] == s.current[u]
  {
  }

  lemma EnrolmentsGrow(c: Config, s: State, e: Event)
    ensures |s.enrolments| <= |Step(c, s, e).enrolments|
  {
  }

  /** The row of user u in b, given that in a, and whether the user enrolled anew in between. */
  predicate RowFollows(a: State, b: State, u: nat, anew: bool) {
    u in a.current && u in b.current &&
    if anew then b.current[u] >= |a.enrolments| else b.current[u] == a.current[u]
  }

  lemma {:induction false} EnrolsOneMore(es: seq<Event>, u: nat, r: nat, k: nat)
    requires r <= k < |es|
    ensures EnrolsBetween(es, u, r, k + 1) <==> EnrolsBetween(es, u, r, k) || EnrolsAt(es, u, k)
  {
  }

  lemma {:induction false} RowChangesOnlyByEnrolment(c: Config, es: seq<Event>, u: nat, r: nat, m: nat)
    requires r <= m <= |es| && HasCurrent(At(c, es, r), u)
    ensures |At(c, es, r).enrolments| <= |At(c, es, m).enrolments|
    ensures HasCurrent(At(c, es, m), u) ==> RowFollows(At(c, es, r), At(c, es, m), u, EnrolsBetween(es, u, r, m))
    decreases m - r
  {
    if r < m {
      var k := m - 1;
      RowChangesOnlyByEnrolment(c, es, u, r, k);
      Next(c, es, k);
      EnrolmentsGrow(c, At(c, es, k), es[k]);
      EnrolsOneMore(es, u, r, k);
      if HasCurrent(At(c, es, m), u) {
        RowStepChange(c, At(c, es, k), es[k], u);
        CurrentInRange(c, es[..k]);
      }
    }
  }

  lemma {:induction false} CurrentInRange(c: Config, es: seq<Event>)
    ensures forall u :: u in Exec(c, es).current ==> HasCurrent(Exec(c, es), u)
  {
    ExecKeeps(c, es);
    var s := Exec(c, es);
    assert forall u :: u in s.current ==> RowOf(s, u, s.current[u]);
  }

  lemma {:induction false} ReadAndCharged(
    c: Config, es: seq<Event>, t: nat, u: nat, x: nat, f: Factor) returns (r: nat, m: nat)
    requires f.Totp? && ChallengeSpent(c, es, |es|, t, u, x, f)
    ensures r < m < |es| && RowReadAt(c, es, t, u, f.verified, r) && ChargedAt(c, es, t, u, f.charged, f.step, m)
  {
    var k :| 0 <= k < |es| && ConsumedAt(c, es, t, x, k) && FactorTaken(c, es, k, t, u, x, f);
    var m' :| 0 <= m' < k && FactorAt(c, es, t, u, x, f, m');
    var r' :| 0 <= r' < m' && RowReadAt(c, es, t, u, f.verified, r') && UserRead(c, es, r', t, u, x);
    return r', m';
  }

  /**
   * A session's step was charged to another row than the one its code was checked against exactly when the
   * user enrolled anew between the attempt's reading of the row and its marking of the step.
   */
  lemma {:induction false} ChargedElsewhereIffReenrolled(c: Config, es: seq<Event>, t: nat) returns (r: nat, m: nat)
    requires t < |Exec(c, es).attempts| && Exec(c, es).attempts[t].phase.Minted?
    requires Exec(c, es).attempts[t].phase.evidence.ByChallenge? && Exec(c, es).attempts[t].phase.evidence.factor.Totp?
    ensures
      var u, f := Exec(c, es).attempts[t].user, Exec(c, es).attempts[t].phase.evidence.factor;
      && r < m < |es| && RowReadAt(c, es, t, u, f.verified, r) && ChargedAt(c, es, t, u, f.charged, f.step, m)
      && (f.charged != f.verified <==> EnrolsBetween(es, u, r, m))
  {
    EverySessionIsBacked(c, es, t);
    var u, f := Exec(c, es).attempts[t].user, Exec(c, es).attempts[t].phase.evidence.factor;
    r, m := ReadAndCharged(c, es, t, u, Exec(c, es).attempts[t].phase.evidence.challenge, f);
    RowChangesOnlyByEnrolment(c, es, u, r, m);
  }

  /**
   * Two sessions rest on the same step of the same checked enrolment only if one of them was charged to
   * another row, its user having enrolled anew while its attempt was under way.
   */
  lemma {:induction false} SharedCodeNeedsReenrolment(c: Config, es: seq<Event>, t: nat, v: nat)
    requires t < |Exec(c, es).attempts| && v < |Exec(c, es).attempts| && t != v
    requires Exec(c, es).attempts[t].phase.Minted? && Exec(c, es).attempts[t].phase.evidence.ByChallenge?
    requires Exec(c, es).attempts[v].phase.Minted? && Exec(c, es).attempts[v].phase.evidence.ByChallenge?
    requires Exec(c, es).attempts[t].phase.evidence.factor.Totp? && Exec(c, es).attempts[v].phase.evidence.factor.Totp?
    requires Exec(c, es).attempts[t].phase.evidence.factor.verified ==
             Exec(c, es).attempts[v].phase.evidence.factor.verified
    requires Exec(c, es).attempts[t].phase.evidence.factor.step == Exec(c, es).attempts[v].phase.evidence.factor.step
    ensures
      || Reenrolled(c, es, t, Exec(c, es).attempts[t].user, Exec(c, es).attempts[t].phase.evidence.factor)
      || Reenrolled(c, es, v, Exec(c, es).attempts[v].user, Exec(c, es).attempts[v].phase.evidence.factor)
  {
    NothingBacksTwoSessions(c, es, t, v);
    var r1, m1 := ChargedElsewhereIffReenrolled(c, es, t);
    var r2, m2 := ChargedElsewhereIffReenrolled(c, es, v);
  }

  /** The user enrolled anew between attempt t's reading of the row and its charging of the step. */
  ghost predicate Reenrolled(c: Config, es: seq<Event>, t: nat, u: nat, f: Factor) {
    f.Totp? && exists r, m ::
      0 <= r < m < |es| && RowReadAt(c, es, t, u, f.verified, r) && ChargedAt(c, es, t, u, f.charged, f.step, m) &&
      EnrolsBetween(es, u, r, m)
  }

  function Extend(es: seq<Event>, e: Event): seq<Event> {
    es + [e]
  }

  lemma {:induction false} ExtendSteps(c: Config, es: seq<Event>, e: Event)
    ensures Exec(c, Extend(es, e)) == Step(c, Exec(c, es), e)
  {
    assert Extend(es, e)[..|es|] == es;
  }

  /** One user with a confirmed enrolment, who must present a second factor. */
  function Enrolled(c: Config): State {
    State([c.defaults], {0}, {0}, map[0 := 0], [Enrolment(0, true, 0)], [], [], [], [], 0)
  }

  lemma UserEnrols(c: Config) returns (es: seq<Event>)
    ensures Exec(c, es) == Enrolled(c)
  {
    es := Extend([], Adm(SetActive(0, true)));
    ExtendSteps(c, [], Adm(SetActive(0, true)));
    ExtendSteps(c, es, Adm(RequireMfa(0, true)));
    es := Extend(es, Adm(RequireMfa(0, true)));
    ExtendSteps(c, es, Adm(Enrol(0, 0)));
    es := Extend(es, Adm(Enrol(0, 0)));
    assert Exec(c, es) == Enrolled(c).(enrolments := [Enrolment(0, false, -1)]);
    ExtendSteps(c, es, Adm(Enable(0, 0)));
    es := Extend(es, Adm(Enable(0, 0)));
  }

  /** The challenge a login of user 0 opens at time zero. */
  function Opened(c: Config): Challenge {
    NewChallenge(c, 0, 0)
  }

  /** A login by the user ends with a challenge. */
  lemma {:induction false} LoginOpensChallenge(c: Config, es: seq<Event>) returns (more: seq<Event>)
    requires var s := Exec(c, es);
      s == Enrolled(c).(attempts := s.attempts, challenges := s.challenges)
    ensures
      var s := Exec(c, es);
      Exec(c, more) == s.(attempts := s.attempts + [Attempt(0, Over)], challenges := s.challenges + [Opened(c)])
  {
    var s := Exec(c, es);
    var t := |s.attempts|;
    ExtendSteps(c, es, Begin(0, None));
    more := Extend(es, Begin(0, None));
    ExtendSteps(c, more, ReadSettings(t));
    more := Extend(more, ReadSettings(t));
    assert Exec(c, more).attempts == s.attempts + [Attempt(0, HaveSettings(true, None, 0))];
    ExtendSteps(c, more, ReadEnabled(t));
    more := Extend(more, ReadEnabled(t));
    assert Exec(c, more).attempts == s.attempts + [Attempt(0, HavePolicy(true, None, 0, true))];
    ExtendSteps(c, more, Decide(t));
    more := Extend(more, Decide(t));
    assert Exec(c, more).attempts == s.attempts + [Attempt(0, Over)];
  }

  /** Two logins are over, their challenges are open, and two verifications of them stand at a and b. */
  function Scene(c: Config, a: Phase, b: Phase): State {
    Enrolled(c).(attempts := [Attempt(0, Over), Attempt(0, Over), Attempt(0, a), Attempt(0, b)],
                 challenges := [Opened(c), Opened(c)])
  }

  lemma BothLoad(c: Config) returns (es: seq<Event>)
    requires c.challengeTtl >= 1
    ensures Exec(c, es) == Scene(c, Loaded(0), Loaded(1))
  {
    es := UserEnrols(c);
    es := LoginOpensChallenge(c, es);
    es := LoginOpensChallenge(c, es);
    ExtendSteps(c, es, LoadChallenge(0));
    es := Extend(es, LoadChallenge(0));
    ExtendSteps(c, es, LoadChallenge(1));
    es := Extend(es, LoadChallenge(1));
    assert Exec(c, es).attempts == Scene(c, Loaded(0), Loaded(1)).attempts;
    assert Exec(c, es).challenges == [Opened(c), Opened(c)];
  }

  /** One attempt of a scene moves on by one event, and nothing else changes. */
  lemma {:induction false} SceneMoves(c: Config, es: seq<Event>, e: Event, a: Phase, b: Phase, p: Phase)
    requires Exec(c, es) == Scene(c, a, b)
    requires (e.ReadUser? || e.ReadRow? || e.MatchTotp?) && (e.attempt == 2 || e.attempt == 3)
    requires Enabled(Exec(c, es), e) && Apply(c, Exec(c, es), e) == Set(Exec(c, es), e.attempt, p)
    ensures Exec(c, Extend(es, e)) == if e.attempt == 2 then Scene(c, p, b) else Scene(c, a, p)
  {
    ExtendSteps(c, es, e);
  }

  lemma BothMatch(c: Config) returns (es: seq<Event>)
    requires c.challengeTtl >= 1
    ensures Exec(c, es) == Scene(c, Matched(0, 0, 5), Matched(1, 0, 5))
  {
    es := BothLoad(c);
    SceneMoves(c, es, ReadUser(2), Loaded(0), Loaded(1), Known(0));
    es := Extend(es, ReadUser(2));
    SceneMoves(c, es, ReadUser(3), Known(0), Loaded(1), Known(1));
    es := Extend(es, ReadUser(3));
    SceneMoves(c, es, ReadRow(2), Known(0), Known(1), Verifying(0, 0));
    es := Extend(es, ReadRow(2));
    SceneMoves(c, es, ReadRow(3), Verifying(0, 0), Known(1), Verifying(1, 0));
    es := Extend(es, ReadRow(3));
    SceneMoves(c, es, MatchTotp(2, 5), Verifying(0, 0), Verifying(1, 0), Matched(0, 0, 5));
    es := Extend(es, MatchTotp(2, 5));
    SceneMoves(c, es, MatchTotp(3, 5), Matched(0, 0, 5), Verifying(1, 0), Matched(1, 0, 5));
    es := Extend(es, MatchTotp(3, 5));
  }

  /** The rows after the user enrolled anew between the two charges. */
  function Renewed(s: State): State {
    s.(enrolments := [Enrolment(0, true, 5), Enrolment(0, false, 5)], current := map[0 := 1])
  }

  /** The first verification charges its step. */
  lemma FirstCharges(c: Config) returns (es: seq<Event>)
    requires c.challengeTtl >= 1
    ensures Exec(c, es) ==
      Scene(c, Factored(0, Totp(0, 0, 5)), Matched(1, 0, 5)).(enrolments := [Enrolment(0, true, 5)])
  {
    es := BothMatch(c);
    ExtendSteps(c, es, MarkUsed(2));
    es := Extend(es, MarkUsed(2));
    assert Exec(c, es).attempts == Scene(c, Factored(0, Totp(0, 0, 5)), Matched(1, 0, 5)).attempts;
  }

  /** Then the user enrols anew. */
  lemma UserReenrols(c: Config) returns (es: seq<Event>)
    requires c.challengeTtl >= 1
    ensures Exec(c, es) == Scene(c, Factored(0, Totp(0, 0, 5)), Matched(1, 0, 5)).(
      enrolments := [Enrolment(0, true, 5), Enrolment(0, false, -1)], current := map[0 := 1])
  {
    es := FirstCharges(c);
    ExtendSteps(c, es, Adm(Enrol(0, 0)));
    es := Extend(es, Adm(Enrol(0, 0)));
    assert Exec(c, es).enrolments == [Enrolment(0, true, 5), Enrolment(0, false, -1)];
    assert Exec(c, es).codes == [] && Exec(c, es).current == map[0 := 1];
  }

  lemma BothCharge(c: Config) returns (es: seq<Event>)
    requires c.challengeTtl >= 1
    ensures Exec(c, es) == Renewed(Scene(c, Factored(0, Totp(0, 0, 5)), Factored(1, Totp(1, 0, 5))))
  {
    es := UserReenrols(c);
    ExtendSteps(c, es, MarkUsed(3));
    es := Extend(es, MarkUsed(3));
    assert Exec(c, es).attempts == Scene(c, Factored(0, Totp(0, 0, 5)), Factored(1, Totp(1, 0, 5))).attempts;
  }

  lemma {:induction false} Consumes(c: Config, es: seq<Event>, t: nat, x: nat, f: Factor)
    requires t < |Exec(c, es).attempts| && Exec(c, es).attempts[t].phase == Factored(x, f)
    requires x < |Exec(c, es).challenges| && !Exec(c, es).challenges[x].consumed
    ensures
      var s, r := Exec(c, es), Exec(c, Extend(Extend(es, ConsumeChallenge(t)), Mint(t)));
      && r.attempts == s.attempts[t := s.attempts[t].(phase := Minted(ByChallenge(x, f)))]
      && r.challenges == s.challenges[x := s.challenges[x].(consumed := true)]
  {
    ExtendSteps(c, es, ConsumeChallenge(t));
    var mid := Extend(es, ConsumeChallenge(t));
    assert Exec(c, mid) == Consumed(Exec(c, es), t);
    assert Exec(c, mid).attempts[t].phase == Minting(ByChallenge(x, f));
    ExtendSteps(c, mid, Mint(t));
  }

  /**
   * The condition is real: one code checked by two verifications, with the user enrolling anew between their
   * charges, ends in two sessions on the same step of the same checked enrolment.
   */
  lemma ReenrolmentCanShareACode(c: Config) returns (es: seq<Event>)
    requires c.challengeTtl >= 1
    ensures
      var s := Exec(c, es);
      && |s.attempts| == 4
      && s.attempts[2] == Attempt(0, Minted(ByChallenge(0, Totp(0, 0, 5))))
      && s.attempts[3] == Attempt(0, Minted(ByChallenge(1, Totp(1, 0, 5))))
  {
    es := BothCharge(c);
    Consumes(c, es, 2, 0, Totp(0, 0, 5));
    es := Extend(Extend(es, ConsumeChallenge(2)), Mint(2));
    Consumes(c, es, 3, 1, Totp(1, 0, 5));
    es := Extend(Extend(es, ConsumeChallenge(3)), Mint(3));
  }

  // ---------------------------------------------------------------------------
  // How many codes are checked on one challenge
  // ---------------------------------------------------------------------------

  /** The event checks a code for challenge x. */
  predicate IsGuess(s: State, e: Event, x: nat) {
    Enabled(s, e) && (e.MatchTotp? || e.WrongCode? || e.UseCode?) && s.attempts[e.attempt].phase.challenge == x
  }

  /** How many codes the run has checked for challenge x. */
  function Guesses(c: Config, es: seq<Event>, x: nat): nat {
    if es == [] then 0
    else
      var before := es[..|es| - 1];
      Guesses(c, before, x) + if IsGuess(Exec(c, before), es[|es| - 1], x) then 1 else 0
  }

  /** A verification under way is before or after the check of its code. */
  datatype Side = Before | After

  function Weight(p: Phase, x: nat, side: Side): nat {
    match p
    case Loaded(y) => if x == y && side == Before then 1 else 0
    case Known(y) => if x == y && side == Before then 1 else 0
    case Verifying(y, _) => if x == y && side == Before then 1 else 0
    case Matched(y, _, _) => if x == y && side == After then 1 else 0
    case Refused(y) => if x == y && side == After then 1 else 0
    case Factored(y, _) => if x == y && side == After then 1 else 0
    case _ => 0
  }

  /** How many of the attempts are verifications of challenge x on that side of the check. */
  function Tally(attempts: seq<Attempt>, x: nat, side: Side): nat {
    if attempts == [] then 0
    else Tally(attempts[..|attempts| - 1], x, side) + Weight(attempts[|attempts| - 1].phase, x, side)
  }

  /** The verifications of challenge x under way. */
  function InFlight(s: State, x: nat): nat {
    Tally(s.attempts, x, Before) + Tally(s.attempts, x, After)
  }

  lemma TallyAppend(a: seq<Attempt>, v: Attempt, x: nat, side: Side)
    ensures Tally(a + [v], x, side) == Tally(a, x, side) + Weight(v.phase, x, side)
  {
    assert (a + [v])[..|a|] == a;
  }

  lemma {:induction false} TallySet(a: seq<Attempt>, t: nat, q: Phase, x: nat, side: Side)
    requires t < |a|
    ensures Tally(a[t := a[t].(phase := q)], x, side) + Weight(a[t].phase, x, side) ==
            Tally(a, x, side) + Weight(q, x, side)
  {
    var n := |a| - 1;
    var b := a[t := a[t].(phase := q)];
    if t == n {
      assert b[..n] == a[..n];
    } else {
      TallySet(a[..n], t, q, x, side);
      assert b[..n] == a[..n][t := a[t].(phase := q)];
    }
  }

  /** A challenge that does not exist yet is being verified by nobody. */
  lemma {:induction false} NobodyYet(s: State, a: seq<Attempt>, x: nat, side: Side)
    requires x >= |s.challenges| && forall i :: 0 <= i < |a| ==> PhaseOk(s, a[i].user, a[i].phase)
    ensures Tally(a, x, side) == 0
  {
    if a != [] {
      NobodyYet(s, a[..|a| - 1], x, side);
      assert PhaseOk(s, a[|a| - 1].user, a[|a| - 1].phase);
    }
  }

  predicate Unconsumed(s: State, x: nat) {
    x < |s.challenges| && !s.challenges[x].consumed
  }

  /** After g checks: as long as a challenge is unconsumed, each was either counted against it or is still to be. */
  predicate Counted(s: State, x: nat, g: nat) {
    && (x >= |s.challenges| ==> g == 0)
    && (Unconsumed(s, x) ==>
          && g == s.challenges[x].attempts + Tally(s.attempts, x, After)
          && s.challenges[x].attempts < s.challenges[x].maxAttempts)
  }

  lemma AdminCounts(s: State, a: Admin, x: nat, g: nat)
    requires AttemptsOk(s) && Counted(s, x, g)
    ensures Counted(Administer(s, a), x, g)
  {
    if x >= |s.challenges| {
      NobodyYet(s, s.attempts, x, After);
    }
  }

  lemma SpawnCounts(c: Config, s: State, e: Event, x: nat, g: nat)
    requires Counted(s, x, g) && Enabled(s, e) && (e.Begin? || e.LoadChallenge?)
    ensures Counted(Apply(c, s, e), x, g)
  {
    var t := Apply(c, s, e);
    TallyAppend(s.attempts, t.attempts[|s.attempts|], x, After);
  }

  lemma DecideCounts(c: Config, s: State, t: nat, x: nat, g: nat)
    requires AttemptsOk(s) && Counted(s, x, g) && Enabled(s, Decide(t))
    ensures Counted(Decided(c, s, t), x, g)
  {
    var r := Decided(c, s, t);
    TallySet(s.attempts, t, r.attempts[t].phase, x, After);
    if x >= |s.challenges| {
      NobodyYet(s, s.attempts, x, After);
    }
  }

  /** A check takes its verification to the other side. */
  lemma GuessCrosses(c: Config, s: State, e: Event)
    requires Enabled(s, e) && (e.MatchTotp? || e.WrongCode? || e.UseCode?)
    ensures
      var p, q := s.attempts[e.attempt].phase, Apply(c, s, e).attempts[e.attempt].phase;
      && p.Verifying? && (q.Matched? || q.Refused? || q.Factored?) && q.challenge == p.challenge
      && Apply(c, s, e).attempts == s.attempts[e.attempt := s.attempts[e.attempt].(phase := q)]
      && Apply(c, s, e).challenges == s.challenges
  {
  }

  lemma GuessCounts(c: Config, s: State, e: Event, x: nat, g: nat)
    requires AttemptsOk(s) && Counted(s, x, g) && Enabled(s, e) && (e.MatchTotp? || e.WrongCode? || e.UseCode?)
    ensures Counted(Apply(c, s, e), x, if IsGuess(s, e, x) then g + 1 else g)
  {
    var t := e.attempt;
    assert PhaseOk(s, s.attempts[t].user, s.attempts[t].phase);
    GuessCrosses(c, s, e);
    TallySet(s.attempts, t, Apply(c, s, e).attempts[t].phase, x, After);
  }

  lemma MarkCounts(s: State, t: nat, x: nat, g: nat)
    requires Counted(s, x, g) && Enabled(s, MarkUsed(t))
    ensures Counted(Marked(s, t), x, g)
  {
    TallySet(s.attempts, t, Marked(s, t).attempts[t].phase, x, After);
  }

  lemma EndCounts(c: Config, s: State, e: Event, x: nat, g: nat)
    requires Counted(s, x, g) && Enabled(s, e) && (e.FailChallenge? || e.ConsumeChallenge?)
    ensures Counted(Apply(c, s, e), x, g)
  {
    TallySet(s.attempts, e.attempt, Apply(c, s, e).attempts[e.attempt].phase, x, After);
  }

  lemma QuietCounts(c: Config, s: State, e: Event, x: nat, g: nat)
    requires Counted(s, x, g) && Enabled(s, e)
    requires e.ReadSettings? || e.ReadEnabled? || e.ReadUser? || e.ReadRow? || e.Mint?
    ensures Counted(Apply(c, s, e), x, g)
  {
    TallySet(s.attempts, e.attempt, Apply(c, s, e).attempts[e.attempt].phase, x, After);
  }

  lemma StepCounts(c: Config, s: State, e: Event, x: nat, g: nat)
    requires AttemptsOk(s) && Counted(s, x, g)
    ensures Counted(Step(c, s, e), x, if IsGuess(s, e, x) then g + 1 else g)
  {
    if Enabled(s, e) {
      match e {
        case Adm(a) => AdminCounts(s, a, x, g);
        case Begin(_, _) => SpawnCounts(c, s, e, x, g);
        case LoadChallenge(_) => SpawnCounts(c, s, e, x, g);
        case Decide(t) => DecideCounts(c, s, t, x, g);
        case MatchTotp(_, _) => GuessCounts(c, s, e, x, g);
        case WrongCode(_) => GuessCounts(c, s, e, x, g);
        case UseCode(_, _) => GuessCounts(c, s, e, x, g);
        case MarkUsed(t) => MarkCounts(s, t, x, g);
        case FailChallenge(_) => EndCounts(c, s, e, x, g);
        case ConsumeChallenge(_) => EndCounts(c, s, e, x, g);
        case _ => QuietCounts(c, s, e, x, g);
      }
    }
  }

  lemma {:induction false} ExecCounts(c: Config, es: seq<Event>, x: nat)
    ensures Counted(Exec(c, es), x, Guesses(c, es, x))
  {
    if es != [] {
      var before := es[..|es| - 1];
      ExecCounts(c, before, x);
      ExecKeeps(c, before);
      StepCounts(c, Exec(c, before), es[|es| - 1], x, Guesses(c, before, x));
    }
  }

  /** Once a challenge is consumed nobody starts verifying it, so only those under way can still check a code. */
  lemma StepSpends(c: Config, s: State, e: Event, x: nat)
    requires x < |s.challenges| && !Unconsumed(Step(c, s, e), x)
    ensures (if IsGuess(s, e, x) then 1 else 0) + Tally(Step(c, s, e).attempts, x, Before) <=
      Tally(s.attempts, x, Before)
  {
    if Enabled(s, e) {
      if Mover(e).Some? {
        MoverSpends(c, s, e, x);
      } else if e.Adm? {
        assert Administer(s, e.admin).attempts == s.attempts;
      } else {
        SpawnSpends(c, s, e, x);
      }
    }
  }

  lemma SpawnSpends(c: Config, s: State, e: Event, x: nat)
    requires Enabled(s, e) && (e.Begin? || e.LoadChallenge?) && !Unconsumed(s, x)
    ensures Tally(Apply(c, s, e).attempts, x, Before) == Tally(s.attempts, x, Before)
  {
    TallyAppend(s.attempts, Apply(c, s, e).attempts[|s.attempts|], x, Before);
  }

  lemma MoverSpends(c: Config, s: State, e: Event, x: nat)
    requires Enabled(s, e) && Mover(e).Some?
    ensures (if IsGuess(s, e, x) then 1 else 0) + Tally(Apply(c, s, e).attempts, x, Before) <=
      Tally(s.attempts, x, Before)
  {
    var t, r := e.attempt, Apply(c, s, e);
    MoverSets(c, s, e);
    TallySet(s.attempts, t, r.attempts[t].phase, x, Before);
  }

  /** Only the mover's phase changes, and it gets no further from the check. */
  lemma MoverSets(c: Config, s: State, e: Event)
    requires Enabled(s, e) && Mover(e).Some?
    ensures
      var t, r := e.attempt, Apply(c, s, e);
      && t < |s.attempts| && |r.attempts| == |s.attempts|
      && r.attempts == s.attempts[t := s.attempts[t].(phase := r.attempts[t].phase)]
      && forall x :: (if IsGuess(s, e, x) then 1 else 0) + Weight(r.attempts[t].phase, x, Before) <=
                     Weight(s.attempts[t].phase, x, Before)
  {
  }

  lemma ConsumedLasts(c: Config, s: State, e: Event, x: nat)
    requires x < |Step(c, s, e).challenges| && !Unconsumed(Step(c, s, e), x)
    ensures x < |s.challenges|
  {
  }

  /** k is the last of the first n states in which challenge x is unconsumed. */
  predicate LastOpen(c: Config, es: seq<Event>, n: nat, x: nat, k: nat) {
    && k <= n <= |es| && Unconsumed(At(c, es, k), x)
    && (k < n ==> x < |At(c, es, k + 1).challenges| && At(c, es, k + 1).challenges[x].consumed)
  }

  lemma {:induction false} GuessesAfter(c: Config, es: seq<Event>, n: nat, x: nat) returns (k: nat)
    requires n <= |es| && x < |At(c, es, n).challenges|
    ensures LastOpen(c, es, n, x, k)
    ensures Guesses(c, es[..n], x) + Tally(At(c, es, n).attempts, x, Before) <=
            At(c, es, k).challenges[x].attempts + InFlight(At(c, es, k), x)
  {
    if Unconsumed(At(c, es, n), x) {
      k := n;
      ExecCounts(c, es[..n], x);
    } else {
      var m := n - 1;
      Next(c, es, m);
      ConsumedLasts(c, At(c, es, m), es[m], x);
      k := GuessesAfter(c, es, m, x);
      StepSpends(c, At(c, es, m), es[m], x);
      assert es[..n][..m] == es[..m];
    }
  }

  /** Every login challenge carries the configured budget. */
  predicate Budgeted(c: Config, s: State) {
    forall x :: 0 <= x < |s.challenges| && s.challenges[x].login ==> s.challenges[x].maxAttempts == Budget(c)
  }

  lemma {:induction false} BudgetHolds(c: Config, es: seq<Event>)
    ensures Budgeted(c, Exec(c, es))
  {
    if es != [] {
      BudgetHolds(c, es[..|es| - 1]);
      BudgetStep(c, Exec(c, es[..|es| - 1]), es[|es| - 1]);
    }
  }

  lemma BudgetStep(c: Config, s: State, e: Event)
    requires Budgeted(c, s)
    ensures Budgeted(c, Step(c, s, e))
  {
  }

  lemma LoginStays(c: Config, s: State, e: Event, x: nat)
    requires x < |s.challenges|
    ensures x < |Step(c, s, e).challenges| && Step(c, s, e).challenges[x].login == s.challenges[x].login
  {
  }

  lemma {:induction false} LoginLasts(c: Config, es: seq<Event>, k: nat, n: nat, x: nat)
    requires k <= n <= |es| && x < |At(c, es, k).challenges|
    ensures x < |At(c, es, n).challenges| && At(c, es, n).challenges[x].login == At(c, es, k).challenges[x].login
    decreases n - k
  {
    if k < n {
      LoginLasts(c, es, k, n - 1, x);
      Next(c, es, n - 1);
      LoginStays(c, At(c, es, n - 1), es[n - 1], x);
    }
  }

  /**
   * On every run the codes checked for a login challenge are fewer than the budget and the verifications under
   * way when it was last unconsumed, together: a verification already loaded is not called back.
   */
  lemma {:induction false} GuessesBounded(c: Config, es: seq<Event>, x: nat) returns (k: nat)
    requires x < |Exec(c, es).challenges| && Exec(c, es).challenges[x].login
    ensures LastOpen(c, es, |es|, x, k)
    ensures Guesses(c, es, x) < Budget(c) + InFlight(At(c, es, k), x)
  {
    assert es[..|es|] == es;
    k := GuessesAfter(c, es, |es|, x);
    LoginLasts(c, es, k, |es|, x);
    BudgetHolds(c, es[..k]);
    ExecCounts(c, es[..k], x);
  }

  /** n verifications of the one open challenge, the first k of which have found their code wrong. */
  function Crowd(c: Config, n: nat, k: nat): State {
    Enrolled(c).(
      challenges := [Opened(c)],
      attempts := [Attempt(0, Over)] + seq(n, i => Attempt(0, if i < k then Refused(0) else Loaded(0))))
  }

  lemma CrowdStarts(c: Config) returns (es: seq<Event>)
    ensures Exec(c, es) == Crowd(c, 0, 0)
  {
    es := UserEnrols(c);
    es := LoginOpensChallenge(c, es);
    assert Exec(c, es).attempts == [] + [Attempt(0, Over)] == Crowd(c, 0, 0).attempts;
  }

  lemma {:induction false} CrowdGrows(c: Config, es: seq<Event>, n: nat)
    requires c.challengeTtl >= 1 && Exec(c, es) == Crowd(c, n, 0)
    ensures Exec(c, Extend(es, LoadChallenge(0))) == Crowd(c, n + 1, 0)
  {
    ExtendSteps(c, es, LoadChallenge(0));
    assert Exec(c, Extend(es, LoadChallenge(0))).attempts == Crowd(c, n + 1, 0).attempts;
  }

  lemma {:induction false} CrowdLoads(c: Config, n: nat) returns (es: seq<Event>)
    requires c.challengeTtl >= 1
    ensures Exec(c, es) == Crowd(c, n, 0)
  {
    if n == 0 {
      es := CrowdStarts(c);
    } else {
      es := CrowdLoads(c, n - 1);
      CrowdGrows(c, es, n - 1);
      es := Extend(es, LoadChallenge(0));
    }
  }

  lemma {:induction false} NobodyRefused(c: Config, n: nat)
    ensures Tally(Crowd(c, n, 0).attempts, 0, After) == 0
  {
    var a := Crowd(c, n, 0).attempts;
    if n > 0 {
      NobodyRefused(c, n - 1);
      assert a[..|a| - 1] == Crowd(c, n - 1, 0).attempts;
    } else {
      assert a[..|a| - 1] == [];
    }
  }

  lemma {:induction false} CrowdGuesses(c: Config, n: nat, k: nat) returns (es: seq<Event>)
    requires c.challengeTtl >= 1 && k <= n
    ensures Exec(c, es) == Crowd(c, n, k) && Guesses(c, es, 0) == k
  {
    if k == 0 {
      es := CrowdLoads(c, n);
      ExecCounts(c, es, 0);
      NobodyRefused(c, n);
    } else {
      es := CrowdGuesses(c, n, k - 1);
      es := OneGuesses(c, es, n, k);
    }
  }

  /** The k-th verification reads the user and the row and finds its code wrong. */
  lemma {:induction false} OneGuesses(c: Config, es: seq<Event>, n: nat, k: nat) returns (more: seq<Event>)
    requires 1 <= k <= n && Exec(c, es) == Crowd(c, n, k - 1)
    ensures Exec(c, more) == Crowd(c, n, k) && Guesses(c, more, 0) == Guesses(c, es, 0) + 1
  {
    var s := Exec(c, es);
    ExtendSteps(c, es, ReadUser(k));
    more := Extend(es, ReadUser(k));
    assert Exec(c, more) == Set(s, k, Known(0));
    GuessesExtend(c, es, ReadUser(k), 0);
    GuessesExtend(c, more, ReadRow(k), 0);
    ExtendSteps(c, more, ReadRow(k));
    more := Extend(more, ReadRow(k));
    assert Exec(c, more).attempts == Set(s, k, Verifying(0, 0)).attempts;
    GuessesExtend(c, more, WrongCode(k), 0);
    ExtendSteps(c, more, WrongCode(k));
    more := Extend(more, WrongCode(k));
    assert Exec(c, more).attempts == Crowd(c, n, k).attempts;
  }

  lemma {:induction false} GuessesExtend(c: Config, es: seq<Event>, e: Event, x: nat)
    ensures Guesses(c, Extend(es, e), x) == Guesses(c, es, x) + if IsGuess(Exec(c, es), e, x) then 1 else 0
  {
    assert Extend(es, e)[..|es|] == es;
  }

  /** The budget alone is no bound: verifications loaded together each check a code, however many they are. */
  lemma GuessesCanExceedTheBudget(c: Config, n: nat) returns (es: seq<Event>)
    requires c.challengeTtl >= 1
    ensures Guesses(c, es, 0) == n
    ensures |Exec(c, es).challenges| == 1 && Exec(c, es).challenges[0].login
  {
    es := CrowdGuesses(c, n, n);
  }

  // ---------------------------------------------------------------------------
  // One uninterrupted verification
  // ---------------------------------------------------------------------------

  /** What the user typed: a code that matches the secret at some step, a recovery code, or neither. */
  datatype Typed = AtStep(step: int) | RecoveryCode(code: nat) | Wrong

  datatype VerifyResult =
    | Session(evidence: Evidence) | ChallengeInvalid | InvalidLogin | NotEnrolled | CodeInvalid | Exhausted

  function Spent(c: Config, s: State, t: nat, typed: Typed): State {
    match typed
    case AtStep(step) => Step(c, Step(c, s, MatchTotp(t, step)), MarkUsed(t))
    case RecoveryCode(k) => Step(c, s, UseCode(t, k))
    case Wrong => Step(c, s, WrongCode(t))
  }

  function Ended(c: Config, s: State, t: nat): State {
    Step(c, Step(c, Step(c, s, FailChallenge(t)), ConsumeChallenge(t)), Mint(t))
  }

  function RowFound(c: Config, s: State, t: nat): State {
    Step(c, Step(c, s, ReadUser(t)), ReadRow(t))
  }

  /** The machine's steps of one verification, with nothing in between; steps that do not apply do nothing. */
  function Verified(c: Config, s: State, x: nat, typed: Typed): State {
    var t := |s.attempts|;
    Ended(c, Spent(c, RowFound(c, Step(c, s, LoadChallenge(x)), t), t, typed), t)
  }

  /** An attempt that is over, or was never started, takes no further step. */
  lemma OverIsOver(c: Config, s: State, t: nat, typed: Typed)
    requires t >= |s.attempts| || s.attempts[t].phase == Over
    ensures Step(c, s, ReadRow(t)) == s && RowFound(c, s, t) == s && Spent(c, s, t, typed) == s && Ended(c, s, t) == s
  {
  }

  lemma FactoredEnds(c: Config, s: State, t: nat)
    requires t < |s.attempts| && s.attempts[t].phase.Factored?
    ensures Ended(c, s, t) == Step(c, Step(c, s, ConsumeChallenge(t)), Mint(t))
  {
  }

  lemma RefusedEnds(c: Config, s: State, t: nat)
    requires t < |s.attempts| && s.attempts[t].phase.Refused? && s.attempts[t].phase.challenge < |s.challenges|
    ensures Ended(c, s, t) == Step(c, s, FailChallenge(t))
  {
  }

  /** The typed code was a step later than any accepted on the row, or an unused recovery code, and is now spent. */
  predicate Accepted(s: State, r: State, u: nat, row: nat, typed: Typed, f: Factor) {
    match f
    case Totp(g, v, step) =>
      && typed == AtStep(step) && g == v == row && row < |s.enrolments| && s.enrolments[row].lastStep < step
      && r.enrolments == Charge(s, row, step)
    case Recovery(k) =>
      typed == RecoveryCode(k) && CodeUsable(s, k, u) && r.codes == s.codes[k := s.codes[k].(used := true)]
  }

  class IdentityStore {
    const config: Config
    var settings: seq<Settings>
    var active: set<nat>
    var flagged: set<nat>
    var current: map<nat, nat>
    var enrolments: seq<Enrolment>
    var codes: seq<Code>
    var challenges: seq<Challenge>
    var devices: seq<Device>
    var clock: int
    /** Where the attempts over this store stand. */
    ghost var attempts: seq<Attempt>

    ghost function View(): State
      reads this
    {
      State(settings, active, flagged, current, enrolments, codes, challenges, devices, attempts, clock)
    }

    ghost predicate Valid()
      reads this
    {
      forall u :: u in current ==> current[u] < |enrolments|
    }

    /** Accepts a step only if it is later than the last one accepted for the user's row. */
    method MarkUsed(u: nat, step: int) returns (ok: bool)
      requires Valid()
      modifies this`enrolments
      ensures Valid()
      ensures ok <==> HasCurrent(old(View()), u) && old(enrolments)[current[u]].lastStep < step
      ensures enrolments == if ok then Charge(old(View()), current[u], step) else old(enrolments)
    {
      ok := u in current && enrolments[current[u]].lastStep < step;
      if ok {
        enrolments := enrolments[current[u] := enrolments[current[u]].(lastStep := step)];
      }
    }

    method ConsumeCode(u: nat, k: nat) returns (ok: bool)
      modifies this`codes
      ensures ok <==> CodeUsable(old(View()), k, u)
      ensures codes == if ok then old(codes)[k := old(codes)[k].(used := true)] else old(codes)
    {
      ok := k < |codes| && codes[k].user == u && !codes[k].used && !codes[k].deleted;
      if ok {
        codes := codes[k := codes[k].(used := true)];
      }
    }

    method ConsumeChallenge(c: nat) returns (ok: bool)
      modifies this`challenges
      ensures ok <==> c < |old(challenges)| && !old(challenges)[c].consumed
      ensures challenges == if ok then old(challenges)[c := old(challenges)[c].(consumed := true)] else old(challenges)
    {
      ok := c < |challenges| && !challenges[c].consumed;
      if ok {
        challenges := challenges[c := challenges[c].(consumed := true)];
      }
    }

    /**
     * Concurrent wrong guesses share one budget, and spending it burns the challenge. A challenge that is
     * missing or already consumed counts as exhausted.
     */
    method FailChallenge(c: nat) returns (exhausted: bool)
      modifies this`challenges
      ensures c < |old(challenges)| ==> challenges == old(challenges)[c := FailedChallenge(old(challenges)[c])]
      ensures c >= |old(challenges)| ==> challenges == old(challenges)
      ensures exhausted <==> c >= |challenges| || challenges[c].consumed
    {
      if c >= |challenges| {
        return true;
      }
      if challenges[c].consumed {
        assert challenges[c := challenges[c]] == challenges;
        return true;
      }
      challenges := challenges[c := challenges[c].(attempts := challenges[c].attempts + 1)];
      if challenges[c].attempts >= challenges[c].maxAttempts {
        challenges := challenges[c := challenges[c].(consumed := true)];
        return true;
      }
      return false;
    }

    /** Loads an open login challenge and starts an attempt on it. */
    method Load(x: nat) returns (user: Option<nat>)
      modifies this`attempts
      ensures View() == Step(config, old(View()), LoadChallenge(x))
      ensures user.Some? <==> ChallengeOpen(old(View()), x)
      ensures user.Some? ==>
        user.value == challenges[x].user && attempts == old(attempts) + [Attempt(user.value, Loaded(x))]
    {
      if x >= |challenges| || !challenges[x].login || challenges[x].consumed || clock >= challenges[x].expiresAt {
        return None;
      }
      attempts := attempts + [Attempt(challenges[x].user, Loaded(x))];
      return Some(challenges[x].user);
    }

    /** Reads the user, who must be active. */
    method ReadUserActive(ghost t: nat, u: nat) returns (found: bool)
      requires t < |attempts| && attempts[t].user == u && attempts[t].phase.Loaded?
      modifies this`attempts
      ensures View() == Step(config, old(View()), ReadUser(t))
      ensures |attempts| == |old(attempts)| && attempts[t].user == u && (found <==> u in active)
      ensures attempts[t].phase == if found then Known(old(attempts)[t].phase.challenge) else Over
    {
      found := u in active;
      attempts := attempts[t := attempts[t].(phase := if found then Known(attempts[t].phase.challenge) else Over)];
    }

    /** Reads the user's confirmed enrolment. */
    method ReadConfirmedRow(ghost t: nat, u: nat) returns (r: Option<nat>)
      requires Valid() && t < |attempts| && attempts[t].user == u && attempts[t].phase.Known?
      modifies this`attempts
      ensures View() == Step(config, old(View()), Event.ReadRow(t))
      ensures |attempts| == |old(attempts)| && attempts[t].user == u && (r.Some? <==> IsEnabled(View(), u))
      ensures r.Some? ==>
        r.value == current[u] && attempts[t].phase == Verifying(old(attempts)[t].phase.challenge, r.value)
      ensures r.None? ==> attempts[t].phase == Over
    {
      ghost var p := Over;
      if u in current && enrolments[current[u]].enabled {
        r := Some(current[u]);
        p := Verifying(attempts[t].phase.challenge, current[u]);
      } else {
        r := None;
      }
      attempts := attempts[t := attempts[t].(phase := p)];
    }

    /** A code that matched the row's secret at a step spends the step, if it is later than the last. */
    method SpendTotp(ghost t: nat, u: nat, row: nat, step: int) returns (f: Option<Factor>)
      requires Valid() && t < |attempts| && attempts[t].user == u && u in current && current[u] == row
      requires attempts[t].phase.Verifying? && attempts[t].phase.row == row
      modifies this`enrolments, this`attempts
      ensures Valid() && |attempts| == |old(attempts)| && View() == Spent(config, old(View()), t, AtStep(step))
      ensures attempts[t].phase ==
        if f.Some? then Factored(old(attempts)[t].phase.challenge, f.value)
        else Refused(old(attempts)[t].phase.challenge)
      ensures f.Some? ==>
        && f.value == Totp(row, row, step) && old(enrolments)[row].lastStep < step
        && enrolments == Charge(old(View()), row, step)
      ensures f.None? ==> enrolments == old(enrolments)
    {
      ghost var x := attempts[t].phase.challenge;
      var ok := MarkUsed(u, step);
      f := if ok then Some(Totp(row, row, step)) else None;
      attempts := attempts[t := attempts[t].(phase := if ok then Factored(x, Totp(row, row, step)) else Refused(x))];
    }

    method SpendRecovery(ghost t: nat, u: nat, k: nat) returns (f: Option<Factor>)
      requires t < |attempts| && attempts[t].user == u && attempts[t].phase.Verifying?
      modifies this`codes, this`attempts
      ensures |attempts| == |old(attempts)| && View() == Spent(config, old(View()), t, RecoveryCode(k))
      ensures attempts[t].phase ==
        if f.Some? then Factored(old(attempts)[t].phase.challenge, f.value)
        else Refused(old(attempts)[t].phase.challenge)
      ensures f.Some? ==>
        && f.value == Recovery(k) && CodeUsable(old(View()), k, u)
        && codes == old(codes)[k := old(codes)[k].(used := true)]
      ensures f.None? ==> codes == old(codes)
    {
      ghost var x := attempts[t].phase.challenge;
      var ok := ConsumeCode(u, k);
      f := if ok then Some(Recovery(k)) else None;
      attempts := attempts[t := attempts[t].(phase := if ok then Factored(x, Recovery(k)) else Refused(x))];
    }

    /** Checks what was typed and spends it. */
    method Spend(ghost t: nat, u: nat, row: nat, typed: Typed) returns (f: Option<Factor>)
      requires Valid() && t < |attempts| && attempts[t].user == u && u in current && current[u] == row
      requires attempts[t].phase.Verifying? && attempts[t].phase.row == row
      modifies this`enrolments, this`codes, this`attempts
      ensures Valid() && |attempts| == |old(attempts)| && View() == Spent(config, old(View()), t, typed)
      ensures attempts[t].phase ==
        if f.Some? then Factored(old(attempts)[t].phase.challenge, f.value)
        else Refused(old(attempts)[t].phase.challenge)
      ensures f.Some? ==> Accepted(old(View()), View(), u, row, typed, f.value)
      ensures f.None? ==> enrolments == old(enrolments) && codes == old(codes)
    {
      match typed {
        case AtStep(step) => f := SpendTotp(t, u, row, step);
        case RecoveryCode(k) => f := SpendRecovery(t, u, k);
        case Wrong =>
          attempts := attempts[t := attempts[t].(phase := Refused(attempts[t].phase.challenge))];
          f := None;
      }
    }

    /** A wrong code costs the challenge an attempt and ends the verification. */
    method Refuse(ghost t: nat, x: nat) returns (exhausted: bool)
      requires t < |attempts| && attempts[t].phase == Refused(x) && x < |challenges|
      modifies this`challenges, this`attempts
      ensures View() == Step(config, old(View()), Event.FailChallenge(t)) && |attempts| == |old(attempts)|
      ensures challenges == old(challenges)[x := FailedChallenge(old(challenges)[x])] && attempts[t].phase == Over
      ensures exhausted <==> challenges[x].consumed
    {
      exhausted := FailChallenge(x);
      attempts := attempts[t := attempts[t].(phase := Over)];
    }

    /** A spent factor turns an unconsumed challenge into a session. */
    method Conclude(ghost t: nat, x: nat, f: Factor) returns (ok: bool)
      requires t < |attempts| && attempts[t].phase == Factored(x, f) && x < |challenges|
      modifies this`challenges, this`attempts
      ensures View() == Step(config, Step(config, old(View()), Event.ConsumeChallenge(t)), Mint(t))
      ensures |attempts| == |old(attempts)| && (ok <==> !old(challenges)[x].consumed)
      ensures attempts[t].phase == if ok then Minted(ByChallenge(x, f)) else Over
      ensures challenges == if ok then old(challenges)[x := old(challenges)[x].(consumed := true)] else old(challenges)
    {
      ok := ConsumeChallenge(x);
      attempts := attempts[t := attempts[t].(phase := if ok then Minted(ByChallenge(x, f)) else Over)];
    }

    /** A spent factor concludes the verification; without one the code was wrong. */
    method Finish(ghost t: nat, c: nat, f: Option<Factor>) returns (r: VerifyResult)
      requires c < |challenges| && !challenges[c].consumed && t < |attempts|
      requires attempts[t].phase == if f.Some? then Factored(c, f.value) else Refused(c)
      modifies this`challenges, this`attempts
      ensures View() == Ended(config, old(View()), t)
      ensures f.Some? ==> r == Session(ByChallenge(c, f.value))
      ensures f.Some? ==> challenges == old(challenges)[c := old(challenges)[c].(consumed := true)]
      ensures f.None? ==>
        (r == CodeInvalid || r == Exhausted) && challenges == old(challenges)[c := FailedChallenge(old(challenges)[c])]
    {
      if f.None? {
        RefusedEnds(config, View(), t);
        var exhausted := Refuse(t, c);
        return if exhausted then Exhausted else CodeInvalid;
      }
      FactoredEnds(config, View(), t);
      var ok := Conclude(t, c, f.value);
      return Session(ByChallenge(c, f.value));
    }

    /** The verification of a loaded challenge once its user u was found active. */
    method VerifyKnown(ghost t: nat, c: nat, u: nat, typed: Typed) returns (r: VerifyResult)
      requires Valid() && c < |challenges| && !challenges[c].consumed
      requires t < |attempts| && attempts[t] == Attempt(u, Known(c))
      modifies this`enrolments, this`codes, this`challenges, this`attempts
      ensures Valid()
      ensures View() == Ended(config, Spent(config, Step(config, old(View()), Event.ReadRow(t)), t, typed), t)
      ensures r == NotEnrolled || r == CodeInvalid || r == Exhausted || r.Session?
      ensures r.Session? ==>
        && u in current && old(enrolments)[current[u]].enabled
        && challenges == old(challenges)[c := old(challenges)[c].(consumed := true)]
        && r.evidence.ByChallenge? && r.evidence.challenge == c
        && Accepted(old(View()), View(), u, current[u], typed, r.evidence.factor)
      ensures r == CodeInvalid || r == Exhausted ==>
        && challenges == old(challenges)[c := FailedChallenge(old(challenges)[c])]
        && enrolments == old(enrolments) && codes == old(codes)
      ensures r == NotEnrolled ==>
        challenges == old(challenges) && enrolments == old(enrolments) && codes == old(codes)
    {
      var row := ReadConfirmedRow(t, u);
      if row.None? {
        OverIsOver(config, View(), t, typed);
        return NotEnrolled;
      }
      var f := Spend(t, u, row.value, typed);
      r := Finish(t, c, f);
    }

    /** The verification of a loaded challenge, whose user is u. */
    method VerifyLoaded(ghost t: nat, c: nat, u: nat, typed: Typed) returns (r: VerifyResult)
      requires Valid() && c < |challenges| && !challenges[c].consumed
      requires t < |attempts| && attempts[t] == Attempt(u, Loaded(c))
      modifies this`enrolments, this`codes, this`challenges, this`attempts
      ensures Valid() && View() == Ended(config, Spent(config, RowFound(config, old(View()), t), t, typed), t)
      ensures r.Session? ==>
        && u in active && u in current && old(enrolments)[current[u]].enabled
        && challenges == old(challenges)[c := old(challenges)[c].(consumed := true)]
        && r.evidence.ByChallenge? && r.evidence.challenge == c
        && Accepted(old(View()), View(), u, current[u], typed, r.evidence.factor)
      ensures r == CodeInvalid || r == Exhausted ==>
        && challenges == old(challenges)[c := FailedChallenge(old(challenges)[c])]
        && enrolments == old(enrolments) && codes == old(codes)
      ensures r == InvalidLogin || r == NotEnrolled ==>
        challenges == old(challenges) && enrolments == old(enrolments) && codes == old(codes)
      ensures r != ChallengeInvalid
    {
      var found := ReadUserActive(t, u);
      if !found {
        OverIsOver(config, View(), t, typed);
        return InvalidLogin;
      }
      r := VerifyKnown(t, c, u, typed);
    }

    /**
     * The verification's calls in the source's order are the machine's steps. A session means the challenge
     * was open and is now consumed, and the typed code was a step later than any accepted before or an unused
     * recovery code of the challenge's own user; only a wrong or replayed code costs one of its attempts.
     */
    method VerifyMfa(c: nat, typed: Typed) returns (r: VerifyResult)
      requires Valid()
      modifies this`enrolments, this`codes, this`challenges, this`attempts
      ensures Valid() && View() == Verified(config, old(View()), c, typed)
      ensures r.Session? ==>
        && ChallengeOpen(old(View()), c) && old(challenges)[c].user in active
        && old(challenges)[c].user in current && old(enrolments)[current[old(challenges)[c].user]].enabled
        && challenges == old(challenges)[c := old(challenges)[c].(consumed := true)]
        && r.evidence.ByChallenge? && r.evidence.challenge == c
        && var u := old(challenges)[c].user;
           Accepted(old(View()), View(), u, current[u], typed, r.evidence.factor)
      ensures r == CodeInvalid || r == Exhausted ==>
        && c < |old(challenges)| && challenges == old(challenges)[c := FailedChallenge(old(challenges)[c])]
        && enrolments == old(enrolments) && codes == old(codes)
      ensures r == ChallengeInvalid || r == InvalidLogin || r == NotEnrolled ==>
        challenges == old(challenges) && enrolments == old(enrolments) && codes == old(codes)
      ensures r == ChallengeInvalid <==> !ChallengeOpen(old(View()), c)
    {
      ghost var t := |attempts|;
      var user := Load(c);
      if user.None? {
        OverIsOver(config, View(), t, typed);
        return ChallengeInvalid;
      }
      r := VerifyLoaded(t, c, user.value, typed);
    }
  }
}
