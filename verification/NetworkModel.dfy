/** The network state machine of app/network_manager.py on values: one step asks the port for at most one thing, and
    `reply` is whatever the port would answer to it. */
module NetworkModel {
  import opened Options

  const MAX_ROUND_BACKOFF_MS := 60000
  const MAX_BACKOFF_EXPONENT := 4

  datatype Profile = Profile(id: string, ssid: string, password: Option<string>)

  datatype Config = Config(apSsid: string, apPassword: string, hostname: string, apCheckInterval: int, pollInterval: int,
                           connectionTimeout: int, profileGap: int, roundBackoff: int)

  predicate ValidConfig(c: Config) {
    && 1 <= c.apCheckInterval <= 60000 && 1 <= c.pollInterval <= 10000 && c.pollInterval <= c.connectionTimeout <= 120000
    && 1 <= c.profileGap <= 60000 && 1 <= c.roundBackoff <= MAX_ROUND_BACKOFF_MS
  }

  datatype Phase = Stopped | Hostname | AccessPoint | StationPrepare | Disconnect | Running | Closed

  datatype Mode = Halted | Starting | Offline | Joining | Online | Backoff | Degraded | Faulted | Shut

  datatype Link = Idle | Connecting | WrongPassword | NoAccessPoint | ConnectFail | GotIp

  datatype ApTruth = ApTruth(active: bool, ip: Option<string>, clients: int)

  /** What is believed about the station, and also what a status call may report. */
  datatype Station = Station(link: Link, connected: bool, profileId: Option<string>, ssid: Option<string>,
                             ip: Option<string>, gateway: Option<string>, dns: Option<string>, rssi: Option<int>,
                             mdnsReady: bool)

  const NO_AP := ApTruth(false, None, 0)
  const NO_STATION := Station(Idle, false, None, None, None, None, None, None, false)

  datatype Call =
    | ConfigureHostname(name: string)
    | EnsureAccessPoint(ssid: string, password: string)
    | AccessPointStatus
    | PrepareStation
    | DisconnectStation
    | StationStatus
    | ConnectStation(profile: Profile)
    | DeinitPort

  /** PortError is the port's own classified failure; Unexpected is any other exception or a value out of place. */
  datatype Reply = Done | ApReport(ap: ApTruth) | StationReport(station: Station) | PortError | Unexpected

  datatype Report =
    | Quiet | HostnameConfigured | HostnameDegraded | ApAvailable | ApRetry | ApChecked | ApLost | StationReady
    | StationRetry | StationDisconnected | DisconnectRetry | StationConnected | StationConnecting | StationTimeout
    | StationFailed | Raised

  datatype Resume = Resume(phase: Phase, deadline: Option<int>, mode: Mode)

  datatype State = State(profiles: seq<Profile>, running: bool, closed: bool, faulted: bool, phase: Phase, mode: Mode,
                         lastStep: Option<int>, nextAction: Option<int>, nextApCheck: Option<int>, nextPoll: Option<int>,
                         connectingSince: Option<int>, deferred: bool, resume: Option<Resume>, index: nat, exponent: nat,
                         station: Station, ap: ApTruth)

  datatype Outcome = Outcome(state: State, call: Option<Call>, report: Report)

  function Initial(profiles: seq<Profile>): State {
    State(profiles, false, false, false, Stopped, Halted, None, None, None, None, None, false, None, 0, 0, NO_STATION, NO_AP)
  }

  // ---------------------------------------------------------------- conditions

  predicate StationPhase(p: Phase) {
    p == Running || p == StationPrepare || p == Disconnect
  }

  predicate Reached(due: Option<int>, now: int) {
    due.None? || now >= due.value
  }

  predicate Working(s: State) {
    s.running && !s.faulted && !s.closed
  }

  predicate Backwards(s: State, now: int) {
    s.lastStep.Some? && now < s.lastStep.value
  }

  predicate ApCheckDue(s: State, now: int) {
    StationPhase(s.phase) && Reached(s.nextApCheck, now)
  }

  predicate StationPreferred(s: State, now: int) {
    ApCheckDue(s, now) && Reached(s.nextAction, now) && s.deferred
  }

  predicate Tracked(link: Link) {
    link == Connecting || link == GotIp
  }

  predicate WellFormedAp(a: ApTruth) {
    && a.clients >= 0 && (a.active ==> a.ip.Some? && a.ip.value != "")
    && (!a.active ==> a.ip.None? && a.clients == 0)
  }

  predicate Named(text: Option<string>) {
    text.Some? && text.value != ""
  }

  predicate WellFormedStation(t: Station) {
    && t.connected == (t.link == GotIp)
    && (t.connected ==> Named(t.ip) && t.ip.value != "0.0.0.0" && Named(t.profileId) && Named(t.ssid))
    && (!t.connected ==> t.ip.None? && t.gateway.None? && t.dns.None? && t.rssi.None? && !t.mdnsReady)
  }

  function Unreachable(t: Station): Station {
    t.(link := Idle, connected := false, ip := None, gateway := None, dns := None, rssi := None, mdnsReady := false)
  }

  // ---------------------------------------------------------------- transitions

  function Fault(s: State): State {
    s.(faulted := true, mode := Faulted)
  }

  function Broken(s: State, call: Call): Outcome {
    Outcome(Fault(s), Some(call), Raised)
  }

  function Remember(s: State): State {
    if StationPhase(s.phase) then s.(resume := Some(Resume(s.phase, s.nextAction, s.mode))) else s
  }

  function ApFailed(c: Config, s: State, now: int): State {
    Remember(s).(ap := NO_AP, deferred := false, phase := AccessPoint, mode := Degraded,
                 nextAction := Some(now + c.apCheckInterval))
  }

  function StepHostname(c: Config, s: State, now: int, reply: Reply): Outcome {
    var call := ConfigureHostname(c.hostname);
    match reply
    case Done => Outcome(s.(phase := AccessPoint, nextAction := Some(now)), Some(call), HostnameConfigured)
    case PortError =>
      Outcome(s.(phase := AccessPoint, mode := Degraded, nextAction := Some(now)), Some(call), HostnameDegraded)
    case _ => Broken(s, call)
  }

  function ApRestored(c: Config, s: State, now: int, ap: ApTruth): State {
    var r := s.(ap := ap, nextApCheck := Some(now + c.apCheckInterval), deferred := false, resume := None,
                nextAction := if s.resume.Some? then s.resume.value.deadline else Some(now));
    if s.station.connected then r.(phase := Running, mode := Online)
    else if s.resume.Some? then r.(phase := s.resume.value.phase, mode := s.resume.value.mode)
    else if s.profiles != [] then r.(phase := StationPrepare, mode := Starting)
    else r.(phase := Running, mode := Offline)
  }

  function StepAp(c: Config, s: State, now: int, reply: Reply): Outcome {
    var call := EnsureAccessPoint(c.apSsid, c.apPassword);
    match reply
    case PortError => Outcome(ApFailed(c, s, now), Some(call), ApRetry)
    case ApReport(ap) =>
      if !WellFormedAp(ap) then Broken(s.(ap := NO_AP), call)
      else if !ap.active then Outcome(ApFailed(c, s, now), Some(call), ApRetry)
      else Outcome(ApRestored(c, s, now, ap), Some(call), ApAvailable)
    case _ => Broken(s.(ap := NO_AP), call)
  }

  function StepCheck(c: Config, s: State, now: int, reply: Reply): Outcome {
    match reply
    case PortError => Outcome(ApFailed(c, s, now), Some(AccessPointStatus), ApRetry)
    case ApReport(ap) =>
      if !WellFormedAp(ap) then Broken(s.(ap := NO_AP), AccessPointStatus)
      else
        var checked := s.(ap := ap, nextApCheck := Some(now + c.apCheckInterval));
        if ap.active then
          Outcome(checked.(deferred := Reached(s.nextAction, now) && s.profiles != []), Some(AccessPointStatus), ApChecked)
        else
          Outcome(Remember(checked).(deferred := false, phase := AccessPoint, mode := Degraded, nextAction := Some(now)),
                  Some(AccessPointStatus), ApLost)
    case _ => Broken(s.(ap := NO_AP), AccessPointStatus)
  }

  function StepPrepare(c: Config, s: State, now: int, reply: Reply): Outcome {
    match reply
    case Done => Outcome(s.(phase := Running, mode := Offline, nextAction := Some(now)), Some(PrepareStation), StationReady)
    case PortError =>
      Outcome(s.(mode := Degraded, nextAction := Some(now + c.profileGap)), Some(PrepareStation), StationRetry)
    case _ => Broken(s, PrepareStation)
  }

  function Doubled(base: int, times: nat): int {
    if times == 0 then base else 2 * Doubled(base, times - 1)
  }

  function RoundDelay(c: Config, exponent: nat): int
    requires exponent > 0
  {
    var delay := Doubled(c.roundBackoff, exponent - 1);
    if delay > MAX_ROUND_BACKOFF_MS then MAX_ROUND_BACKOFF_MS else delay
  }

  function AdvanceProfile(c: Config, s: State, now: int): State {
    if s.profiles == [] then s.(index := 0, nextAction := None, mode := Offline)
    else if s.index + 1 >= |s.profiles| then
      var exponent := if s.exponent < MAX_BACKOFF_EXPONENT then s.exponent + 1 else s.exponent;
      s.(index := 0, exponent := exponent, mode := Backoff, nextAction := Some(now + RoundDelay(c, exponent)))
    else s.(index := s.index + 1, mode := Offline, nextAction := Some(now + c.profileGap))
  }

  function StepDisconnect(c: Config, s: State, now: int, reply: Reply): Outcome {
    match reply
    case Done =>
      var idle := s.(station := NO_STATION, phase := if s.profiles != [] then StationPrepare else Running);
      Outcome(AdvanceProfile(c, idle, now), Some(DisconnectStation), StationDisconnected)
    case PortError => Outcome(s.(nextAction := Some(now + c.profileGap)), Some(DisconnectStation), DisconnectRetry)
    case _ => Broken(s, DisconnectStation)
  }

  function Abandon(s: State, now: int): State {
    s.(phase := Disconnect, nextAction := Some(now))
  }

  predicate TimedOut(c: Config, s: State, now: int) {
    s.connectingSince.Some? && now - s.connectingSince.value >= c.connectionTimeout
  }

  function StepPoll(c: Config, s: State, now: int, reply: Reply): Outcome {
    var revoked := s.(station := Unreachable(s.station));
    match reply
    case PortError => Outcome(Abandon(revoked, now).(mode := Degraded), Some(StationStatus), StationRetry)
    case StationReport(seen) =>
      if !WellFormedStation(seen) then Broken(revoked, StationStatus)
      else
        var next := Some(now + c.pollInterval);
        var polled := s.(station := seen, nextPoll := next);
        if seen.connected then
          Outcome(polled.(mode := Online, exponent := 0, nextAction := next), Some(StationStatus), StationConnected)
        else if seen.link != Connecting then
          Outcome(Abandon(polled, now).(mode := Offline), Some(StationStatus), StationFailed)
        else if TimedOut(c, s, now) then
          Outcome(Abandon(polled, now).(mode := Offline), Some(StationStatus), StationTimeout)
        else Outcome(polled.(mode := Joining, nextAction := next), Some(StationStatus), StationConnecting)
    case _ => Broken(revoked, StationStatus)
  }

  function StepConnect(c: Config, s: State, now: int, reply: Reply): Outcome
    requires s.index < |s.profiles|
  {
    var profile := s.profiles[s.index];
    var call := ConnectStation(profile);
    match reply
    case PortError =>
      Outcome(Abandon(s, now).(station := s.station.(profileId := Some(profile.id))), Some(call), StationRetry)
    case Done =>
      var joining := s.station.(link := Connecting, connected := false, profileId := Some(profile.id),
                                ssid := Some(profile.ssid));
      var next := Some(now + c.pollInterval);
      Outcome(s.(station := joining, connectingSince := Some(now), nextPoll := next, nextAction := next, mode := Joining),
              Some(call), StationConnecting)
    case _ => Broken(s, call)
  }

  function StepRunning(c: Config, s: State, now: int, reply: Reply): Outcome
    requires s.profiles == [] || s.index < |s.profiles|
  {
    if s.profiles == [] then Outcome(s.(mode := Offline, nextAction := s.nextApCheck), None, Quiet)
    else if !Tracked(s.station.link) then StepConnect(c, s, now, reply)
    else if !Reached(s.nextPoll, now) then Outcome(s.(nextAction := s.nextPoll), None, Quiet)
    else StepPoll(c, s, now, reply)
  }

  function StepStation(c: Config, s: State, now: int, reply: Reply): Outcome
    requires s.profiles == [] || s.index < |s.profiles|
  {
    match s.phase
    case StationPrepare => StepPrepare(c, s, now, reply)
    case Disconnect => StepDisconnect(c, s, now, reply)
    case Running => StepRunning(c, s, now, reply)
    case _ => Outcome(Fault(s), None, Raised)
  }

  /** One step at tick `now` of a manager that is running, not faulted and not closed; otherwise nothing happens. */
  function Step(c: Config, s: State, now: int, reply: Reply): Outcome
    requires s.profiles == [] || s.index < |s.profiles|
  {
    if !Working(s) then Outcome(s, None, Quiet)
    else if Backwards(s, now) then Outcome(Fault(s), None, Raised)
    else
      var t := s.(lastStep := Some(now));
      if !Reached(s.nextAction, now) && !ApCheckDue(s, now) then Outcome(t, None, Quiet)
      else if s.phase == Hostname then StepHostname(c, t, now, reply)
      else if s.phase == AccessPoint then StepAp(c, t, now, reply)
      else if ApCheckDue(s, now) && !StationPreferred(s, now) then StepCheck(c, t, now, reply)
      else if StationPreferred(s, now) then StepStation(c, t.(deferred := false), now, reply)
      else StepStation(c, t, now, reply)
  }

  // ---------------------------------------------------------------- the other operations

  function Start(s: State, now: int): Outcome {
    if s.closed || s.faulted then Outcome(s, None, Raised)
    else if s.running then Outcome(s, None, Quiet)
    else Outcome(s.(running := true, phase := Hostname, mode := Starting, lastStep := Some(now), nextAction := Some(now),
                    nextApCheck := Some(now), nextPoll := Some(now), deferred := false, resume := None), None, Quiet)
  }

  function ResetFault(s: State, now: int): Outcome {
    if s.closed then Outcome(s, None, Raised)
    else if !s.faulted then Outcome(s, None, Quiet)
    else Outcome(s.(faulted := false, lastStep := Some(now), phase := Hostname, mode := Starting, nextAction := Some(now),
                    deferred := false, resume := None), None, Quiet)
  }

  function ReplaceProfiles(s: State, profiles: seq<Profile>): Outcome {
    if s.running || s.closed then Outcome(s, None, Raised)
    else if profiles == s.profiles then Outcome(s, None, Quiet)
    else Outcome(s.(profiles := profiles, index := 0, exponent := 0, resume := None), None, Quiet)
  }

  function Deinit(s: State, reply: Reply): Outcome {
    Outcome(s.(closed := true, running := false, phase := Closed, mode := Shut, resume := None, ap := NO_AP,
               station := Unreachable(s.station)),
            Some(DeinitPort), if reply == Done then Quiet else Raised)
  }
}
