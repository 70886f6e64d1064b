/** An independent reading of the controller's history: what a bystander who sees only port calls,
    accepted STATUS frames and revisions of Requested State must never see. */
module HeaterMonitor {
  import opened Options
  import opened ApplicationState
  import opened HeaterModel

  /** After a SHUTDOWN no START may follow before an OFF status, and then only for a newer request. */
  datatype Gate = Free | AwaitingOff | AwaitingRequest

  datatype Seen = Seen(state: HeaterState, at: int)

  datatype Monitor = Monitor(
    revision: int, requested: Requested, gate: Gate, status: Option<Seen>, asked: set<int>,
    starts: nat, shutdowns: nat, ok: bool)

  const FRESH := Monitor(0, INITIAL_REQUESTED, Free, None, {}, 0, 0, true)

  /** The last accepted status is `state` and younger than one heartbeat. */
  predicate Recently(c: Config, m: Monitor, state: HeaterState, at: int) {
    m.status.Some? && m.status.value.state == state && 0 <= at - m.status.value.at < c.heartbeat
  }

  predicate Permitted(c: Config, m: Monitor, e: Event) {
    match e
    case CallInit(_, _) => true
    case CallStatus(_, _) => true
    case StatusAccepted(_, at, askedAt) => askedAt in m.asked && at - askedAt < c.responseTimeout
    case CallStart(revision, parameters, at, expires, _) =>
      && m.gate.Free? && m.requested.on && revision == m.revision && parameters == ParametersOf(m.requested)
      && Recently(c, m, Off, at) && at < expires && m.starts < c.maxAttempts
    case CallShutdown(revision, at, _) =>
      !m.requested.on && revision == m.revision && Recently(c, m, Running, at) && m.shutdowns < c.maxAttempts
    case Revised(revision, _) => revision == m.revision + 1
  }

  function Observe(c: Config, m: Monitor, e: Event): Monitor {
    var judged := m.(ok := m.ok && Permitted(c, m, e));
    match e
    case CallInit(_, _) => judged
    case CallStatus(at, ok) => if ok then judged.(asked := m.asked + {at}) else judged
    case StatusAccepted(state, at, _) =>
      judged.(status := Some(Seen(state, at)), asked := {},
              gate := if state.Off? && m.gate.AwaitingOff? then AwaitingRequest else m.gate)
    case CallStart(_, _, _, _, _) => judged.(starts := m.starts + 1)
    case CallShutdown(_, _, _) => judged.(shutdowns := m.shutdowns + 1, gate := AwaitingOff)
    case Revised(revision, requested) =>
      judged.(revision := revision, requested := requested, starts := 0, shutdowns := 0,
              gate := if m.gate.AwaitingRequest? && requested.on then Free else m.gate)
  }

  function Watch(c: Config, history: seq<Event>): Monitor {
    if history == [] then FRESH else Observe(c, Watch(c, history[..|history| - 1]), history[|history| - 1])
  }

  lemma WatchNext(c: Config, history: seq<Event>, e: Event)
    ensures Watch(c, history + [e]) == Observe(c, Watch(c, history), e)
  {
    assert (history + [e])[..|history|] == history;
  }

  function Starts(history: seq<Event>, revision: int): nat {
    if history == [] then 0
    else
      var e := history[|history| - 1];
      Starts(history[..|history| - 1], revision) + (if e.CallStart? && e.revision == revision then 1 else 0)
  }

  function Shutdowns(history: seq<Event>, revision: int): nat {
    if history == [] then 0
    else
      var e := history[|history| - 1];
      Shutdowns(history[..|history| - 1], revision) + (if e.CallShutdown? && e.revision == revision then 1 else 0)
  }

  /** Nothing a permitted history shows belongs to a revision not yet reached, and the monitor's
      counters are the true counts of the current one. */
  lemma {:induction false} CountersAreCounts(c: Config, history: seq<Event>, revision: int)
    requires ValidConfig(c) && Watch(c, history).ok
    ensures var m := Watch(c, history);
            && Starts(history, revision) <= c.maxAttempts && Shutdowns(history, revision) <= c.maxAttempts
            && (revision > m.revision ==> Starts(history, revision) == 0 && Shutdowns(history, revision) == 0)
            && (revision == m.revision ==> Starts(history, revision) == m.starts && Shutdowns(history, revision) == m.shutdowns)
    decreases |history|
  {
    if history != [] {
      CountersAreCounts(c, history[..|history| - 1], revision);
    }
  }

  /** In an accepted history every prefix was accepted. */
  lemma {:induction false} AcceptedPrefix(c: Config, history: seq<Event>, k: nat)
    requires k <= |history| && Watch(c, history).ok
    ensures Watch(c, history[..k]).ok
    decreases |history|
  {
    if k < |history| {
      assert history[..|history| - 1][..k] == history[..k];
      AcceptedPrefix(c, history[..|history| - 1], k);
    } else {
      assert history[..k] == history;
    }
  }

  /** An accepted history permitted each of its events after those before it. */
  lemma EveryEventWasPermitted(c: Config, history: seq<Event>, k: nat)
    requires k < |history| && Watch(c, history).ok
    ensures Permitted(c, Watch(c, history[..k]), history[k])
  {
    AcceptedPrefix(c, history, k + 1);
    assert history[..k + 1] == history[..k] + [history[k]];
    WatchNext(c, history[..k], history[k]);
  }
}
