/** The unit-operation handlers: the allowlist gate, the four job verbs and
    the two-stage status lookup. The remote unit manager is an oracle; each
    handler reports the remote calls it made alongside its result, so the
    model states both what reaches the manager and what comes back. */
module Services {
  import opened Wrappers
  import opened Errors

  /** What the handlers see of the shared gateway context. */
  datatype Gateway = Gateway(allowlist: Option<seq<string>>, authEnabled: bool)

  /** `ensure_service_allowed`: an empty name is refused first; then, if an
      allowlist is configured, a name outside it is refused. */
  function EnsureServiceAllowed(gw: Gateway, service: string): (r: Result<(), ServiceError>)
    ensures r.Failure? ==> r.error == InvalidUnit
    ensures service == "" ==> r.Failure?
    ensures service != "" && gw.allowlist.None? ==> r.Success?
    ensures service != "" && gw.allowlist.Some? ==> (r.Success? <==> service in gw.allowlist.value)
  {
    if service == "" then Failure(InvalidUnit)
    else
      match gw.allowlist
      case None => Success(())
      case Some(names) => if service in names then Success(()) else Failure(InvalidUnit)
  }

  predicate Allowed(gw: Gateway, service: string)
  {
    EnsureServiceAllowed(gw, service).Success?
  }

  // ------------------------------------------------------- remote manager

  datatype Verb = Start | Stop | Restart | Reload

  /** The job mode every verb is issued with. */
  const JobMode: string := "replace"

  /** The status word reported for an accepted job. */
  function StatusWord(v: Verb): string
  {
    match v
    case Start => "starting"
    case Stop => "stopping"
    case Restart => "restarting"
    case Reload => "reloading"
  }

  /** An unsigned 64-bit integer, the type of `StateChangeTimestamp`. */
  type U64 = x: int | 0 <= x < 0x1_0000_0000_0000_0000

  /** One remote call, as it reaches the bus. */
  datatype Call =
    | Job(verb: Verb, unit: string, mode: string)  // StartUnit / StopUnit / RestartUnit / ReloadUnit
    | GetUnit(unit: string)
    | BindUnit(path: string)                        // building the unit-object proxy
    | ReadActiveState(path: string)
    | ReadSubState(path: string)
    | ReadTimestamp(path: string)

  /** The replies the unit manager and unit objects would give. */
  datatype Manager = Manager(
    job: (Verb, string, string) -> Result<string, DBusError>,
    getUnit: string -> Result<string, DBusError>,
    bindUnit: string -> Result<(), DBusError>,
    activeState: string -> Result<string, DBusError>,
    subState: string -> Result<string, DBusError>,
    timestamp: string -> Result<U64, DBusError>)

  /** A handler's result together with the remote calls it issued, in order. */
  datatype Handled<T> = Handled(result: Result<T, ServiceError>, calls: seq<Call>)

  datatype ServiceResponse = ServiceResponse(service: string, status: string)

  /** A point in time, by its microsecond offset from the Unix epoch. */
  datatype DateTime = DateTime(micros: int)

  datatype ServiceStatusResponse = ServiceStatusResponse(
    service: string, state: string, subState: string, since: Option<DateTime>)

  /** A reply with its payload dropped: whether the call succeeded, and
      the error if it did not. */
  function Outcome<T>(r: Result<T, DBusError>): (o: Result<(), DBusError>)
    ensures o.Success? <==> r.Success?
    ensures o.Failure? ==> o.error == r.error
  {
    match r
    case Success(_) => Success(())
    case Failure(e) => Failure(e)
  }

  /** How the manager answers a single call, independently of which
      handler makes it. */
  function Reply(m: Manager, c: Call): Result<(), DBusError>
  {
    match c
    case Job(verb, unit, mode) => Outcome(m.job(verb, unit, mode))
    case GetUnit(unit) => Outcome(m.getUnit(unit))
    case BindUnit(path) => m.bindUnit(path)
    case ReadActiveState(path) => Outcome(m.activeState(path))
    case ReadSubState(path) => Outcome(m.subState(path))
    case ReadTimestamp(path) => Outcome(m.timestamp(path))
  }

  // ------------------------------------------------------------ the verbs

  /** The template shared by start, stop, restart and reload: gate the
      name, issue the verb once with mode "replace", and answer with the
      name and the verb's status word or with the converted remote error. */
  function HandleVerb(gw: Gateway, verb: Verb, service: string, m: Manager)
    : (h: Handled<ServiceResponse>)
    ensures !Allowed(gw, service) ==> h == Handled(Failure(InvalidUnit), [])
    ensures Allowed(gw, service) ==> h.calls == [Job(verb, service, JobMode)]
    ensures h.result.Success? <==> Allowed(gw, service) && m.job(verb, service, JobMode).Success?
    ensures h.result.Success? ==> h.result.value == ServiceResponse(service, StatusWord(verb))
    ensures h.result.Failure? && Allowed(gw, service) ==>
              h.result.error == FromDBus(m.job(verb, service, JobMode).error)
  {
    match EnsureServiceAllowed(gw, service)
    case Failure(e) => Handled(Failure(e), [])
    case Success(_) =>
      var calls := [Job(verb, service, JobMode)];
      match m.job(verb, service, JobMode)
      case Failure(e) => Handled(Failure(FromDBus(e)), calls)
      case Success(_) => Handled(Success(ServiceResponse(service, StatusWord(verb))), calls)
  }

  // ---------------------------------------------------------- the status

  /** `t as i64`: the bits of an unsigned 64-bit value read as a signed one. */
  function AsI64(t: U64): (v: int)
    ensures -0x8000_0000_0000_0000 <= v < 0x8000_0000_0000_0000
    ensures (v == t) <==> t < 0x8000_0000_0000_0000
    ensures (v - t) % 0x1_0000_0000_0000_0000 == 0
  {
    if t < 0x8000_0000_0000_0000 then t else t - 0x1_0000_0000_0000_0000
  }

  /** The optional `since` field: the timestamp read if it succeeded, cast
      to a signed microsecond count, kept if the calendar conversion
      (`inRange`) accepts it. Every failure is absence. */
  function Since(reading: Result<U64, DBusError>, inRange: int -> bool): (since: Option<DateTime>)
    ensures since.Some? <==> reading.Success? && inRange(AsI64(reading.value))
    ensures since.Some? ==> since.value.micros == AsI64(reading.value)
  {
    match reading
    case Failure(_) => None
    case Success(t) => if inRange(AsI64(t)) then Some(DateTime(AsI64(t))) else None
  }

  /** The calls of a full status lookup for `service` whose unit sits at `path`. */
  function StatusCalls(service: string, path: string): seq<Call>
  {
    [GetUnit(service), BindUnit(path), ReadActiveState(path), ReadSubState(path), ReadTimestamp(path)]
  }

  /** `status_service`: gate the name, resolve it to a unit object, bind a
      proxy to that object, read its active state and sub-state (each
      failure is final and converted), then read the state-change timestamp
      on a best-effort basis. */
  function HandleStatus(gw: Gateway, service: string, m: Manager, inRange: int -> bool)
    : (h: Handled<ServiceStatusResponse>)
    ensures !Allowed(gw, service) ==> h == Handled(Failure(InvalidUnit), [])
    ensures Allowed(gw, service) ==> 1 <= |h.calls| <= 5 && h.calls[0] == GetUnit(service)
    ensures Allowed(gw, service) && m.getUnit(service).Success? ==>
              2 <= |h.calls| && h.calls == StatusCalls(service, m.getUnit(service).value)[..|h.calls|]
    ensures h.result.Failure? && Allowed(gw, service) ==>
              && |h.calls| <= 4
              && (forall i :: 0 <= i < |h.calls| - 1 ==> Reply(m, h.calls[i]).Success?)
              && Reply(m, h.calls[|h.calls| - 1]).Failure?
              && h.result.error == FromDBus(Reply(m, h.calls[|h.calls| - 1]).error)
    ensures h.result.Success? ==>
              && m.getUnit(service).Success?
              && var path := m.getUnit(service).value;
              && h.calls == StatusCalls(service, path)
              && m.bindUnit(path).Success?
              && m.activeState(path).Success?
              && m.subState(path).Success?
              && h.result.value == ServiceStatusResponse(
                   service, m.activeState(path).value, m.subState(path).value,
                   Since(m.timestamp(path), inRange))
  {
    match EnsureServiceAllowed(gw, service)
    case Failure(e) => Handled(Failure(e), [])
    case Success(_) =>
      match m.getUnit(service)
      case Failure(e) => Handled(Failure(FromDBus(e)), [GetUnit(service)])
      case Success(path) =>
        var calls := StatusCalls(service, path);
        match m.bindUnit(path)
        case Failure(e) => Handled(Failure(FromDBus(e)), calls[..2])
        case Success(_) =>
          match m.activeState(path)
          case Failure(e) => Handled(Failure(FromDBus(e)), calls[..3])
          case Success(state) =>
            match m.subState(path)
            case Failure(e) => Handled(Failure(FromDBus(e)), calls[..4])
            case Success(subState) =>
              var since := Since(m.timestamp(path), inRange);
              Handled(Success(ServiceStatusResponse(service, state, subState, since)), calls)
  }

  /** A status lookup for an allowed name fails exactly when one of its
      required calls (all but the timestamp read) is answered with an
      error, and no call is ever issued twice. */
  lemma StatusFailsIffRequiredCallFails(gw: Gateway, service: string, m: Manager, inRange: int -> bool)
    requires Allowed(gw, service)
    ensures var h := HandleStatus(gw, service, m, inRange);
            (h.result.Failure? <==>
               exists i :: 0 <= i < |h.calls| && !h.calls[i].ReadTimestamp? && Reply(m, h.calls[i]).Failure?)
    ensures var h := HandleStatus(gw, service, m, inRange);
            forall i, j :: 0 <= i < j < |h.calls| ==> h.calls[i] != h.calls[j]
  {
    var h := HandleStatus(gw, service, m, inRange);
    if h.result.Success? {
      var path := m.getUnit(service).value;
      assert h.calls == StatusCalls(service, path);
      assert forall i :: 0 <= i < 4 ==> Reply(m, h.calls[i]).Success?;
    } else {
      var k := |h.calls| - 1;
      assert !h.calls[k].ReadTimestamp?;
    }
  }

  /** The timestamp is best effort: whatever its read returns, the lookup
      succeeds or fails alike and reports the same state and sub-state. */
  lemma TimestampIsBestEffort(gw: Gateway, service: string, m: Manager, inRange: int -> bool,
                              other: string -> Result<U64, DBusError>)
    ensures var h1 := HandleStatus(gw, service, m, inRange);
            var h2 := HandleStatus(gw, service, m.(timestamp := other), inRange);
            && h1.calls == h2.calls
            && (h1.result.Success? <==> h2.result.Success?)
            && (h1.result.Failure? ==> h1.result == h2.result)
            && (h1.result.Success? ==>
                  h1.result.value.(since := None) == h2.result.value.(since := None))
  {
  }

  /** Every remote call a handler makes concerns the requested unit: jobs
      and lookups name it, and the unit-object calls use the path the
      lookup returned. */
  lemma CallsConcernRequestedUnit(gw: Gateway, verb: Verb, service: string, m: Manager,
                                  inRange: int -> bool)
    ensures forall c :: c in HandleVerb(gw, verb, service, m).calls ==>
              c == Job(verb, service, JobMode)
    ensures forall c :: c in HandleStatus(gw, service, m, inRange).calls ==>
              c == GetUnit(service)
              || (m.getUnit(service).Success? && c.path == m.getUnit(service).value && !c.GetUnit?)
  {
    var h := HandleStatus(gw, service, m, inRange);
    if Allowed(gw, service) && m.getUnit(service).Success? {
      var path := m.getUnit(service).value;
      assert forall c :: c in StatusCalls(service, path) ==> c == GetUnit(service) || c.path == path;
    }
  }

  /** The four verbs report four distinct status words, so a response names
      the job that was accepted. */
  lemma StatusWordsDistinct(v1: Verb, v2: Verb)
    ensures StatusWord(v1) == StatusWord(v2) <==> v1 == v2
  {
  }
}
