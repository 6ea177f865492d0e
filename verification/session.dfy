/** The start/stop state machine of the DAC streaming server, as functions on
    the process-wide globals. `Server.DacServer` runs the same steps
    imperatively and is proved to agree with `StartSpec` and `StopSpec`. */
module Session {
  import opened Settings
  import opened Calibration
  import opened Destination
  import opened Binding

  /** `CDACStreamingManager::NotifyResult`: the five named reasons, and any other
      value of the underlying enum. */
  datatype NotifyResult = NrStop | NrEnded | NrEmpty | NrBroken | NrMissingFile | NrUnknown(code: int)

  /** The outbound messages of the configuration manager. */
  datatype Notification =
    | ServerStarted
    | ServerStartedSD
    | ServerStopped
    | ServerStoppedSDDone
    | ServerStoppedSDEmpty
    | ServerStoppedSDBroken
    | ServerStoppedSDMissingFile

  /** The message a stop sends for a reason; None where the switch throws
      "Unknown state". */
  function StopNotification(x: NotifyResult): (n: Option<Notification>)
    ensures n.None? <==> x.NrUnknown?
    ensures n.Some? ==> n.value != ServerStarted && n.value != ServerStartedSD
    ensures n == Some(ServerStopped) <==> x == NrStop
  {
    match x
    case NrStop => Some(ServerStopped)
    case NrEnded => Some(ServerStoppedSDDone)
    case NrEmpty => Some(ServerStoppedSDEmpty)
    case NrBroken => Some(ServerStoppedSDBroken)
    case NrMissingFile => Some(ServerStoppedSDMissingFile)
    case NrUnknown(_) => None
  }

  /** Distinct recognised reasons send distinct messages. */
  lemma StopNotificationInjective(x: NotifyResult, y: NotifyResult)
    requires StopNotification(x).Some? && StopNotification(x) == StopNotification(y)
    ensures x == y
  {
  }

  /** The configuration manager: the settings it hands out, production and test. */
  datatype NetConfig = NetConfig(settings: StreamSettings, tempSettings: StreamSettings)

  /** What the hardware and the foreign collaborators answer during one start:
      the calibration store, the UIO device list, and whether the new manager
      reports local mode (`isLocalMode`). */
  datatype Environment = Environment(calib: CalibParams, uios: seq<Uio>, managerIsLocal: bool)

  /** A streaming manager, identified by the serial number of the start that made it. */
  datatype Manager = Manager(id: nat, spec: ManagerSpec)

  /** A streaming application composed from a manager and a generator. */
  datatype App = App(id: nat, manager: Manager, gen: Generator, verbose: bool, testMode: bool)

  /** Effects on the hardware and on the collaborators, in the order they happen. */
  datatype Event =
    | CalibrationLoaded                               // rp_CalibInit and rp_GetCalibrationSettings
    | RelaySet(output: Output, range: OutputRange)    // rp_setGainOut
    | AppStopped(id: nat)                             // stop() and delete of an application
    | GeneratorCreated(gen: Generator)                // CGenerator::Create
    | ManagerCreated(manager: Manager)                // CDACStreamingManager::Create
    | AppStarted(app: App)                            // new application, runNonBlock()
    | Notified(note: Notification)                    // a message to the configuration manager
    | StopRequested(reason: NotifyResult)             // stopDACNonBlocking(reason)

  /** The globals: `g_serverDACNetConfig`, `g_dac_app`, `g_dac_manger`, `gen`,
      `g_dac_serverRun`, `g_dac_verbMode`; `serial` numbers the managers and
      applications; `events` records the effects so far. */
  datatype Globals = Globals(
    config: Option<NetConfig>,
    app: Option<App>,
    manager: Option<Manager>,
    gen: Option<Generator>,
    running: bool,
    verbose: bool,
    serial: nat,
    events: seq<Event>)

  const Initial: Globals := Globals(None, None, None, None, false, false, 0, [])

  function SettingsFor(cfg: NetConfig, testMode: bool): StreamSettings
  {
    if testMode then cfg.tempSettings else cfg.settings
  }

  /** Calibration loading (all boards but Z20) and the relay settings (250-12). */
  function SetupEvents(variant: Variant, gain: GainMode): (es: seq<Event>)
    ensures CalibrationLoaded in es <==> variant != Z20
    ensures variant == Z20_250_12 ==>
      var range := if gain == X1 then Range2V else Range10V;
      RelaySet(Out1, range) in es && RelaySet(Out2, range) in es
    ensures forall e :: e in es && e.RelaySet? ==>
      variant == Z20_250_12 && e.range == (if gain == X1 then Range2V else Range10V)
  {
    (if variant != Z20 then [CalibrationLoaded] else []) +
    (match OutputStage(variant, gain)
     case Some(r) => [RelaySet(Out1, r), RelaySet(Out2, r)]
     case None => [])
  }

  /** Stopping the application in the slot, if there is one. */
  function StopSlotEvents(app: Option<App>): seq<Event>
  {
    if app.Some? then [AppStopped(app.value.id)] else []
  }

  function GeneratorEvents(gs: seq<Generator>): seq<Event>
  {
    if gs == [] then [] else [GeneratorCreated(gs[0])] + GeneratorEvents(gs[1..])
  }

  /** The calibration a start hands to the generator. */
  function CalibrationFor(variant: Variant, s: StreamSettings, env: Environment): ChannelCalibration
  {
    ResolveCalibration(variant, s.calibration, s.dacGain, env.calib)
  }

  /** Everything a start records up to and including the UIO scan. */
  function ScanEvents(variant: Variant, app: Option<App>, s: StreamSettings, env: Environment): seq<Event>
  {
    SetupEvents(variant, s.dacGain) + StopSlotEvents(app)
    + GeneratorEvents(DacGenerators(env.uios, s.dacHz, CalibrationFor(variant, s, env)))
  }

  /** The globals once the running flag is raised and the UIO list scanned. */
  function Scanned(variant: Variant, g: Globals, s: StreamSettings, env: Environment): (r: Globals)
    ensures r.running && r.config == g.config && r.verbose == g.verbose
    ensures r.app == g.app && r.manager == g.manager && r.serial == g.serial
    ensures r.gen.Some? <==> LastDacIndex(env.uios).Some?
  {
    g.(running := true,
       gen := BoundGenerator(env.uios, s.dacHz, CalibrationFor(variant, s, env)),
       events := g.events + ScanEvents(variant, g.app, s, env))
  }

  /** `Scanned` in the order a start performs its steps: the setup, the stop
      of the slot's application, then the generators of the UIO scan. */
  lemma ScannedInSteps(variant: Variant, g: Globals, s: StreamSettings, env: Environment, calib: ChannelCalibration)
    requires calib == CalibrationFor(variant, s, env)
    ensures Scanned(variant, g, s, env) ==
      g.(running := true,
         gen := BoundGenerator(env.uios, s.dacHz, calib),
         events := g.events + SetupEvents(variant, s.dacGain) + StopSlotEvents(g.app)
                   + GeneratorEvents(DacGenerators(env.uios, s.dacHz, calib)))
  {
    AppendInSteps(g.events, SetupEvents(variant, s.dacGain), StopSlotEvents(g.app),
                  GeneratorEvents(DacGenerators(env.uios, s.dacHz, calib)));
  }

  lemma AppendInSteps(a: seq<Event>, b: seq<Event>, c: seq<Event>, d: seq<Event>)
    ensures a + (b + c + d) == a + b + c + d
  {
  }

  /** Creating the manager, composing and running the application, and
      reporting the start. */
  function Install(g: Globals, spec: ManagerSpec, verb: bool, testMode: bool, local: bool): (r: Globals)
    requires g.gen.Some?
    ensures r.app.Some? && r.manager == Some(r.app.value.manager) && r.manager.value.spec == spec
    ensures r.app.value.gen == g.gen.value && r.app.value.verbose == verb && r.app.value.testMode == testMode
    ensures r.app.value.id == g.serial && r.manager.value.id == g.serial && r.serial == g.serial + 1
    ensures r.gen == g.gen && r.running == g.running && r.config == g.config && r.verbose == g.verbose
    ensures AppStarted(r.app.value) in r.events && Notified(if local then ServerStartedSD else ServerStarted) in r.events
  {
    var m := Manager(g.serial, spec);
    var a := App(g.serial, m, g.gen.value, verb, testMode);
    var note := if local then ServerStartedSD else ServerStarted;
    g.(manager := Some(m), app := Some(a), serial := g.serial + 1,
       events := g.events + [ManagerCreated(m), AppStarted(a), Notified(note)])
  }

  /** `startDACServer(serverNetConfig, verbMode, testMode)`. */
  function StartSpec(variant: Variant, g: Globals, cfg: Option<NetConfig>, verb: bool, testMode: bool, env: Environment): (r: Globals)
    ensures cfg.None? ==> r == g
    ensures cfg.Some? ==> r.config == cfg && r.verbose == verb
    ensures cfg.Some? && SettingsFor(cfg.value, testMode).isSet ==> r.running
    ensures |g.events| <= |r.events|
    ensures r.serial == g.serial || (r.serial == g.serial + 1 && r.app.Some? && r.app.value.id == g.serial)
  {
    if cfg.None? then g
    else
      var s := SettingsFor(cfg.value, testMode);
      var entered := g.(config := cfg, gen := None, verbose := verb);
      if !s.isSet then entered
      else
        var scanned := Scanned(variant, entered, s, env);
        if scanned.gen.None? then scanned
        else
          match SelectDestination(s)
          case None => scanned
          case Some(spec) => Install(scanned, spec, verb, testMode, env.managerIsLocal)
  }

  /** `stopDACServer(x)`. An unrecognised reason throws before the running
      flag is cleared; the exception is caught and the flag keeps its value. */
  function StopSpec(g: Globals, x: NotifyResult): (r: Globals)
    ensures r.app == None && r.manager == g.manager && r.gen == g.gen
    ensures r.config == g.config && r.verbose == g.verbose && r.serial == g.serial
    ensures r.running <==> g.running && g.config.Some? && x.NrUnknown?
    ensures |g.events| <= |r.events| && r.events[..|g.events|] == g.events
  {
    var cleared := g.(app := None, events := g.events + StopSlotEvents(g.app));
    if g.config.None? then cleared.(running := false)
    else
      match StopNotification(x)
      case None => cleared
      case Some(n) => cleared.(running := false, events := cleared.events + [Notified(n)])
  }

  /** An application is live once started and until stopped. */
  ghost predicate Live(es: seq<Event>, a: App)
  {
    AppStarted(a) in es && AppStopped(a.id) !in es
  }

  /** The invariant the controller keeps: serial numbers are fresh, the only
      live application is the one in the slot, an application in the slot was
      started with the manager in the manager slot, and a live application
      implies the running flag. */
  ghost predicate Coherent(g: Globals)
  {
    (forall e :: e in g.events && e.AppStarted? ==> e.app.id < g.serial) &&
    (forall e :: e in g.events && e.AppStopped? ==> e.id < g.serial) &&
    (forall e :: e in g.events && e.AppStarted? && Live(g.events, e.app) ==> g.app == Some(e.app)) &&
    (g.app.Some? ==> AppStarted(g.app.value) in g.events && g.manager == Some(g.app.value.manager)) &&
    (g.app.Some? && Live(g.events, g.app.value) ==> g.running)
  }
}
