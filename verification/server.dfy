/** The controller's globals as one object, with the start and stop entry
    points updating them step by step. */
module Server {
  import opened Settings
  import opened Calibration
  import opened Destination
  import opened Binding
  import opened Session
  import SessionProperties

  class DacServer {
    /** The board this build targets. */
    const variant: Variant

    var config: Option<NetConfig>
    var app: Option<App>
    var manager: Option<Manager>
    var gen: Option<Generator>
    var running: bool
    var verbose: bool
    var serial: nat
    var events: seq<Event>

    function State(): Globals
      reads this
    {
      Globals(config, app, manager, gen, running, verbose, serial, events)
    }

    ghost predicate Valid()
      reads this
    {
      Coherent(State())
    }

    /** The globals at program start: every slot empty, not running. */
    constructor (variant: Variant)
      ensures Valid()
      ensures this.variant == variant && State() == Initial
    {
      this.variant := variant;
      config, app, manager, gen := None, None, None, None;
      running, verbose := false, false;
      serial, events := 0, [];
    }

    /** `startDACServer`. */
    method Start(cfg: Option<NetConfig>, verb: bool, testMode: bool, env: Environment)
      requires Valid()
      modifies this
      ensures Valid()
      ensures State() == StartSpec(variant, old(State()), cfg, verb, testMode, env)
    {
      label start: {
        if cfg.None? {
          break start;
        }
        config := cfg;
        gen := None;
        verbose := verb;
        var settings := if testMode then cfg.value.tempSettings else cfg.value.settings;
        if !settings.isSet {
          break start;
        }
        Scan(settings, env);
        if gen.None? {
          break start;
        }
        var spec := SelectDestination(settings);
        if spec.None? {
          break start;
        }
        InstallApp(spec.value, testMode, env.managerIsLocal);
      }
      SessionProperties.StartPreservesCoherent(variant, old(State()), cfg, verb, testMode, env);
    }

    /** The part of a start from raising the running flag to the end of the
        UIO scan.
        This is one phase of `Start`, public only so that `Start` can be
        proved step by step; it is not an entry point of the server and does
        not promise `Valid()` on its own. */
    method Scan(settings: StreamSettings, env: Environment)
      modifies this
      ensures State() == Scanned(variant, old(State()), settings, env)
    {
      ghost var g := State();
      running := true;
      var calib := PrepareHardware(settings, env.calib);
      ReleaseApp();
      BindGenerator(env.uios, settings.dacHz, calib);
      ScannedInSteps(variant, g, settings, env, calib);
    }

    /** The calibration and output-stage part of a start: the calibration
        store is read (all boards but Z20), the calibration resolved, and the
        relays switched (250-12 boards).
        This is one phase of `Start`, public only so that `Start` can be
        proved step by step; it is not an entry point of the server and does
        not promise `Valid()` on its own. */
    method PrepareHardware(settings: StreamSettings, params: CalibParams) returns (calib: ChannelCalibration)
      modifies this
      ensures calib == ResolveCalibration(variant, settings.calibration, settings.dacGain, params)
      ensures State() == old(State()).(events := old(events) + SetupEvents(variant, settings.dacGain))
    {
      if variant != Z20 {
        events := events + [CalibrationLoaded];
      }
      calib := ResolveCalibration(variant, settings.calibration, settings.dacGain, params);
      var range := OutputStage(variant, settings.dacGain);
      if range.Some? {
        events := events + [RelaySet(Out1, range.value), RelaySet(Out2, range.value)];
      }
    }

    /** Stops and deletes the application in the slot, if any; the slot itself
        keeps referring to it.
        This is one phase of `Start`, public only so that `Start` can be
        proved step by step; it is not an entry point of the server and does
        not promise `Valid()` on its own. */
    method ReleaseApp()
      modifies this
      ensures State() == old(State()).(events := old(events) + StopSlotEvents(old(app)))
    {
      if app.Some? {
        events := events + [AppStopped(app.value.id)];
      }
    }

    /** The UIO scan: the generator slot ends with the generator built on the
        last DAC node, or empty when there is none.
        This is one phase of `Start`, public only so that `Start` can be
        proved step by step; it is not an entry point of the server and does
        not promise `Valid()` on its own. */
    method BindGenerator(uios: seq<Uio>, hz: int, calib: ChannelCalibration)
      modifies this
      ensures State() == old(State()).(gen := BoundGenerator(uios, hz, calib),
                                      events := old(events) + GeneratorEvents(DacGenerators(uios, hz, calib)))
    {
      var created;
      gen, created := ScanUioList(uios, hz, calib);
      events := events + GeneratorEvents(created);
    }

    /** Creates the manager, composes and runs the application, and reports
        the start.
        This is one phase of `Start`, public only so that `Start` can be
        proved step by step; it is not an entry point of the server and does
        not promise `Valid()` on its own. */
    method InstallApp(spec: ManagerSpec, testMode: bool, local: bool)
      requires gen.Some?
      modifies this
      ensures State() == Install(old(State()), spec, old(verbose), testMode, local)
    {
      var m := Manager(serial, spec);
      manager := Some(m);
      events := events + [ManagerCreated(m)];
      var a := App(serial, m, gen.value, verbose, testMode);
      app := Some(a);
      serial := serial + 1;
      events := events + [AppStarted(a)];
      var note := if local then ServerStartedSD else ServerStarted;
      events := events + [Notified(note)];
      assert events == old(events) + [ManagerCreated(m), AppStarted(a), Notified(note)];
    }

    /** `stopDACServer`. */
    method Stop(x: NotifyResult)
      requires Valid()
      modifies this
      ensures Valid()
      ensures State() == StopSpec(old(State()), x)
    {
      SessionProperties.StopPreservesCoherent(State(), x);
      if app.Some? {
        events := events + [AppStopped(app.value.id)];
        app := None;
      }
      if config.Some? {
        var note := StopNotification(x);
        if note.None? {
          // "Unknown state" is thrown here and caught: the running flag is left as it was
          return;
        }
        events := events + [Notified(note.value)];
      }
      running := false;
    }

    /** `stopDACNonBlocking`: hands the stop to a detached thread and returns;
        here the hand-over is recorded and nothing else changes yet. */
    method StopNonBlocking(x: NotifyResult)
      requires Valid()
      modifies this
      ensures Valid()
      ensures State() == old(State()).(events := old(events) + [StopRequested(x)])
    {
      SessionProperties.QuietEventsPreserveCoherent(State(), State().(events := events + [StopRequested(x)]), [StopRequested(x)]);
      events := events + [StopRequested(x)];
    }

    /** The `notifyStop` callback of a file manager, fired when playback ends. */
    method PlaybackStopped(x: NotifyResult)
      requires Valid()
      requires manager.Some? && manager.value.spec.Hook() == RequestNonBlockingStop
      modifies this
      ensures Valid()
      ensures State() == old(State()).(events := old(events) + [StopRequested(x)])
    {
      StopNonBlocking(x);
    }

    /** The detached thread of an earlier `StopNonBlocking(x)` running the stop. */
    method RunRequestedStop(x: NotifyResult)
      requires Valid() && StopRequested(x) in events
      modifies this
      ensures Valid()
      ensures State() == StopSpec(old(State()), x)
    {
      Stop(x);
    }
  }

  /** A WAV playback session on a Z10 board: start, the file manager reports
      the end of the file, the stop it requests runs, and the configuration
      manager is told that playback finished. */
  method WavPlaybackScenario(params: CalibParams) returns (started: Notification, stopped: Notification, running: bool)
    ensures started == ServerStartedSD
    ensures stopped == ServerStoppedSDDone
    ensures !running
  {
    var server := new DacServer(Z10);
    var s := StreamSettings(true, DacFile, 8900, 125000000, false, X1, Wav, "/sd/test.wav", 0, 0, 0);
    var env := Environment(params, [Uio("rp_dac", "/dev/uio/rp_dac")], true);
    server.Start(Some(NetConfig(s, s)), false, false, env);
    assert server.manager.Some? && server.manager.value.spec.FileManager?;
    started := server.events[|server.events| - 1].note;
    server.PlaybackStopped(NrEnded);
    server.RunRequestedStop(NrEnded);
    stopped := server.events[|server.events| - 1].note;
    running := server.running;
  }
}
