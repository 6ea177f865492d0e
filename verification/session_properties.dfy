/** What a start and a stop promise, stated about `Session.StartSpec` and
    `Session.StopSpec`. */
module SessionProperties {
  import opened Settings
  import opened Calibration
  import opened Destination
  import opened Binding
  import opened Session

  /** The messages sent to the configuration manager within a run of events. */
  function Notes(es: seq<Event>): seq<Notification>
  {
    if es == [] then [] else (if es[0].Notified? then [es[0].note] else []) + Notes(es[1..])
  }

  lemma {:induction false} NotesAppend(a: seq<Event>, b: seq<Event>)
    ensures Notes(a + b) == Notes(a) + Notes(b)
  {
    if a == [] {
      assert a + b == b;
    } else {
      var head := if a[0].Notified? then [a[0].note] else [];
      assert (a + b)[0] == a[0];
      assert (a + b)[1..] == a[1..] + b;
      assert Notes(a + b) == head + Notes(a[1..] + b);
      NotesAppend(a[1..], b);
      assert Notes(a) == head + Notes(a[1..]);
    }
  }

  /** A run of events without messages sends none. */
  lemma {:induction false} NotesOfSilentEvents(es: seq<Event>)
    requires forall e :: e in es ==> !e.Notified?
    ensures Notes(es) == []
  {
    if es != [] {
      assert forall e :: e in es[1..] ==> e in es;
      NotesOfSilentEvents(es[1..]);
    }
  }

  /** The generator scan only creates generators. */
  lemma {:induction false} GeneratorEventsOnlyCreate(gs: seq<Generator>)
    ensures |GeneratorEvents(gs)| == |gs|
    ensures forall i :: 0 <= i < |gs| ==> GeneratorEvents(gs)[i] == GeneratorCreated(gs[i])
    ensures forall e :: e in GeneratorEvents(gs) ==> e.GeneratorCreated?
  {
    if gs != [] {
      GeneratorEventsOnlyCreate(gs[1..]);
    }
  }

  /** What a start adds to the event record. */
  function Added(g: Globals, r: Globals): seq<Event>
  {
    if |g.events| <= |r.events| then r.events[|g.events|..] else []
  }

  // ---------------------------------------------------------------- start

  /** With unset settings a start stores the configuration, clears the
      generator slot and records the verbose flag, and does nothing else. */
  lemma StartWithUnsetSettings(variant: Variant, g: Globals, cfg: NetConfig, verb: bool, testMode: bool, env: Environment)
    requires !SettingsFor(cfg, testMode).isSet
    ensures var r := StartSpec(variant, g, Some(cfg), verb, testMode, env);
      r.config == Some(cfg) && r.gen == None && r.verbose == verb &&
      r.running == g.running && r.app == g.app && r.manager == g.manager &&
      r.serial == g.serial && r.events == g.events
  {
  }

  /** With set settings a start runs the setup and the scan, and installs an
      application exactly when a generator is bound and the destination is
      supported. */
  lemma StartShape(variant: Variant, g: Globals, cfg: NetConfig, verb: bool, testMode: bool, env: Environment)
    requires SettingsFor(cfg, testMode).isSet
    ensures var s := SettingsFor(cfg, testMode);
      var r := StartSpec(variant, g, Some(cfg), verb, testMode, env);
      var scanned := Scanned(variant, g.(config := Some(cfg), gen := None, verbose := verb), s, env);
      if scanned.gen.Some? && SelectDestination(s).Some? then
        r == Install(scanned, SelectDestination(s).value, verb, testMode, env.managerIsLocal)
      else
        r == scanned
  {
  }

  /** What a start with set settings records: the setup and scan events, then
      at most the manager creation, the application start and one message. */
  lemma StartAddsScanThenInstall(variant: Variant, g: Globals, cfg: NetConfig, verb: bool, testMode: bool, env: Environment)
    requires SettingsFor(cfg, testMode).isSet
    ensures var r := StartSpec(variant, g, Some(cfg), verb, testMode, env);
      var scan := ScanEvents(variant, g.app, SettingsFor(cfg, testMode), env);
      var added := Added(g, r);
      r.events == g.events + added && |scan| <= |added| && added[..|scan|] == scan &&
      forall i :: |scan| <= i < |added| ==> added[i].ManagerCreated? || added[i].AppStarted? || added[i].Notified?
  {
    var s := SettingsFor(cfg, testMode);
    var r := StartSpec(variant, g, Some(cfg), verb, testMode, env);
    var scan := ScanEvents(variant, g.app, s, env);
    var scanned := Scanned(variant, g.(config := Some(cfg), gen := None, verbose := verb), s, env);
    var tail := Added(scanned, r);
    StartTailInstallsOnly(variant, g, cfg, verb, testMode, env);
    var added := Added(g, r);
    assert added == scan + tail by {
      assert scanned.events == g.events + scan;
      AddedOf(g, r, scan + tail);
    }
    forall i | |scan| <= i < |added|
      ensures added[i].ManagerCreated? || added[i].AppStarted? || added[i].Notified?
    {
      assert added[i] == tail[i - |scan|];
    }
    assert added[..|scan|] == scan;
  }

  /** Past the scan, a start records only a manager creation, an application
      start and messages. */
  lemma StartTailInstallsOnly(variant: Variant, g: Globals, cfg: NetConfig, verb: bool, testMode: bool, env: Environment)
    requires SettingsFor(cfg, testMode).isSet
    ensures var s := SettingsFor(cfg, testMode);
      var r := StartSpec(variant, g, Some(cfg), verb, testMode, env);
      var scanned := Scanned(variant, g.(config := Some(cfg), gen := None, verbose := verb), s, env);
      r.events == scanned.events + Added(scanned, r) &&
      forall e :: e in Added(scanned, r) ==> e.ManagerCreated? || e.AppStarted? || e.Notified?
  {
    var s := SettingsFor(cfg, testMode);
    var scanned := Scanned(variant, g.(config := Some(cfg), gen := None, verbose := verb), s, env);
    StartShape(variant, g, cfg, verb, testMode, env);
    if scanned.gen.Some? && SelectDestination(s).Some? {
      InstallReports(scanned, SelectDestination(s).value, verb, testMode, env.managerIsLocal);
    } else {
      assert Added(scanned, scanned) == [];
    }
  }

  /** The part of a record past a prefix is what was appended to it. */
  lemma AddedOf(g: Globals, r: Globals, extra: seq<Event>)
    requires r.events == g.events + extra
    ensures Added(g, r) == extra
  {
  }

  /** The calibration store is read on every board but Z20; on 250-12 boards
      both relays are switched to 2 V for gain x1 and to 10 V otherwise,
      whatever the calibration flag, and never to the other range; other boards
      switch no relay. */
  lemma StartHardwareSetup(variant: Variant, g: Globals, cfg: NetConfig, verb: bool, testMode: bool, env: Environment)
    requires SettingsFor(cfg, testMode).isSet
    ensures var r := StartSpec(variant, g, Some(cfg), verb, testMode, env);
      var s := SettingsFor(cfg, testMode);
      var added := Added(g, r);
      (CalibrationLoaded in added <==> variant != Z20) &&
      (variant == Z20_250_12 ==>
        var range := if s.dacGain == X1 then Range2V else Range10V;
        RelaySet(Out1, range) in added && RelaySet(Out2, range) in added) &&
      (variant != Z20_250_12 ==> forall e :: e in added ==> !e.RelaySet?) &&
      (forall e :: e in added && e.RelaySet? ==> e.range == (if s.dacGain == X1 then Range2V else Range10V))
  {
    var r := StartSpec(variant, g, Some(cfg), verb, testMode, env);
    var s := SettingsFor(cfg, testMode);
    var scan := ScanEvents(variant, g.app, s, env);
    var scanned := Scanned(variant, g.(config := Some(cfg), gen := None, verbose := verb), s, env);
    var tail := Added(scanned, r);
    assert Added(g, r) == scan + tail && forall e :: e in tail ==> e.ManagerCreated? || e.AppStarted? || e.Notified? by {
      StartTailInstallsOnly(variant, g, cfg, verb, testMode, env);
      assert scanned.events == g.events + scan;
      AddedOf(g, r, scan + tail);
    }
    ScanHardwareSetup(variant, g.app, s, env);
    InstallTailHasNoHardware(scan, tail);
  }

  /** The installation events neither read calibration nor switch relays. */
  lemma InstallTailHasNoHardware(scan: seq<Event>, tail: seq<Event>)
    requires forall e :: e in tail ==> e.ManagerCreated? || e.AppStarted? || e.Notified?
    ensures forall e :: e in scan + tail && (e == CalibrationLoaded || e.RelaySet?) ==> e in scan
  {
  }

  /** The hardware part of the setup and scan events. */
  lemma ScanHardwareSetup(variant: Variant, app: Option<App>, s: StreamSettings, env: Environment)
    ensures var scan := ScanEvents(variant, app, s, env);
      (CalibrationLoaded in scan <==> variant != Z20) &&
      (variant == Z20_250_12 ==>
        var range := if s.dacGain == X1 then Range2V else Range10V;
        RelaySet(Out1, range) in scan && RelaySet(Out2, range) in scan) &&
      (variant != Z20_250_12 ==> forall e :: e in scan ==> !e.RelaySet?) &&
      (forall e :: e in scan && e.RelaySet? ==> e.range == (if s.dacGain == X1 then Range2V else Range10V))
  {
    var setup := SetupEvents(variant, s.dacGain);
    var gs := DacGenerators(env.uios, s.dacHz, CalibrationFor(variant, s, env));
    var rest := StopSlotEvents(app) + GeneratorEvents(gs);
    assert ScanEvents(variant, app, s, env) == setup + rest;
    assert forall e :: e in rest ==> e.AppStopped? || e.GeneratorCreated? by {
      GeneratorEventsOnlyCreate(gs);
    }
    SetupEventsKinds(variant, s.dacGain);
  }

  /** The setup reads the calibration and switches relays to the gain's range,
      and does nothing else. */
  lemma SetupEventsKinds(variant: Variant, gain: GainMode)
    ensures forall e :: e in SetupEvents(variant, gain) ==>
      e.CalibrationLoaded? ||
      (e.RelaySet? && variant == Z20_250_12 && e.range == (if gain == X1 then Range2V else Range10V))
  {
  }

  /** The application in the slot is stopped before any generator is created. */
  lemma StartStopsSlotFirst(variant: Variant, g: Globals, cfg: NetConfig, verb: bool, testMode: bool, env: Environment)
    requires SettingsFor(cfg, testMode).isSet
    requires g.app.Some?
    ensures var r := StartSpec(variant, g, Some(cfg), verb, testMode, env);
      var added := Added(g, r);
      exists i :: 0 <= i < |added| && added[i] == AppStopped(g.app.value.id) &&
        forall j :: 0 <= j < i ==> !added[j].GeneratorCreated?
  {
    var r := StartSpec(variant, g, Some(cfg), verb, testMode, env);
    var s := SettingsFor(cfg, testMode);
    var setup := SetupEvents(variant, s.dacGain);
    var scan := ScanEvents(variant, g.app, s, env);
    var added := Added(g, r);
    var i := |setup|;
    ScanStopsSlotFirst(variant, g.app, s, env);
    assert |scan| <= |added| && added[..|scan|] == scan by {
      StartAddsScanThenInstall(variant, g, cfg, verb, testMode, env);
    }
    assert added[i] == scan[i];
    assert forall j :: 0 <= j < i ==> added[j] == scan[j];
  }

  /** Within the setup and scan events, the slot's application is stopped
      right after the setup and before any generator is created. */
  lemma ScanStopsSlotFirst(variant: Variant, app: Option<App>, s: StreamSettings, env: Environment)
    requires app.Some?
    ensures var scan := ScanEvents(variant, app, s, env);
      var i := |SetupEvents(variant, s.dacGain)|;
      i < |scan| && scan[i] == AppStopped(app.value.id) &&
      forall j :: 0 <= j < i ==> !scan[j].GeneratorCreated?
  {
    var setup := SetupEvents(variant, s.dacGain);
    var gs := DacGenerators(env.uios, s.dacHz, CalibrationFor(variant, s, env));
    assert ScanEvents(variant, app, s, env) == setup + [AppStopped(app.value.id)] + GeneratorEvents(gs);
    assert forall e :: e in setup ==> e.CalibrationLoaded? || e.RelaySet?;
  }

  /** The generator left bound is the one built on the last "rp_dac" node,
      carrying the settings' sample rate and the resolved calibration. */
  lemma StartBindsLastDacNode(variant: Variant, g: Globals, cfg: NetConfig, verb: bool, testMode: bool, env: Environment, k: nat)
    requires SettingsFor(cfg, testMode).isSet
    requires LastDacIndex(env.uios) == Some(k)
    ensures var r := StartSpec(variant, g, Some(cfg), verb, testMode, env);
      var s := SettingsFor(cfg, testMode);
      r.gen == Some(Generator(env.uios[k], s.dacHz, ResolveCalibration(variant, s.calibration, s.dacGain, env.calib)))
  {
  }

  /** Everything a start records up to the scan is silent, and no application
      is started in it. */
  lemma ScanEventsQuiet(variant: Variant, app: Option<App>, s: StreamSettings, env: Environment)
    ensures Notes(ScanEvents(variant, app, s, env)) == []
    ensures forall e :: e in ScanEvents(variant, app, s, env) ==> !e.AppStarted? && !e.Notified?
    ensures forall e :: e in ScanEvents(variant, app, s, env) && e.AppStopped? ==> app.Some? && e.id == app.value.id
  {
    var setup := SetupEvents(variant, s.dacGain);
    var gs := DacGenerators(env.uios, s.dacHz, CalibrationFor(variant, s, env));
    var slot := StopSlotEvents(app);
    var created := GeneratorEvents(gs);
    var scan := ScanEvents(variant, app, s, env);
    assert forall e :: e in scan ==> e in setup || e in slot || e in created by {
      assert scan == setup + slot + created;
    }
    assert forall e :: e in created ==> e.GeneratorCreated? by {
      GeneratorEventsOnlyCreate(gs);
    }
    SetupEventsKinds(variant, s.dacGain);
    NotesOfSilentEvents(scan);
  }

  /** Without a DAC node the start gives up after the scan: no generator, no
      new application or manager, no message; the running flag stays raised
      and the slot still refers to the application it has just stopped. */
  lemma StartWithoutDacNode(variant: Variant, g: Globals, cfg: NetConfig, verb: bool, testMode: bool, env: Environment)
    requires SettingsFor(cfg, testMode).isSet
    requires forall j :: 0 <= j < |env.uios| ==> !IsDacNode(env.uios[j])
    ensures var r := StartSpec(variant, g, Some(cfg), verb, testMode, env);
      r.gen == None && r.app == g.app && r.manager == g.manager && r.serial == g.serial &&
      r.running && Notes(Added(g, r)) == [] &&
      (g.app.Some? ==> AppStopped(g.app.value.id) in r.events)
  {
    var s := SettingsFor(cfg, testMode);
    StartShape(variant, g, cfg, verb, testMode, env);
    ScanEventsQuiet(variant, g.app, s, env);
    var r := StartSpec(variant, g, Some(cfg), verb, testMode, env);
    assert Added(g, r) == ScanEvents(variant, g.app, s, env);
  }

  /** A file format other than WAV or TDMS ends the start after the generator
      is bound: no manager, no application, no message. */
  lemma StartWithUnsupportedFormat(variant: Variant, g: Globals, cfg: NetConfig, verb: bool, testMode: bool, env: Environment)
    requires SettingsFor(cfg, testMode).isSet
    requires SettingsFor(cfg, testMode).mode == DacFile && SettingsFor(cfg, testMode).fileType.OtherFileType?
    ensures var r := StartSpec(variant, g, Some(cfg), verb, testMode, env);
      r.app == g.app && r.manager == g.manager && r.serial == g.serial &&
      r.running && Notes(Added(g, r)) == [] &&
      (g.app.Some? ==> AppStopped(g.app.value.id) in r.events)
  {
    var s := SettingsFor(cfg, testMode);
    StartShape(variant, g, cfg, verb, testMode, env);
    ScanEventsQuiet(variant, g.app, s, env);
    var r := StartSpec(variant, g, Some(cfg), verb, testMode, env);
    assert Added(g, r) == ScanEvents(variant, g.app, s, env);
  }

  /** After a start that aborts for want of a DAC node, the slot still refers
      to the application the start stopped, so the next stop stops it again:
      the two calls together record two stops of it. */
  lemma StaleSlotStoppedTwice(variant: Variant, g: Globals, cfg: NetConfig, verb: bool, testMode: bool, env: Environment, x: NotifyResult)
    requires SettingsFor(cfg, testMode).isSet
    requires forall j :: 0 <= j < |env.uios| ==> !IsDacNode(env.uios[j])
    requires g.app.Some?
    ensures var r := StopSpec(StartSpec(variant, g, Some(cfg), verb, testMode, env), x);
      var added := Added(g, r);
      exists i, j :: 0 <= i < j < |added| && added[i] == AppStopped(g.app.value.id) && added[j] == AppStopped(g.app.value.id)
  {
    var s := SettingsFor(cfg, testMode);
    var mid := StartSpec(variant, g, Some(cfg), verb, testMode, env);
    var r := StopSpec(mid, x);
    var stop := AppStopped(g.app.value.id);
    var scan := ScanEvents(variant, g.app, s, env);
    var i := |SetupEvents(variant, s.dacGain)|;
    assert i < |scan| && scan[i] == stop by {
      ScanStopsSlotFirst(variant, g.app, s, env);
    }
    assert mid.app == g.app && mid.events == g.events + scan by {
      StartShape(variant, g, cfg, verb, testMode, env);
    }
    StopStopsSlotFirst(mid, x);
    var added := Added(g, r);
    assert added[i] == stop && added[|scan|] == stop by {
      assert r.events[|g.events| + i] == mid.events[|g.events| + i] == scan[i];
      assert r.events[|g.events| + |scan|] == stop;
    }
  }

  /** A stop records the stop of the slot's application before anything else. */
  lemma StopStopsSlotFirst(h: Globals, x: NotifyResult)
    requires h.app.Some?
    ensures var r := StopSpec(h, x);
      |h.events| < |r.events| && r.events[..|h.events| + 1] == h.events + [AppStopped(h.app.value.id)]
  {
  }

  /** Installing records the manager, the application and one message. */
  lemma InstallReports(h: Globals, spec: ManagerSpec, verb: bool, testMode: bool, local: bool)
    requires h.gen.Some?
    ensures var r := Install(h, spec, verb, testMode, local);
      r.events == h.events + Added(h, r) &&
      Notes(Added(h, r)) == [if local then ServerStartedSD else ServerStarted] &&
      forall e :: e in Added(h, r) ==> e.ManagerCreated? || e.AppStarted? || e.Notified?
  {
    var r := Install(h, spec, verb, testMode, local);
    var a := r.app.value;
    var note := if local then ServerStartedSD else ServerStarted;
    assert Added(h, r) == [ManagerCreated(a.manager), AppStarted(a)] + [Notified(note)];
    NotesOfSilentEvents([ManagerCreated(a.manager), AppStarted(a)]);
    NotesAppend([ManagerCreated(a.manager), AppStarted(a)], [Notified(note)]);
    assert [Notified(note)][1..] == [];
  }

  /** A start that binds a generator and a destination installs and runs a new
      application built from the new manager and the bound generator. */
  lemma StartSucceeds(variant: Variant, g: Globals, cfg: NetConfig, verb: bool, testMode: bool, env: Environment)
    requires Coherent(g)
    requires SettingsFor(cfg, testMode).isSet
    requires exists j :: 0 <= j < |env.uios| && IsDacNode(env.uios[j])
    requires SelectDestination(SettingsFor(cfg, testMode)).Some?
    ensures var r := StartSpec(variant, g, Some(cfg), verb, testMode, env);
      r.app.Some? && r.manager.Some? && r.gen.Some? &&
      r.app.value.manager == r.manager.value && r.app.value.gen == r.gen.value &&
      r.manager.value.spec == SelectDestination(SettingsFor(cfg, testMode)).value &&
      r.app.value.verbose == verb && r.app.value.testMode == testMode &&
      Live(r.events, r.app.value) && r.running
  {
    var s := SettingsFor(cfg, testMode);
    var r := StartSpec(variant, g, Some(cfg), verb, testMode, env);
    var scanned := Scanned(variant, g.(config := Some(cfg), gen := None, verbose := verb), s, env);
    assert r == Install(scanned, SelectDestination(s).value, verb, testMode, env.managerIsLocal) by {
      StartShape(variant, g, cfg, verb, testMode, env);
    }
    assert AppStopped(g.serial) !in scanned.events by {
      ScanEventsQuiet(variant, g.app, s, env);
      assert AppStopped(g.serial) !in g.events;
    }
  }

  /** A start that installs an application sends exactly one message: the
      local-mode one iff the manager reports local mode. */
  lemma StartSucceedsReportsOnce(variant: Variant, g: Globals, cfg: NetConfig, verb: bool, testMode: bool, env: Environment)
    requires SettingsFor(cfg, testMode).isSet
    requires exists j :: 0 <= j < |env.uios| && IsDacNode(env.uios[j])
    requires SelectDestination(SettingsFor(cfg, testMode)).Some?
    ensures var r := StartSpec(variant, g, Some(cfg), verb, testMode, env);
      Notes(Added(g, r)) == [if env.managerIsLocal then ServerStartedSD else ServerStarted]
  {
    var s := SettingsFor(cfg, testMode);
    var r := StartSpec(variant, g, Some(cfg), verb, testMode, env);
    var scanned := Scanned(variant, g.(config := Some(cfg), gen := None, verbose := verb), s, env);
    var scan := ScanEvents(variant, g.app, s, env);
    var tail := Added(scanned, r);
    assert r.events == scanned.events + tail &&
      Notes(tail) == [if env.managerIsLocal then ServerStartedSD else ServerStarted] by {
      assert r == Install(scanned, SelectDestination(s).value, verb, testMode, env.managerIsLocal) by {
        StartShape(variant, g, cfg, verb, testMode, env);
      }
      InstallReports(scanned, SelectDestination(s).value, verb, testMode, env.managerIsLocal);
    }
    assert scanned.events == g.events + scan;
    AddedOf(g, r, scan + tail);
    ScanEventsQuiet(variant, g.app, s, env);
    NotesAppend(scan, tail);
  }

  /** Appending events that start no application and stop only applications
      already numbered keeps the invariant, provided the slots are kept and the
      running flag is not lowered. */
  lemma QuietEventsPreserveCoherent(g: Globals, r: Globals, extra: seq<Event>)
    requires Coherent(g)
    requires r.events == g.events + extra && r.app == g.app && r.manager == g.manager && r.serial == g.serial
    requires g.running ==> r.running
    requires forall e :: e in extra ==> !e.AppStarted?
    requires forall e :: e in extra && e.AppStopped? ==> e.id < g.serial
    ensures Coherent(r)
  {
  }

  /** Installing a new application when none is live keeps the invariant. */
  lemma InstallPreservesCoherent(g: Globals, spec: ManagerSpec, verb: bool, testMode: bool, local: bool)
    requires Coherent(g) && g.gen.Some? && g.running
    requires forall a :: !Live(g.events, a)
    ensures Coherent(Install(g, spec, verb, testMode, local))
  {
  }

  /** Starting keeps the controller's invariant. */
  lemma StartPreservesCoherent(variant: Variant, g: Globals, cfg: Option<NetConfig>, verb: bool, testMode: bool, env: Environment)
    requires Coherent(g)
    ensures Coherent(StartSpec(variant, g, cfg, verb, testMode, env))
  {
    if cfg.Some? && SettingsFor(cfg.value, testMode).isSet {
      var s := SettingsFor(cfg.value, testMode);
      var entered := g.(config := cfg, gen := None, verbose := verb);
      var scanned := Scanned(variant, entered, s, env);
      var scan := ScanEvents(variant, g.app, s, env);
      StartShape(variant, g, cfg.value, verb, testMode, env);
      ScanEventsQuiet(variant, g.app, s, env);
      QuietEventsPreserveCoherent(g, scanned, scan);
      if scanned.gen.Some? && SelectDestination(s).Some? {
        forall a
          ensures !Live(scanned.events, a)
        {
          if Live(g.events, a) {
            OnlySlotApplicationIsLive(g, a);
          }
        }
        InstallPreservesCoherent(scanned, SelectDestination(s).value, verb, testMode, env.managerIsLocal);
      }
    }
  }

  /** No two applications are ever live at once: a live application is the
      one in the slot. */
  lemma OnlySlotApplicationIsLive(g: Globals, a: App)
    requires Coherent(g) && Live(g.events, a)
    ensures g.app == Some(a)
  {
  }

  // ---------------------------------------------------------------- stop

  /** A stop stops and clears the application in the slot and touches no
      other slot; a second stop finds no application to stop. */
  lemma StopClearsApplication(g: Globals, x: NotifyResult, y: NotifyResult)
    ensures var r := StopSpec(g, x);
      r.app == None && r.manager == g.manager && r.gen == g.gen &&
      r.config == g.config && r.verbose == g.verbose && r.serial == g.serial &&
      (g.app.Some? ==> AppStopped(g.app.value.id) in r.events) &&
      (g.app.None? ==> forall e :: e in Added(g, r) ==> !e.AppStopped?)
    ensures var r := StopSpec(g, x);
      var r2 := StopSpec(r, y);
      forall e :: e in Added(r, r2) ==> !e.AppStopped?
  {
    var r := StopSpec(g, x);
    StopAdds(g, x);
    StopAdds(r, y);
    assert g.app.Some? ==> Added(g, r)[0] == AppStopped(g.app.value.id);
  }

  /** A stop appends the stop of the slot's application, if any, and then at
      most one message. */
  lemma StopAdds(g: Globals, x: NotifyResult)
    ensures var r := StopSpec(g, x);
      r.events == g.events + Added(g, r) &&
      Added(g, r) == StopSlotEvents(g.app) +
        (if g.config.Some? && StopNotification(x).Some? then [Notified(StopNotification(x).value)] else [])
  {
    var note := if g.config.Some? && StopNotification(x).Some? then [Notified(StopNotification(x).value)] else [];
    AddedOf(g, StopSpec(g, x), StopSlotEvents(g.app) + note);
  }

  /** With a configuration manager, each recognised reason sends exactly its
      own message and clears the running flag; an unrecognised reason sends
      nothing and leaves the flag as it was. Without one, no message is sent
      and the flag is cleared. */
  lemma StopNotifies(g: Globals, x: NotifyResult)
    ensures var r := StopSpec(g, x);
      g.config.Some? && !x.NrUnknown? ==>
        Notes(Added(g, r)) == [StopNotification(x).value] && !r.running
    ensures var r := StopSpec(g, x);
      g.config.Some? && x.NrUnknown? ==> Notes(Added(g, r)) == [] && r.running == g.running
    ensures var r := StopSpec(g, x);
      g.config.None? ==> Notes(Added(g, r)) == [] && !r.running
  {
    var slot := StopSlotEvents(g.app);
    StopAdds(g, x);
    NotesOfSilentEvents(slot);
    if g.config.Some? && !x.NrUnknown? {
      NotesAppend(slot, [Notified(StopNotification(x).value)]);
    } else {
      assert slot + [] == slot;
    }
  }

  /** Stopping keeps the invariant and leaves no application live. */
  lemma StopPreservesCoherent(g: Globals, x: NotifyResult)
    requires Coherent(g)
    ensures Coherent(StopSpec(g, x))
    ensures forall a :: !Live(StopSpec(g, x).events, a)
  {
  }
}
