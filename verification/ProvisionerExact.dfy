/** When a failed start restores the host, read off the host before the call; and hosts on
    which it does not. */
module ProvisionerExact {
  import opened Naming
  import opened ProvisionerModel
  import opened ProvisionerPromises

  // ---- Steps that only look at the calls they make ----------------------------------------------

  const GRANTED: Fate := i => true

  /** Everything succeeds until call number `n`, and nothing from there on. */
  function Until(n: nat): Fate
  {
    i => i < n
  }

  lemma {:induction false} DirsGranted(spec: Spec, w: Work, dirs: seq<string>, n: nat)
    requires CreateDirs(GRANTED, spec, w, dirs).0.calls <= n
    ensures CreateDirs(Until(n), spec, w, dirs) == CreateDirs(GRANTED, spec, w, dirs)
    ensures CreateDirs(GRANTED, spec, w, dirs).1
    ensures w.calls <= CreateDirs(GRANTED, spec, w, dirs).0.calls
    decreases |dirs|
  {
    if dirs != [] {
      if dirs[0] in w.host.dirs {
        DirsGranted(spec, w, dirs[1..], n);
      } else {
        var w' := Work(MakeDir(w.host, spec, dirs[0]), w.created.(dirs := w.created.dirs + [dirs[0]]),
                       w.calls + 1);
        assert CreateDirs(GRANTED, spec, w, dirs) == CreateDirs(GRANTED, spec, w', dirs[1..]);
        DirsGranted(spec, w', dirs[1..], n);
      }
    }
  }

  /** Once every call fails, the start fails at the container at the latest. */
  lemma {:induction false} VolumesRefused(n: nat, w: Work, volumes: seq<string>)
    requires n <= w.calls
    ensures var (w', ok) := CreateVolumes(Until(n), w, volumes);
            w'.created == w.created && n <= w'.calls
    decreases |volumes|
  {
    if volumes != [] && volumes[0] in w.host.volumes {
      VolumesRefused(n, w, volumes[1..]);
    }
  }

  lemma LaunchRefused(n: nat, spec: Spec, w: Work, box: Box)
    requires n <= w.calls
    ensures var (w', ok) := Launch(Until(n), spec, w, box); !ok && w'.created == w.created
  {
  }

  /** The steps after the staging, with nothing granted any more. */
  lemma RestRefused(n: nat, spec: Spec, w: Work, box: Box)
    requires n <= w.calls
    ensures var (w1, ok1) := CreateNetwork(Until(n), spec, w);
            var (w2, ok2) := CreateVolumes(Until(n), w1, spec.volumes);
            var (w3, ok3) := Launch(Until(n), spec, w2, box);
            && w1.created == w2.created == w3.created == w.created && !ok3
  {
    var w1 := CreateNetwork(Until(n), spec, w).0;
    VolumesRefused(n, w1, spec.volumes);
    LaunchRefused(n, spec, CreateVolumes(Until(n), w1, spec.volumes).0, box);
    hide CreateVolumes, Launch;
  }

  // ---- Where a start can be cut off ------------------------------------------------------------

  /** Call number of the staging of the configuration when all before is granted. */
  function StagingCall(spec: Spec, h0: Host, calls: nat): nat
  {
    CreateDirs(GRANTED, spec, Work(h0, NOTHING, calls + 1), spec.dirs).0.calls
  }

  /** Cut off right after the configuration is staged, and, in a persona mode, right after
      the personas are. */
  lemma CutAfterStaging(spec: Spec, h0: Host, calls: nat, req: Request, sel: Selection, personasToo: bool)
    requires !Nameless(req, sel) && (personasToo ==> sel.persona)
    ensures var n := StagingCall(spec, h0, calls) + (if personasToo then 2 else 1);
            var (w, out) := StartFresh(Until(n), spec, h0, calls, req, sel);
            out == RolledBack && w.created.config && (personasToo ==> w.created.personas)
  {
    var c := StagingCall(spec, h0, calls);
    var n := c + (if personasToo then 2 else 1);
    var w0 := Work(h0, NOTHING, calls + 1);
    DirsGranted(spec, w0, spec.dirs, n);
    var w1 := CreateDirs(Until(n), spec, w0, spec.dirs).0;
    var w2 := StageConfig(Until(n), spec, w1, req.config).0;
    assert w2.calls == c + 1 && w2.created.config;
    var w3 := if sel.persona then StagePersonas(Until(n), spec, w2, req.personas).0 else w2;
    RestRefused(n, spec, w3, Box(true, Some(sel.mode), req.world)) by {
      assert n <= w3.calls;
    }
    hide CreateDirs, CreateNetwork, CreateVolumes, Launch, Rollback;
  }

  /** Cut off before anything is made, where something has to be. */
  lemma CutBeforeAll(spec: Spec, h0: Host, calls: nat, req: Request, sel: Selection)
    requires !Nameless(req, sel) && SpecOk(spec) && EmptyDir(h0, spec.root)
    ensures StartFresh(Until(calls + 1), spec, h0, calls, req, sel).1 == RolledBack
  {
    var w0 := Work(h0, NOTHING, calls + 1);
    assert spec.dirs != [] && spec.dirs[0] in spec.dirs && Under(spec.root, spec.dirs[0]);
    assert spec.dirs[0] !in h0.dirs;
    assert CreateDirs(Until(calls + 1), spec, w0, spec.dirs) == (Asked(w0), false);
    hide Rollback;
  }

  // ---- The condition -----------------------------------------------------------------------------

  /** Nothing of an earlier life stands where this start would stage a file, and the root is
      not an empty directory. */
  predicate RoomToStage(h0: Host, spec: Spec, sel: Selection)
  {
    && spec.configFile !in h0.files
    && (sel.persona ==> spec.personaFile !in h0.files)
    && !(spec.root in h0.dirs && EmptyDir(h0, spec.root))
  }

  /** However a fresh start fails inside its transaction, the host is as it was before. */
  ghost predicate AlwaysRestored(spec: Spec, h0: Host, calls: nat, req: Request, sel: Selection)
  {
    forall fate: Fate | StartFresh(fate, spec, h0, calls, req, sel).1 == RolledBack ::
      StartFresh(fate, spec, h0, calls, req, sel).0.host == h0
  }

  lemma {:induction false} DirsStageNothing(fate: Fate, spec: Spec, w: Work, dirs: seq<string>)
    ensures var c := CreateDirs(fate, spec, w, dirs).0.created;
            c.config == w.created.config && c.personas == w.created.personas
    decreases |dirs|
  {
    if dirs != [] {
      if dirs[0] in w.host.dirs {
        DirsStageNothing(fate, spec, w, dirs[1..]);
      } else if fate(w.calls) {
        DirsStageNothing(fate, spec, Work(MakeDir(w.host, spec, dirs[0]),
          w.created.(dirs := w.created.dirs + [dirs[0]]), w.calls + 1), dirs[1..]);
      }
    }
  }

  lemma {:induction false} VolumesStageNothing(fate: Fate, w: Work, volumes: seq<string>)
    ensures CreateVolumes(fate, w, volumes).0.created.personas == w.created.personas
    decreases |volumes|
  {
    if volumes != [] {
      if volumes[0] in w.host.volumes {
        VolumesStageNothing(fate, w, volumes[1..]);
      } else if fate(w.calls) {
        VolumesStageNothing(fate, Work(w.host.(volumes := w.host.volumes + {volumes[0]}),
          w.created.(volumes := w.created.volumes + [volumes[0]]), w.calls + 1), volumes[1..]);
      }
    }
  }

  lemma {:induction false} SidecarsStageNothing(fate: Fate, w: Work, names: seq<string>, box: Box)
    ensures CreateSidecars(fate, w, names, box).0.created.personas == w.created.personas
    decreases |names|
  {
    if names != [] {
      SidecarsStageNothing(fate, CreateSidecar(fate, w, names[0], box).0, names[1..], box);
    }
  }

  /** Personas are staged in persona modes only. */
  lemma PersonasOnlyIfAsked(fate: Fate, spec: Spec, w: Work, req: Request, sel: Selection)
    requires w.created == NOTHING && !sel.persona
    ensures !Build(fate, spec, w, req, sel).0.created.personas
  {
    DirsStageNothing(fate, spec, w, spec.dirs);
    var w1 := CreateDirs(fate, spec, w, spec.dirs).0;
    var w2 := StageConfig(fate, spec, w1, req.config).0;
    var w4 := CreateNetwork(fate, spec, w2).0;
    VolumesStageNothing(fate, w4, spec.volumes);
    var w5 := CreateVolumes(fate, w4, spec.volumes).0;
    var box := Box(true, Some(sel.mode), req.world);
    var w6 := CreateContainer(fate, spec, w5, box).0;
    SidecarsStageNothing(fate, Asked(Asked(w6)), spec.sidecars, box);
    hide CreateDirs, CreateVolumes, CreateSidecars;
  }

  /** The exact condition, for every host and before the call: a fresh start is all or nothing,
      wherever it is cut off, if and only if there is room to stage. */
  lemma FreshRestoredIff(spec: Spec, h0: Host, calls: nat, req: Request, sel: Selection)
    requires SpecOk(spec) && HostOk(h0, spec) && !Nameless(req, sel)
    ensures AlwaysRestored(spec, h0, calls, req, sel) <==> RoomToStage(h0, spec, sel)
  {
    hide StartFresh, SpecOk, HostOk, EmptyDir;
    if RoomToStage(h0, spec, sel) {
      forall fate: Fate | StartFresh(fate, spec, h0, calls, req, sel).1 == RolledBack
        ensures StartFresh(fate, spec, h0, calls, req, sel).0.host == h0
      {
        FreshAllOrNothing(fate, spec, h0, calls, req, sel);
        StagedIfPersona(fate, spec, h0, calls, req, sel);
      }
    } else if spec.configFile in h0.files {
      NotRestored(spec, h0, calls, req, sel, StagingCall(spec, h0, calls) + 1) by {
        CutAfterStaging(spec, h0, calls, req, sel, false);
      }
    } else if sel.persona && spec.personaFile in h0.files {
      NotRestored(spec, h0, calls, req, sel, StagingCall(spec, h0, calls) + 2) by {
        CutAfterStaging(spec, h0, calls, req, sel, true);
      }
    } else {
      NotRestored(spec, h0, calls, req, sel, calls + 1) by {
        CutBeforeAll(spec, h0, calls, req, sel);
      }
    }
  }

  lemma StagedIfPersona(fate: Fate, spec: Spec, h0: Host, calls: nat, req: Request, sel: Selection)
    ensures !sel.persona ==> !StartFresh(fate, spec, h0, calls, req, sel).0.created.personas
  {
    if !sel.persona {
      PersonasOnlyIfAsked(fate, spec, Work(h0, NOTHING, calls + 1), req, sel);
    }
    hide Build, Rollback;
  }

  /** A cut after which something of the host's own is in the way. */
  lemma NotRestored(spec: Spec, h0: Host, calls: nat, req: Request, sel: Selection, n: nat)
    requires SpecOk(spec) && HostOk(h0, spec)
    requires var (w, out) := StartFresh(Until(n), spec, h0, calls, req, sel);
             out == RolledBack && !NothingInTheWay(h0, spec, w.created)
    ensures StartFresh(Until(n), spec, h0, calls, req, sel).0.host != h0
    ensures !AlwaysRestored(spec, h0, calls, req, sel)
  {
    FreshAllOrNothing(Until(n), spec, h0, calls, req, sel);
    hide StartFresh, NothingInTheWay;
  }

  // ---- Hosts that are not restored ----------------------------------------------------------------

  const SPEC: Spec := SpecFor("/srv", "test", "7")

  const SOLO := Selection("solo_self", false)

  const ASKED := Request(Some(SOLO), None, "new", "")

  /** An instance was removed by hand and its configuration left behind. */
  const LEFTOVER := Host(map[], {}, {}, {SPEC.root, SPEC.configDir}, map[SPEC.configFile := "old"])

  /** Only the empty root directory is there. */
  const BARE := Host(map[], {}, {}, {SPEC.root}, map[])

  /** The container runs without its sidecars, and its root directory is empty. */
  const STRIPPED :=
    Host(map[SPEC.container := Box(true, Some("solo_self"), None)], {}, {}, {SPEC.root}, map[])

  lemma RootHostOk(h: Host, spec: Spec)
    requires SpecOk(spec) && h.dirs == {spec.root} && h.files == map[]
    ensures HostOk(h, spec) && EmptyDir(h, spec.root)
  {
    RootNotUnderRoot(spec);
    forall d | d in spec.dirs ensures !Under(d, spec.root) {
      NotUnderItself(spec, d);
    }
    hide Under;
  }

  /** A file lies under one of the directories side by side, and no other. */
  lemma UnderOne(spec: Spec, d: string, file: string)
    requires SpecOk(spec) && d in spec.dirs && Under(d, file) && Under(spec.configDir, file)
    ensures d == spec.configDir
  {
    var c := spec.configDir;
    if |d| < |c| {
      assert c[..|d|] == file[..|c|][..|d|] == d && c[|d|] == file[..|c|][|d|];
      assert Under(d, c);
    } else if |c| < |d| {
      assert d[..|c|] == file[..|d|][..|c|] == c && d[|c|] == file[..|d|][|c|];
      assert Under(c, d);
    }
  }

  lemma LeftoverOk(spec: Spec, h: Host)
    requires SpecOk(spec) && h.dirs == {spec.root, spec.configDir} && h.files.Keys == {spec.configFile}
    ensures HostOk(h, spec)
  {
    forall d, x | d in spec.dirs && Under(d, x) && (x in h.dirs || x in h.files) ensures d in h.dirs {
      NotUnderItself(spec, d);
      if x == spec.configFile { UnderOne(spec, d, x); }
    }
    hide Under;
  }

  /** A start that fails deletes the configuration somebody had left. */
  lemma LeftoverLost()
    ensures SpecOk(SPEC) && HostOk(LEFTOVER, SPEC)
    ensures exists fate: Fate ::
              var (w, out) := StartFresh(fate, SPEC, LEFTOVER, 0, ASKED, SOLO);
              out == RolledBack && SPEC.configFile in LEFTOVER.files && SPEC.configFile !in w.host.files
  {
    SpecForOk("/srv", "test", "7");
    LeftoverOk(SPEC, LEFTOVER);
    var n := StagingCall(SPEC, LEFTOVER, 0) + 1;
    CutAfterStaging(SPEC, LEFTOVER, 0, ASKED, SOLO, false);
    FreshAllOrNothing(Until(n), SPEC, LEFTOVER, 0, ASKED, SOLO);
    hide StartFresh, SpecOk, HostOk, SpecFor;
    var (w, out) := StartFresh(Until(n), SPEC, LEFTOVER, 0, ASKED, SOLO);
    assert out == RolledBack && SPEC.configFile !in w.host.files;
  }

  /** A start that fails at its first call removes a root directory it did not make. */
  lemma BareRootLost()
    ensures SpecOk(SPEC) && HostOk(BARE, SPEC)
    ensures exists fate: Fate ::
              var (w, out) := StartFresh(fate, SPEC, BARE, 0, ASKED, SOLO);
              out == RolledBack && SPEC.root in BARE.dirs && w.host != BARE
  {
    SpecForOk("/srv", "test", "7");
    RootHostOk(BARE, SPEC);
    CutBeforeAll(SPEC, BARE, 0, ASKED, SOLO);
    hide StartFresh, SpecOk, HostOk, SpecFor, EmptyDir;
    NotRestored(SPEC, BARE, 0, ASKED, SOLO, 1);
    var (w, out) := StartFresh(Until(1), SPEC, BARE, 0, ASKED, SOLO);
    assert out == RolledBack && w.host != BARE;
  }

  /** So does the repair of a running container's sidecars when it fails. */
  lemma StrippedRootLost()
    ensures SpecOk(SPEC) && HostOk(STRIPPED, SPEC) && SPEC.container in STRIPPED.boxes
    ensures exists fate: Fate ::
              var (w, out) := StartExisting(fate, SPEC, STRIPPED, 0, ASKED, SOLO);
              out == RolledBack && SPEC.root in STRIPPED.dirs && w.host.dirs != STRIPPED.dirs
  {
    SpecForOk("/srv", "test", "7");
    RootHostOk(STRIPPED, SPEC);
    ExistingAllOrNothing(Until(1), SPEC, STRIPPED, 0, ASKED, SOLO);
    RepairRefused(SPEC, STRIPPED);
    hide StartExisting, SpecOk, HostOk, SpecFor, EmptyDir;
    var (w, out) := StartExisting(Until(1), SPEC, STRIPPED, 0, ASKED, SOLO);
    assert out == RolledBack && w.host.dirs != STRIPPED.dirs;
  }

  lemma RepairRefused(spec: Spec, h: Host)
    requires SpecOk(spec) && spec.sidecars != []
    requires h.boxes == map[spec.container := Box(true, Some("solo_self"), None)]
    ensures StartExisting(Until(1), spec, h, 0, ASKED, SOLO).1 == RolledBack
  {
    var box := h.boxes[spec.container];
    var w := Asked(Work(h, NOTHING, 0));
    assert spec.sidecars[0] in spec.sidecars && spec.sidecars[0] !in h.boxes;
    assert CreateSidecar(Until(1), w, spec.sidecars[0], Rebuilt(box)) == (Asked(w), false);
    assert EnsureSidecars(Until(1), w, spec.sidecars, box) == (Asked(w), false);
    hide Rollback, SpecOk;
  }
}
