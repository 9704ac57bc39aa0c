/** All or nothing, exactly as far as it goes. */
module ProvisionerPromises {
  import opened Naming
  import opened ProvisionerModel

  // ---- Well-formed names and hosts ---------------------------------------------------------

  /** The instance's names do not collide, its directories lie side by side below the root,
      its staged files in the configuration directory. */
  predicate SpecOk(spec: Spec)
  {
    && spec.container !in spec.sidecars
    && (forall i, j | 0 <= i < j < |spec.sidecars| :: spec.sidecars[i] != spec.sidecars[j])
    && (forall i, j | 0 <= i < j < |spec.dirs| :: spec.dirs[i] != spec.dirs[j])
    && (forall d | d in spec.dirs :: Under(spec.root, d))
    && (forall d, e | d in spec.dirs && e in spec.dirs :: !Under(d, e))
    && spec.configDir in spec.dirs
    && Under(spec.configDir, spec.configFile) && Under(spec.configDir, spec.personaFile)
    && spec.configFile != spec.personaFile
  }

  /** What lies in a directory lies in an existing one. */
  ghost predicate HostOk(h: Host, spec: Spec)
  {
    && (forall d, x | d in spec.dirs && Under(d, x) && (x in h.dirs || x in h.files) :: d in h.dirs)
    && (forall x | Under(spec.root, x) && (x in h.dirs || x in h.files) :: spec.root in h.dirs)
  }

  // ---- What has been made --------------------------------------------------------------------

  ghost predicate SameOrAwake(before: map<string, Box>, after: map<string, Box>)
  {
    forall n | n in before :: n in after && (after[n] == before[n] || after[n] == before[n].(running := true))
  }

  ghost predicate BoxesMade(h0: Host, spec: Spec, h: Host, c: Created)
  {
    && SameOrAwake(h0.boxes, h.boxes)
    && (forall n | n in h.boxes :: n in h0.boxes || n in c.sidecars || (c.container && n == spec.container))
    && (forall n | n in c.sidecars :: n !in h0.boxes)
    && (c.container ==> spec.container !in h0.boxes)
  }

  ghost predicate NetsMade(h0: Host, spec: Spec, h: Host, c: Created)
  {
    && h.networks == (if c.network then h0.networks + {spec.network} else h0.networks)
    && (c.network ==> spec.network !in h0.networks)
    && h.volumes == h0.volumes + (set v | v in c.volumes)
    && (forall v | v in c.volumes :: v !in h0.volumes)
  }

  ghost predicate DirsMade(h0: Host, spec: Spec, h: Host, c: Created)
  {
    && (forall d | d in c.dirs :: d in spec.dirs && d !in h0.dirs)
    && (forall d :: d in h.dirs <==> d in h0.dirs || d in c.dirs || (c.dirs != [] && d == spec.root))
  }

  function StagedFiles(spec: Spec, c: Created): set<string>
  {
    (if c.config then {spec.configFile} else {}) + (if c.personas then {spec.personaFile} else {})
  }

  ghost predicate FilesMade(h0: Host, spec: Spec, h: Host, c: Created)
  {
    && (forall f :: f in h.files <==> f in h0.files || f in StagedFiles(spec, c))
    && (forall f | f in h.files && f !in StagedFiles(spec, c) :: h.files[f] == h0.files[f])
  }

  ghost predicate Made(h0: Host, spec: Spec, w: Work)
  {
    && BoxesMade(h0, spec, w.host, w.created) && NetsMade(h0, spec, w.host, w.created)
    && DirsMade(h0, spec, w.host, w.created) && FilesMade(h0, spec, w.host, w.created)
  }

  // ---- Each step records what it makes ----------------------------------------------------------

  lemma {:induction false} CreateDirsMade(fate: Fate, h0: Host, spec: Spec, w: Work, dirs: seq<string>)
    requires Made(h0, spec, w) && forall d | d in dirs :: d in spec.dirs
    ensures Made(h0, spec, CreateDirs(fate, spec, w, dirs).0)
    ensures CreateDirs(fate, spec, w, dirs).1 ==>
              forall d | d in dirs :: d in CreateDirs(fate, spec, w, dirs).0.host.dirs
    decreases |dirs|
  {
    if dirs != [] {
      assert forall d :: d in dirs <==> d == dirs[0] || d in dirs[1..];
      if dirs[0] in w.host.dirs {
        CreateDirsMade(fate, h0, spec, w, dirs[1..]);
        DirsStay(fate, spec, w, dirs[1..], dirs[0]);
      } else if fate(w.calls) {
        var w' := Work(MakeDir(w.host, spec, dirs[0]), w.created.(dirs := w.created.dirs + [dirs[0]]),
                       w.calls + 1);
        CreateDirsMade(fate, h0, spec, w', dirs[1..]);
        DirsStay(fate, spec, w', dirs[1..], dirs[0]);
      }
    }
  }

  lemma {:induction false} DirsStay(fate: Fate, spec: Spec, w: Work, dirs: seq<string>, d: string)
    requires d in w.host.dirs
    ensures d in CreateDirs(fate, spec, w, dirs).0.host.dirs
    decreases |dirs|
  {
    if dirs != [] {
      if dirs[0] in w.host.dirs {
        DirsStay(fate, spec, w, dirs[1..], d);
      } else if fate(w.calls) {
        DirsStay(fate, spec, Work(MakeDir(w.host, spec, dirs[0]),
                                  w.created.(dirs := w.created.dirs + [dirs[0]]), w.calls + 1), dirs[1..], d);
      }
    }
  }

  lemma StageMade(fate: Fate, h0: Host, spec: Spec, w: Work, text: string)
    requires Made(h0, spec, w)
    ensures Made(h0, spec, StageConfig(fate, spec, w, text).0)
    ensures Made(h0, spec, StagePersonas(fate, spec, w, text).0)
  {
  }

  lemma NetworkMade(fate: Fate, h0: Host, spec: Spec, w: Work)
    requires Made(h0, spec, w)
    ensures Made(h0, spec, CreateNetwork(fate, spec, w).0)
  {
  }

  lemma {:induction false} VolumesMade(fate: Fate, h0: Host, spec: Spec, w: Work, volumes: seq<string>)
    requires Made(h0, spec, w)
    ensures Made(h0, spec, CreateVolumes(fate, w, volumes).0)
    decreases |volumes|
  {
    if volumes != [] {
      if volumes[0] in w.host.volumes {
        VolumesMade(fate, h0, spec, w, volumes[1..]);
      } else if fate(w.calls) {
        var c := w.created.(volumes := w.created.volumes + [volumes[0]]);
        var h := w.host.(volumes := w.host.volumes + {volumes[0]});
        assert (set v | v in c.volumes) == (set v | v in w.created.volumes) + {volumes[0]};
        assert NetsMade(h0, spec, h, c);
        VolumesMade(fate, h0, spec, Work(h, c, w.calls + 1), volumes[1..]);
      }
    }
  }

  lemma ContainerMade(fate: Fate, h0: Host, spec: Spec, w: Work, box: Box)
    requires Made(h0, spec, w)
    ensures Made(h0, spec, CreateContainer(fate, spec, w, box).0)
  {
  }

  lemma SidecarMade(fate: Fate, h0: Host, spec: Spec, w: Work, name: string, box: Box)
    requires Made(h0, spec, w)
    ensures Made(h0, spec, CreateSidecar(fate, w, name, box).0)
  {
  }

  lemma {:induction false} SidecarsMade(fate: Fate, h0: Host, spec: Spec, w: Work, names: seq<string>,
                                        box: Box)
    requires Made(h0, spec, w)
    ensures Made(h0, spec, CreateSidecars(fate, w, names, box).0)
    decreases |names|
  {
    hide Made, CreateSidecar;
    if names != [] {
      SidecarMade(fate, h0, spec, w, names[0], box);
      SidecarsMade(fate, h0, spec, CreateSidecar(fate, w, names[0], box).0, names[1..], box);
    }
  }

  lemma WakeMade(fate: Fate, h0: Host, spec: Spec, w: Work, name: string)
    requires Made(h0, spec, w) && name in w.host.boxes
    ensures Made(h0, spec, Wake(fate, w, name).0)
  {
  }

  lemma {:induction false} EnsureMade(fate: Fate, h0: Host, spec: Spec, w: Work, names: seq<string>,
                                      like: Box)
    requires Made(h0, spec, w)
    ensures Made(h0, spec, EnsureSidecars(fate, w, names, like).0)
    decreases |names|
  {
    hide Made, CreateSidecar, Wake;
    if names != [] {
      var name := names[0];
      if name in w.host.boxes {
        WakeMade(fate, h0, spec, w, name);
        EnsureMade(fate, h0, spec, Wake(fate, w, name).0, names[1..], like);
      } else if like.mode.None? {
        EnsureMade(fate, h0, spec, w, names[1..], like);
      } else {
        SidecarMade(fate, h0, spec, w, name, Rebuilt(like));
        EnsureMade(fate, h0, spec, CreateSidecar(fate, w, name, Rebuilt(like)).0, names[1..], like);
      }
    }
  }

  lemma AskedMade(h0: Host, spec: Spec, w: Work)
    requires Made(h0, spec, w)
    ensures Made(h0, spec, Asked(w))
  {
  }

  lemma LaunchMade(fate: Fate, h0: Host, spec: Spec, w: Work, box: Box)
    requires Made(h0, spec, w)
    ensures Made(h0, spec, Launch(fate, spec, w, box).0)
  {
    hide Made, CreateContainer, CreateSidecars;
    ContainerMade(fate, h0, spec, w, box);
    var w1 := CreateContainer(fate, spec, w, box).0;
    AskedMade(h0, spec, w1);
    AskedMade(h0, spec, Asked(w1));
    SidecarsMade(fate, h0, spec, Asked(Asked(w1)), spec.sidecars, box);
  }

  lemma BuildMade(fate: Fate, h0: Host, spec: Spec, w: Work, req: Request, sel: Selection)
    requires Made(h0, spec, w)
    ensures Made(h0, spec, Build(fate, spec, w, req, sel).0)
  {
    hide Made, CreateDirs, StageConfig, StagePersonas, CreateNetwork, CreateVolumes, Launch;
    CreateDirsMade(fate, h0, spec, w, spec.dirs);
    var w1 := CreateDirs(fate, spec, w, spec.dirs).0;
    StageMade(fate, h0, spec, w1, req.config);
    var w2 := StageConfig(fate, spec, w1, req.config).0;
    StageMade(fate, h0, spec, w2, req.personas);
    var w3 := if sel.persona then StagePersonas(fate, spec, w2, req.personas).0 else w2;
    NetworkMade(fate, h0, spec, w3);
    var w4 := CreateNetwork(fate, spec, w3).0;
    VolumesMade(fate, h0, spec, w4, spec.volumes);
    var w5 := CreateVolumes(fate, w4, spec.volumes).0;
    LaunchMade(fate, h0, spec, w5, Box(true, Some(sel.mode), req.world));
  }

  // ---- Rollback ------------------------------------------------------------------------------------

  /** A path spared by the first directory and by the rest. */
  lemma Spared(dirs: seq<string>, x: string)
    requires dirs != []
    ensures (forall d | d in dirs :: x != d && !Under(d, x))
            <==> x != dirs[0] && !Under(dirs[0], x) && forall d | d in dirs[1..] :: x != d && !Under(d, x)
    ensures (forall d | d in dirs :: !Under(d, x))
            <==> !Under(dirs[0], x) && forall d | d in dirs[1..] :: !Under(d, x)
  {
    hide Under;
    assert dirs[0] in dirs && forall d :: d in dirs <==> d == dirs[0] || d in dirs[1..];
    if forall d | d in dirs :: x != d && !Under(d, x) {
      assert x != dirs[0] && !Under(dirs[0], x);
      forall d | d in dirs[1..] ensures x != d && !Under(d, x) {
        assert d in dirs;
      }
    }
  }

  lemma {:induction false} RemoveTreesGives(h: Host, dirs: seq<string>)
    ensures var h' := RemoveTrees(h, dirs);
            && h'.boxes == h.boxes && h'.networks == h.networks && h'.volumes == h.volumes
            && (forall x :: x in h'.dirs <==> x in h.dirs && forall d | d in dirs :: x != d && !Under(d, x))
            && (forall f :: f in h'.files <==> f in h.files && forall d | d in dirs :: !Under(d, f))
            && (forall f | f in h'.files :: h'.files[f] == h.files[f])
    decreases |dirs|
  {
    hide Under;
    if dirs != [] {
      var mid := RemoveTree(h, dirs[0]);
      RemoveTreesGives(mid, dirs[1..]);
      var h' := RemoveTrees(h, dirs);
      forall x ensures x in h'.dirs <==> x in h.dirs && forall d | d in dirs :: x != d && !Under(d, x) {
        Spared(dirs, x);
      }
      forall f ensures f in h'.files <==> f in h.files && forall d | d in dirs :: !Under(d, f) {
        Spared(dirs, f);
      }
    }
  }

  /** What a rolled-back start leaves of a host: its containers (perhaps woken), networks and
      volumes; its files but for those staged; its directories but for an empty root. */
  function Rolled(h0: Host, spec: Spec, w: Work): Host
  {
    RemoveRootIfEmpty(Host(map n | n in h0.boxes && n in w.host.boxes :: w.host.boxes[n], h0.networks,
                           h0.volumes, h0.dirs, h0.files - StagedFiles(spec, w.created)), spec)
  }

  lemma BoxesBack(h0: Host, spec: Spec, w: Work)
    requires BoxesMade(h0, spec, w.host, w.created)
    ensures Rollback(w.host, spec, w.created).boxes
         == (map n | n in h0.boxes && n in w.host.boxes :: w.host.boxes[n])
  {
    var c := w.created;
    var h1 := if c.container then RemoveBoxes(w.host, [spec.container]) else w.host;
    var h2 := RemoveBoxes(h1, c.sidecars);
    RollbackParts(w.host, spec, c);
    forall n ensures n in h2.boxes <==> n in h0.boxes && n in w.host.boxes {
    }
    assert forall n | n in h2.boxes :: h2.boxes[n] == w.host.boxes[n];
  }

  /** Rollback field by field, before the root is looked at. */
  lemma RollbackParts(h: Host, spec: Spec, c: Created)
    ensures var r := Rollback(h, spec, c);
            var h1 := if c.container then RemoveBoxes(h, [spec.container]) else h;
            var mid := Host(RemoveBoxes(h1, c.sidecars).boxes,
                            if c.network then h.networks - {spec.network} else h.networks,
                            h.volumes - (set v | v in c.volumes), h.dirs,
                            h.files - StagedFiles(spec, c));
            r == RemoveRootIfEmpty(RemoveTrees(mid, c.dirs), spec)
            && r.boxes == mid.boxes && r.networks == mid.networks && r.volumes == mid.volumes
  {
    var h1 := if c.container then RemoveBoxes(h, [spec.container]) else h;
    var h2 := RemoveBoxes(h1, c.sidecars);
    var h3 := h2.(volumes := h2.volumes - (set v | v in c.volumes));
    var h4 := if c.config then h3.(files := h3.files - {spec.configFile}) else h3;
    var h5 := if c.personas then h4.(files := h4.files - {spec.personaFile}) else h4;
    var h6 := if c.network then h5.(networks := h5.networks - {spec.network}) else h5;
    assert h6.files == h.files - StagedFiles(spec, c);
    RemoveTreesGives(h6, c.dirs);
  }

  lemma NotUnderItself(spec: Spec, d: string)
    requires SpecOk(spec) && d in spec.dirs
    ensures !Under(d, spec.root) && d != spec.root
  {
    assert Under(spec.root, d);
  }

  lemma DirsBack(h0: Host, spec: Spec, w: Work, mid: Host)
    requires SpecOk(spec) && HostOk(h0, spec) && DirsMade(h0, spec, w.host, w.created)
    requires FilesMade(h0, spec, w.host, w.created)
    requires mid.dirs == w.host.dirs && mid.files == w.host.files - StagedFiles(spec, w.created)
    ensures var t := RemoveTrees(mid, w.created.dirs);
            && (forall x :: x in t.dirs <==> x in h0.dirs || (w.created.dirs != [] && x == spec.root))
            && t.files == h0.files - StagedFiles(spec, w.created)
  {
    var ds := w.created.dirs;
    RemoveTreesGives(mid, ds);
    var t := RemoveTrees(mid, ds);
    var staged := StagedFiles(spec, w.created);
    forall d | d in ds ensures d in spec.dirs && d !in h0.dirs && !Under(d, spec.root) && d != spec.root {
      NotUnderItself(spec, d);
    }
    hide Under, RemoveTrees, StagedFiles;
    forall x ensures x in t.dirs <==> x in h0.dirs || (ds != [] && x == spec.root) {
    }
    forall f ensures f in t.files <==> f in h0.files && f !in staged {
    }
    assert t.files.Keys == (h0.files - staged).Keys;
  }

  lemma NetsBack(h0: Host, spec: Spec, w: Work)
    requires NetsMade(h0, spec, w.host, w.created)
    ensures (if w.created.network then w.host.networks - {spec.network} else w.host.networks) == h0.networks
    ensures w.host.volumes - (set v | v in w.created.volumes) == h0.volumes
  {
  }

  /** The exact effect of a rollback, whatever point the start had reached. */
  lemma RollbackExact(h0: Host, spec: Spec, w: Work)
    requires SpecOk(spec) && HostOk(h0, spec) && Made(h0, spec, w)
    ensures Rollback(w.host, spec, w.created) == Rolled(h0, spec, w)
  {
    hide Rollback, RemoveTrees, RemoveBoxes, EmptyDir, HostOk, SpecOk, StagedFiles, BoxesMade, NetsMade,
         DirsMade, FilesMade, RemoveRootIfEmpty;
    var c := w.created;
    RollbackParts(w.host, spec, c);
    BoxesBack(h0, spec, w);
    NetsBack(h0, spec, w);
    var h1 := if c.container then RemoveBoxes(w.host, [spec.container]) else w.host;
    var mid := Host(RemoveBoxes(h1, c.sidecars).boxes, h0.networks, h0.volumes, w.host.dirs,
                    w.host.files - StagedFiles(spec, c));
    DirsBack(h0, spec, w, mid);
    var base := Host(map n | n in h0.boxes && n in w.host.boxes :: w.host.boxes[n], h0.networks,
                     h0.volumes, h0.dirs, h0.files - StagedFiles(spec, c));
    RootBack(h0, spec, w, RemoveTrees(mid, c.dirs), base);
    RootKeepsRest(RemoveTrees(mid, c.dirs), spec);
    RootKeepsRest(base, spec);
  }

  lemma RootKeepsRest(h: Host, spec: Spec)
    ensures var r := RemoveRootIfEmpty(h, spec);
            r.boxes == h.boxes && r.networks == h.networks && r.volumes == h.volumes && r.files == h.files
  {
  }

  lemma RootBack(h0: Host, spec: Spec, w: Work, t: Host, base: Host)
    requires SpecOk(spec) && HostOk(h0, spec) && DirsMade(h0, spec, w.host, w.created)
    requires forall x :: x in t.dirs <==> x in h0.dirs || (w.created.dirs != [] && x == spec.root)
    requires t.files == base.files == h0.files - StagedFiles(spec, w.created) && base.dirs == h0.dirs
    ensures RemoveRootIfEmpty(t, spec).dirs == RemoveRootIfEmpty(base, spec).dirs
  {
    RootNotUnderRoot(spec);
    if spec.root in h0.dirs {
      assert t.dirs == h0.dirs;
    } else {
      assert forall x | x in h0.dirs || x in h0.files :: !Under(spec.root, x);
      assert EmptyDir(t, spec.root);
    }
  }

  lemma RootNotUnderRoot(spec: Spec)
    ensures !Under(spec.root, spec.root)
  {
  }

  // ---- All or nothing --------------------------------------------------------------------------------

  /** Nothing of the host's own stands where a rollback would take it away: no staged file
      of an earlier life, and no root directory left empty. */
  predicate NothingInTheWay(h0: Host, spec: Spec, c: Created)
  {
    && (forall f | f in StagedFiles(spec, c) :: f !in h0.files)
    && !(spec.root in h0.dirs && EmptyDir(h0, spec.root))
  }

  lemma Begin(h0: Host, spec: Spec, calls: nat)
    ensures Made(h0, spec, Work(h0, NOTHING, calls))
  {
  }

  /** No boxes that existed were touched on the fresh path. */
  lemma FreshBoxes(fate: Fate, h0: Host, spec: Spec, calls: nat, req: Request, sel: Selection, n: string)
    requires n in h0.boxes
    ensures var w := Build(fate, spec, Work(h0, NOTHING, calls), req, sel).0;
            n in w.host.boxes && w.host.boxes[n] == h0.boxes[n]
  {
    hide CreateSidecars, CreateDirs, CreateVolumes;
    var w0 := Work(h0, NOTHING, calls);
    DirsKeepBoxes(fate, spec, w0, spec.dirs);
    var w1 := CreateDirs(fate, spec, w0, spec.dirs).0;
    var w2 := StageConfig(fate, spec, w1, req.config).0;
    var w3 := if sel.persona then StagePersonas(fate, spec, w2, req.personas).0 else w2;
    var w4 := CreateNetwork(fate, spec, w3).0;
    VolumesKeepBoxes(fate, w4, spec.volumes);
    var w5 := CreateVolumes(fate, w4, spec.volumes).0;
    var box := Box(true, Some(sel.mode), req.world);
    var w6 := CreateContainer(fate, spec, w5, box).0;
    SidecarsKeepBoxes(fate, Asked(Asked(w6)), spec.sidecars, box, n);
  }

  lemma {:induction false} DirsKeepBoxes(fate: Fate, spec: Spec, w: Work, dirs: seq<string>)
    ensures CreateDirs(fate, spec, w, dirs).0.host.boxes == w.host.boxes
    decreases |dirs|
  {
    if dirs != [] {
      if dirs[0] in w.host.dirs {
        DirsKeepBoxes(fate, spec, w, dirs[1..]);
      } else if fate(w.calls) {
        DirsKeepBoxes(fate, spec, Work(MakeDir(w.host, spec, dirs[0]),
          w.created.(dirs := w.created.dirs + [dirs[0]]), w.calls + 1), dirs[1..]);
      }
    }
  }

  lemma {:induction false} VolumesKeepBoxes(fate: Fate, w: Work, volumes: seq<string>)
    ensures CreateVolumes(fate, w, volumes).0.host.boxes == w.host.boxes
    decreases |volumes|
  {
    if volumes != [] {
      if volumes[0] in w.host.volumes {
        VolumesKeepBoxes(fate, w, volumes[1..]);
      } else if fate(w.calls) {
        VolumesKeepBoxes(fate, Work(w.host.(volumes := w.host.volumes + {volumes[0]}),
          w.created.(volumes := w.created.volumes + [volumes[0]]), w.calls + 1), volumes[1..]);
      }
    }
  }

  lemma {:induction false} SidecarsKeepBoxes(fate: Fate, w: Work, names: seq<string>, box: Box, n: string)
    requires n in w.host.boxes
    ensures var w' := CreateSidecars(fate, w, names, box).0;
            n in w'.host.boxes && w'.host.boxes[n] == w.host.boxes[n]
    decreases |names|
  {
    if names != [] {
      SidecarsKeepBoxes(fate, CreateSidecar(fate, w, names[0], box).0, names[1..], box, n);
    }
  }

  /** A start that fails before its status report, on the fresh path and at any point, leaves
      the host exactly as it was if and only if nothing of the host's own stood in the way
      of the rollback. A refused start touches nothing. */
  lemma FreshAllOrNothing(fate: Fate, spec: Spec, h0: Host, calls: nat, req: Request, sel: Selection)
    requires SpecOk(spec) && HostOk(h0, spec)
    ensures var (w, out) := StartFresh(fate, spec, h0, calls, req, sel);
            && (out == Refused ==> w.host == h0)
            && (out == RolledBack ==>
                  && w.host.boxes == h0.boxes && w.host.networks == h0.networks
                  && w.host.volumes == h0.volumes
                  && w.host.files == h0.files - StagedFiles(spec, w.created)
                  && (w.host == h0 <==> NothingInTheWay(h0, spec, w.created)))
  {
    hide Build, Made, Rollback, Rolled;
    Begin(h0, spec, calls + 1);
    var w0 := Work(h0, NOTHING, calls + 1);
    BuildMade(fate, h0, spec, w0, req, sel);
    var (w, ok) := Build(fate, spec, w0, req, sel);
    RollbackExact(h0, spec, w);
    forall n | n in h0.boxes ensures n in w.host.boxes && w.host.boxes[n] == h0.boxes[n] {
      FreshBoxes(fate, h0, spec, calls + 1, req, sel, n);
    }
    RolledIs(h0, spec, w);
  }

  lemma RolledIs(h0: Host, spec: Spec, w: Work)
    requires forall n | n in h0.boxes :: n in w.host.boxes && w.host.boxes[n] == h0.boxes[n]
    ensures var r := Rolled(h0, spec, w);
            && r.boxes == h0.boxes && r.networks == h0.networks && r.volumes == h0.volumes
            && r.files == h0.files - StagedFiles(spec, w.created)
            && (r == h0 <==> NothingInTheWay(h0, spec, w.created))
  {
    var staged := StagedFiles(spec, w.created);
    assert (map n | n in h0.boxes && n in w.host.boxes :: w.host.boxes[n]) == h0.boxes;
    if forall f | f in staged :: f !in h0.files {
      assert h0.files - staged == h0.files;
    } else {
      var f :| f in staged && f in h0.files;
      assert f !in (h0.files - staged);
    }
  }

  /** On the existing path the containers, networks, volumes, directories and files that
      were there are there again; containers that were down may have been woken. */
  lemma ExistingAllOrNothing(fate: Fate, spec: Spec, h0: Host, calls: nat, req: Request, sel: Selection)
    requires SpecOk(spec) && HostOk(h0, spec) && spec.container in h0.boxes
    ensures var (w, out) := StartExisting(fate, spec, h0, calls, req, sel);
            && (out == RolledBack || out == Refused ==>
                  && w.host.boxes.Keys == h0.boxes.Keys && SameOrAwake(h0.boxes, w.host.boxes)
                  && w.host.networks == h0.networks && w.host.volumes == h0.volumes
                  && w.host.files == h0.files
                  && (w.host.dirs == h0.dirs
                      <==> out == Refused || !(spec.root in h0.dirs && EmptyDir(h0, spec.root))))
            && SameOrAwake(h0.boxes, w.host.boxes)
  {
    hide Made, Rollback, Rolled, EnsureSidecars;
    Begin(h0, spec, calls);
    var w0 := Work(h0, NOTHING, calls);
    var box := h0.boxes[spec.container];
    WakeMade(fate, h0, spec, w0, spec.container);
    var w1 := Wake(fate, w0, spec.container).0;
    AskedMade(h0, spec, w1);
    var w2 := Asked(w1);
    EnsureMade(fate, h0, spec, w2, spec.sidecars, box);
    EnsureOnlySidecars(fate, w2, spec.sidecars, box);
    var (w3, ok) := EnsureSidecars(fate, w2, spec.sidecars, box);
    RollbackExact(h0, spec, w3);
    MadeBoxes(h0, spec, w3);
    RolledWoken(h0, spec, w3);
    MadeBoxes(h0, spec, w1);
  }

  lemma MadeBoxes(h0: Host, spec: Spec, w: Work)
    requires Made(h0, spec, w)
    ensures SameOrAwake(h0.boxes, w.host.boxes)
  {
  }

  lemma {:induction false} EnsureOnlySidecars(fate: Fate, w: Work, names: seq<string>, like: Box)
    ensures var c := EnsureSidecars(fate, w, names, like).0.created;
            c == w.created.(sidecars := c.sidecars)
    decreases |names|
  {
    if names != [] {
      var name := names[0];
      if name in w.host.boxes {
        EnsureOnlySidecars(fate, Wake(fate, w, name).0, names[1..], like);
      } else if like.mode.None? {
        EnsureOnlySidecars(fate, w, names[1..], like);
      } else {
        EnsureOnlySidecars(fate, CreateSidecar(fate, w, name, Rebuilt(like)).0, names[1..], like);
      }
    }
  }

  lemma RolledWoken(h0: Host, spec: Spec, w: Work)
    requires SameOrAwake(h0.boxes, w.host.boxes) && !w.created.config && !w.created.personas
    ensures var r := Rolled(h0, spec, w);
            && r.boxes.Keys == h0.boxes.Keys && SameOrAwake(h0.boxes, r.boxes)
            && r.networks == h0.networks && r.volumes == h0.volumes && r.files == h0.files
            && (r.dirs == h0.dirs <==> !(spec.root in h0.dirs && EmptyDir(h0, spec.root)))
  {
    assert h0.files - {} == h0.files;
    assert StagedFiles(spec, w.created) == {};
  }

  // ---- Success ----------------------------------------------------------------------------------------

  /** The whole stack is up, in the mode and world asked for. */
  predicate Complete(h: Host, spec: Spec, sel: Selection, world: Option<string>)
  {
    && spec.container in h.boxes && h.boxes[spec.container] == Box(true, Some(sel.mode), world)
    && (forall n | n in spec.sidecars :: n in h.boxes && h.boxes[n].running)
  }

  lemma {:induction false} SidecarsUp(fate: Fate, w: Work, names: seq<string>, box: Box)
    requires box.running && CreateSidecars(fate, w, names, box).1
    ensures var h := CreateSidecars(fate, w, names, box).0.host;
            forall n | n in names :: n in h.boxes && h.boxes[n].running
    decreases |names|
  {
    if names != [] {
      var w' := CreateSidecar(fate, w, names[0], box).0;
      SidecarsUp(fate, w', names[1..], box);
      SidecarsKeepBoxes(fate, w', names[1..], box, names[0]);
      assert forall n :: n in names <==> n == names[0] || n in names[1..];
    }
  }

  lemma LaunchUp(fate: Fate, spec: Spec, w: Work, box: Box)
    requires box.running && Launch(fate, spec, w, box).1
    ensures var h := Launch(fate, spec, w, box).0.host;
            && spec.container in h.boxes && h.boxes[spec.container] == box
            && forall n | n in spec.sidecars :: n in h.boxes && h.boxes[n].running
  {
    hide CreateSidecars;
    var w1 := CreateContainer(fate, spec, w, box).0;
    SidecarsUp(fate, Asked(Asked(w1)), spec.sidecars, box);
    SidecarsKeepBoxes(fate, Asked(Asked(w1)), spec.sidecars, box, spec.container);
  }

  /** A successful fresh start leaves the whole stack running. */
  lemma FreshStartCompletes(fate: Fate, spec: Spec, h0: Host, calls: nat, req: Request, sel: Selection)
    ensures var (w, out) := StartFresh(fate, spec, h0, calls, req, sel);
            out.Started? || out.StatusFailed? ==> Complete(w.host, spec, sel, req.world)
  {
    var w0 := Work(h0, NOTHING, calls + 1);
    var (w, ok) := Build(fate, spec, w0, req, sel);
    hide CreateDirs, StageConfig, StagePersonas, CreateNetwork, CreateVolumes, Launch;
    if ok {
      var w1 := CreateDirs(fate, spec, w0, spec.dirs).0;
      var w2 := StageConfig(fate, spec, w1, req.config).0;
      var w3 := if sel.persona then StagePersonas(fate, spec, w2, req.personas).0 else w2;
      var w4 := CreateNetwork(fate, spec, w3).0;
      var w5 := CreateVolumes(fate, w4, spec.volumes).0;
      LaunchUp(fate, spec, w5, Box(true, Some(sel.mode), req.world));
    }
  }

  lemma {:induction false} EnsureIdle(fate: Fate, w: Work, names: seq<string>, like: Box)
    requires forall n | n in names :: n in w.host.boxes && w.host.boxes[n].running
    ensures EnsureSidecars(fate, w, names, like) == (w, true)
    decreases |names|
  {
    if names != [] {
      assert names[0] in names;
      EnsureIdle(fate, w, names[1..], like);
    }
  }

  /** Starting again in the same mode and world changes nothing, whatever the calls answer. */
  lemma RepeatChangesNothing(fate: Fate, spec: Spec, h: Host, calls: nat, req: Request)
    requires req.selection.Some? && Complete(h, spec, req.selection.value, req.world)
    ensures var (w, out) := Start(fate, spec, h, calls, req);
            w.host == h && w.created == NOTHING && out != RolledBack && out != Started(true)
  {
    EnsureIdle(fate, Asked(Work(h, NOTHING, calls)), spec.sidecars, h.boxes[spec.container]);
    hide EnsureSidecars;
  }

  /** The failure that no rollback covers: with the stack complete, an error while the
      result is being reported leaves everything in place. */
  lemma StatusFailureKeepsEverything(fate: Fate, spec: Spec, h0: Host, calls: nat, req: Request)
    requires req.selection.Some? && spec.container !in h0.boxes
    requires Start(fate, spec, h0, calls, req).1 == StatusFailed
    ensures Complete(Start(fate, spec, h0, calls, req).0.host, spec, req.selection.value, req.world)
  {
    FreshStartCompletes(fate, spec, h0, calls, req, req.selection.value);
  }

  // ---- Stop ---------------------------------------------------------------------------------------------

  /** Stop leaves nothing of the instance and touches nothing else. */
  lemma StopRemovesAll(h: Host, spec: Spec)
    requires SpecOk(spec)
    ensures var h' := Stop(spec, h);
            && spec.container !in h'.boxes && (forall n | n in spec.sidecars :: n !in h'.boxes)
            && spec.network !in h'.networks && (forall v | v in spec.volumes :: v !in h'.volumes)
            && (forall d | d in spec.dirs :: d !in h'.dirs)
            && (forall n | n in h.boxes && n != spec.container && n !in spec.sidecars ::
                  n in h'.boxes && h'.boxes[n] == h.boxes[n])
            && (forall n | n in h'.boxes :: n in h.boxes)
            && (forall d | d in h.dirs && d != spec.root && !Under(spec.root, d) :: d in h'.dirs)
  {
    var h1 := RemoveBoxes(RemoveBoxes(h, [spec.container]), spec.sidecars);
    var h2 := h1.(networks := h1.networks - {spec.network},
                  volumes := h1.volumes - (set v | v in spec.volumes));
    RemoveTreesGives(h2, spec.dirs);
    forall d, x | d in spec.dirs && Under(d, x) ensures Under(spec.root, x) {
      UnderTransitive(spec.root, d, x);
    }
    hide RemoveTrees, Under;
  }

  lemma UnderTransitive(a: string, b: string, c: string)
    requires Under(a, b) && Under(b, c)
    ensures Under(a, c)
  {
    assert c[..|a|] == c[..|b|][..|a|] == b[..|a|];
    assert c[|a|] == c[..|b|][|a|] == b[|a|];
  }

  /** The host holds nothing of the instance. */
  ghost predicate Clean(h: Host, spec: Spec)
  {
    && spec.container !in h.boxes && (forall n | n in spec.sidecars :: n !in h.boxes)
    && spec.network !in h.networks && (forall v | v in spec.volumes :: v !in h.volumes)
    && spec.root !in h.dirs
    && (forall x | x in h.dirs || x in h.files :: !Under(spec.root, x))
  }

  /** Created names are the instance's own. */
  ghost predicate OwnNames(spec: Spec, c: Created)
  {
    && (forall n | n in c.sidecars :: n in spec.sidecars) && (forall v | v in c.volumes :: v in spec.volumes)
  }

  lemma {:induction false} SidecarsOwn(fate: Fate, spec: Spec, w: Work, names: seq<string>, box: Box)
    requires OwnNames(spec, w.created) && forall n | n in names :: n in spec.sidecars
    ensures OwnNames(spec, CreateSidecars(fate, w, names, box).0.created)
    decreases |names|
  {
    if names != [] {
      assert names[0] in names;
      SidecarsOwn(fate, spec, CreateSidecar(fate, w, names[0], box).0, names[1..], box);
    }
  }

  lemma {:induction false} VolumesOwn(fate: Fate, spec: Spec, w: Work, volumes: seq<string>)
    requires OwnNames(spec, w.created) && forall v | v in volumes :: v in spec.volumes
    ensures OwnNames(spec, CreateVolumes(fate, w, volumes).0.created)
    decreases |volumes|
  {
    if volumes != [] {
      assert volumes[0] in volumes;
      if volumes[0] in w.host.volumes {
        VolumesOwn(fate, spec, w, volumes[1..]);
      } else if fate(w.calls) {
        VolumesOwn(fate, spec, Work(w.host.(volumes := w.host.volumes + {volumes[0]}),
          w.created.(volumes := w.created.volumes + [volumes[0]]), w.calls + 1), volumes[1..]);
      }
    }
  }

  lemma {:induction false} DirsOwn(fate: Fate, spec: Spec, w: Work, dirs: seq<string>)
    ensures var c := CreateDirs(fate, spec, w, dirs).0.created;
            c.sidecars == w.created.sidecars && c.volumes == w.created.volumes
    decreases |dirs|
  {
    if dirs != [] {
      if dirs[0] in w.host.dirs {
        DirsOwn(fate, spec, w, dirs[1..]);
      } else if fate(w.calls) {
        DirsOwn(fate, spec, Work(MakeDir(w.host, spec, dirs[0]),
          w.created.(dirs := w.created.dirs + [dirs[0]]), w.calls + 1), dirs[1..]);
      }
    }
  }

  lemma BuildOwn(fate: Fate, spec: Spec, w: Work, req: Request, sel: Selection)
    requires w.created == NOTHING
    ensures OwnNames(spec, Build(fate, spec, w, req, sel).0.created)
  {
    hide CreateDirs, CreateVolumes, CreateSidecars;
    DirsOwn(fate, spec, w, spec.dirs);
    var w1 := CreateDirs(fate, spec, w, spec.dirs).0;
    var w2 := StageConfig(fate, spec, w1, req.config).0;
    var w3 := if sel.persona then StagePersonas(fate, spec, w2, req.personas).0 else w2;
    var w4 := CreateNetwork(fate, spec, w3).0;
    VolumesOwn(fate, spec, w4, spec.volumes);
    var w5 := CreateVolumes(fate, w4, spec.volumes).0;
    var box := Box(true, Some(sel.mode), req.world);
    var w6 := CreateContainer(fate, spec, w5, box).0;
    SidecarsOwn(fate, spec, Asked(Asked(w6)), spec.sidecars, box);
  }

  /** Start then stop on a host that held nothing of the instance: as if neither had been. */
  lemma StopUndoesStart(fate: Fate, spec: Spec, h0: Host, calls: nat, req: Request, sel: Selection)
    requires SpecOk(spec) && Clean(h0, spec)
    requires StartFresh(fate, spec, h0, calls, req, sel).1 in {Started(true), StatusFailed}
    ensures Stop(spec, StartFresh(fate, spec, h0, calls, req, sel).0.host) == h0
  {
    hide Build, Made, Clean, SpecOk, OwnNames, Stop;
    var w0 := Work(h0, NOTHING, calls + 1);
    Begin(h0, spec, calls + 1);
    BuildMade(fate, h0, spec, w0, req, sel);
    BuildOwn(fate, spec, w0, req, sel);
    var w := Build(fate, spec, w0, req, sel).0;
    forall n | n in h0.boxes ensures n in w.host.boxes && w.host.boxes[n] == h0.boxes[n] {
      FreshBoxes(fate, h0, spec, calls + 1, req, sel, n);
    }
    StopOfMade(h0, spec, w);
  }

  lemma StopOfMade(h0: Host, spec: Spec, w: Work)
    requires SpecOk(spec) && Clean(h0, spec) && Made(h0, spec, w) && OwnNames(spec, w.created)
    requires forall n | n in h0.boxes :: n in w.host.boxes && w.host.boxes[n] == h0.boxes[n]
    ensures Stop(spec, w.host) == h0
  {
    var h1 := RemoveBoxes(RemoveBoxes(w.host, [spec.container]), spec.sidecars);
    var h2 := h1.(networks := h1.networks - {spec.network},
                  volumes := h1.volumes - (set v | v in spec.volumes));
    StopBoxes(h0, spec, w);
    RemoveTreesGives(h2, spec.dirs);
    var t := RemoveTrees(h2, spec.dirs);
    StopTree(h0, spec, w, t);
    RootNotUnderRoot(spec);
    assert h2.networks == h0.networks && h2.volumes == h0.volumes;
    hide RemoveTrees, Under, Made;
    assert EmptyDir(t, spec.root);
  }

  lemma StopBoxes(h0: Host, spec: Spec, w: Work)
    requires Clean(h0, spec) && BoxesMade(h0, spec, w.host, w.created) && OwnNames(spec, w.created)
    requires forall n | n in h0.boxes :: n in w.host.boxes && w.host.boxes[n] == h0.boxes[n]
    ensures RemoveBoxes(RemoveBoxes(w.host, [spec.container]), spec.sidecars).boxes == h0.boxes
  {
    var h1 := RemoveBoxes(RemoveBoxes(w.host, [spec.container]), spec.sidecars);
    forall n ensures n in h1.boxes <==> n in h0.boxes {
    }
  }

  lemma StopTree(h0: Host, spec: Spec, w: Work, t: Host)
    requires SpecOk(spec) && Clean(h0, spec)
    requires DirsMade(h0, spec, w.host, w.created) && FilesMade(h0, spec, w.host, w.created)
    requires forall x :: x in t.dirs <==> x in w.host.dirs && forall d | d in spec.dirs :: x != d && !Under(d, x)
    requires forall f :: f in t.files <==> f in w.host.files && forall d | d in spec.dirs :: !Under(d, f)
    requires forall f | f in t.files :: t.files[f] == w.host.files[f]
    ensures forall x :: x in t.dirs <==> x in h0.dirs || (w.created.dirs != [] && x == spec.root)
    ensures t.files == h0.files
  {
    forall d, x | d in spec.dirs && Under(d, x) ensures Under(spec.root, x) {
      UnderTransitive(spec.root, d, x);
    }
    forall d | d in spec.dirs ensures !Under(d, spec.root) && d != spec.root && Under(spec.root, d) {
      NotUnderItself(spec, d);
    }
    hide Under;
    forall f ensures f in t.files <==> f in h0.files {
      if f in StagedFiles(spec, w.created) { assert Under(spec.configDir, f); }
    }
  }

  // ---- The names of the source -----------------------------------------------------------------------------

  function SpecFor(base: string, env: string, id: string): Spec
  {
    var project := "rb-" + env + "-" + id;
    var root := base + "/rift-" + env + "-" + id;
    Spec("riftbreaker-dedicated-" + env + "-" + id,
         [project + "-session-recorder", project + "-send-tailer", project + "-match-loop",
          project + "-attack-cycle", project + "-chat-announcer"],
         project + "_default", ["rb-" + env + "-wine-" + id, "rb-" + env + "-saves-" + id], root,
         [root + "/game", root + "/backups", root + "/sessions", root + "/config"], root + "/config",
         root + "/config/config.cfg", root + "/config/personas.json")
  }

  lemma UnderChild(dir: string, name: string)
    ensures Under(dir, dir + "/" + name)
  {
  }

  lemma NoSlash(dir: string, a: string, b: string)
    requires '/' !in b
    ensures !Under(dir + "/" + a, dir + "/" + b)
  {
    var p, x := dir + "/" + a, dir + "/" + b;
    if |x| > |p| {
      assert x[|p|] == b[|p| - |dir| - 1];
    }
  }

  lemma TailsDiffer(p: string, a: string, b: string)
    requires a != b
    ensures p + a != p + b
  {
    assert (p + a)[|p|..] == a && (p + b)[|p|..] == b;
  }

  const SIDECARS := ["-session-recorder", "-send-tailer", "-match-loop", "-attack-cycle",
                     "-chat-announcer"]

  const SUBDIRS := ["game", "backups", "sessions", "config"]

  lemma TailNames()
    ensures forall i, j | 0 <= i < j < 5 :: SIDECARS[i] != SIDECARS[j]
    ensures forall i, j | 0 <= i < j < 4 :: SUBDIRS[i] != SUBDIRS[j]
    ensures forall i | 0 <= i < 4 :: '/' !in SUBDIRS[i]
  {
    assert SIDECARS[0][3] == 's' && SIDECARS[1][3] == 'n'
        && SIDECARS[2][1] == 'm' && SIDECARS[3][1] == 'a' && SIDECARS[4][1] == 'c';
    assert SIDECARS[0][1] == 's' == SIDECARS[1][1];
    assert SUBDIRS[0][0] == 'g' && SUBDIRS[1][0] == 'b' && SUBDIRS[2][0] == 's' && SUBDIRS[3][0] == 'c';
  }

  lemma SidecarNames(project: string, names: seq<string>, container: string)
    requires |names| == 5 && forall i | 0 <= i < 5 :: names[i] == project + SIDECARS[i]
    requires |project| > 1 && |container| > 1 && project[1] != container[1]
    ensures container !in names && forall i, j | 0 <= i < j < 5 :: names[i] != names[j]
  {
    TailNames();
    forall i, j | 0 <= i < j < 5 ensures names[i] != names[j] {
      TailsDiffer(project, SIDECARS[i], SIDECARS[j]);
    }
    forall i | 0 <= i < 5 ensures names[i] != container {
      assert names[i][1] == project[1];
    }
  }

  lemma DirNames(root: string, dirs: seq<string>)
    requires |dirs| == 4 && forall i | 0 <= i < 4 :: dirs[i] == root + "/" + SUBDIRS[i]
    ensures forall i, j | 0 <= i < j < 4 :: dirs[i] != dirs[j]
    ensures forall d | d in dirs :: Under(root, d)
    ensures forall d, e | d in dirs && e in dirs :: !Under(d, e)
  {
    TailNames();
    forall i, j | 0 <= i < j < 4 ensures dirs[i] != dirs[j] {
      TailsDiffer(root + "/", SUBDIRS[i], SUBDIRS[j]);
    }
    forall i | 0 <= i < 4 ensures Under(root, dirs[i]) {
      UnderChild(root, SUBDIRS[i]);
    }
    forall i, j | 0 <= i < 4 && 0 <= j < 4 ensures !Under(dirs[i], dirs[j]) {
      NoSlash(root, SUBDIRS[i], SUBDIRS[j]);
    }
  }

  /** The names the source derives satisfy what the theorems ask of them. */
  lemma SpecForOk(base: string, env: string, id: string)
    ensures SpecOk(SpecFor(base, env, id))
  {
    var spec := SpecFor(base, env, id);
    var project := "rb-" + env + "-" + id;
    hide Under;
    SidecarNames(project, spec.sidecars, spec.container);
    assert spec.dirs[0] == spec.root + "/" + SUBDIRS[0] && spec.dirs[1] == spec.root + "/" + SUBDIRS[1];
    assert spec.dirs[2] == spec.root + "/" + SUBDIRS[2] && spec.dirs[3] == spec.root + "/" + SUBDIRS[3];
    DirNames(spec.root, spec.dirs);
    StagedNames(spec.root, spec);
  }

  lemma StagedNames(root: string, spec: Spec)
    requires spec.configDir == root + "/config"
    requires spec.configFile == root + "/config/config.cfg" && spec.personaFile == root + "/config/personas.json"
    ensures Under(spec.configDir, spec.configFile) && Under(spec.configDir, spec.personaFile)
    ensures spec.configFile != spec.personaFile
  {
    UnderChild(spec.configDir, "config.cfg");
    UnderChild(spec.configDir, "personas.json");
    assert spec.configFile == spec.configDir + "/" + "config.cfg";
    assert spec.personaFile == spec.configDir + "/" + "personas.json";
    TailsDiffer(spec.configDir + "/", "config.cfg", "personas.json");
  }
}
