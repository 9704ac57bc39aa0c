/** Starting and stopping an instance as a transaction over Docker and the file system.
    Calls that fail have no effect; removals succeed; existence checks tell the truth. */
module ProvisionerModel {
  import opened Naming

  // ---- The host ------------------------------------------------------------------------

  /** A container: is it up, and what its environment says of mode and VS world. */
  datatype Box = Box(running: bool, mode: Option<string>, world: Option<string>)

  datatype Host = Host(boxes: map<string, Box>, networks: set<string>, volumes: set<string>,
                       dirs: set<string>, files: map<string, string>)

  /** Names derived from environment and instance id. */
  datatype Spec = Spec(container: string, sidecars: seq<string>, network: string,
                       volumes: seq<string>, root: string, dirs: seq<string>, configDir: string,
                       configFile: string, personaFile: string)

  predicate Under(dir: string, path: string)
  {
    |path| > |dir| && path[..|dir|] == dir && path[|dir|] == '/'
  }

  predicate EmptyDir(h: Host, dir: string)
  {
    && (forall d | d in h.dirs :: !Under(dir, d))
    && (forall f | f in h.files :: !Under(dir, f))
  }

  /** `makedirs` of a directory directly below the root. */
  function MakeDir(h: Host, spec: Spec, dir: string): Host
  {
    h.(dirs := h.dirs + {dir, spec.root})
  }

  function RemoveTree(h: Host, dir: string): Host
  {
    h.(dirs := (set d | d in h.dirs && d != dir && !Under(dir, d)),
       files := (map f | f in h.files && !Under(dir, f) :: h.files[f]))
  }

  function RemoveRootIfEmpty(h: Host, spec: Spec): Host
  {
    if spec.root in h.dirs && EmptyDir(h, spec.root) then h.(dirs := h.dirs - {spec.root}) else h
  }

  // ---- A start in progress ---------------------------------------------------------------

  datatype Created = Created(container: bool, sidecars: seq<string>, network: bool,
                             volumes: seq<string>, dirs: seq<string>, config: bool, personas: bool)

  const NOTHING := Created(false, [], false, [], [], false, false)

  datatype Selection = Selection(mode: string, persona: bool)

  /** A parsed request; `config` and `personas` are the texts to stage. */
  datatype Request = Request(selection: Option<Selection>, world: Option<string>, config: string,
                             personas: string)

  type Fate = nat -> bool

  datatype Work = Work(host: Host, created: Created, calls: nat)

  function Asked(w: Work): Work
  {
    w.(calls := w.calls + 1)
  }

  function CreateDirs(fate: Fate, spec: Spec, w: Work, dirs: seq<string>): (Work, bool)
    decreases |dirs|
  {
    if dirs == [] then (w, true)
    else if dirs[0] in w.host.dirs then CreateDirs(fate, spec, w, dirs[1..])
    else if !fate(w.calls) then (Asked(w), false)
    else
      CreateDirs(fate, spec,
                 Work(MakeDir(w.host, spec, dirs[0]), w.created.(dirs := w.created.dirs + [dirs[0]]),
                      w.calls + 1), dirs[1..])
  }

  function StageConfig(fate: Fate, spec: Spec, w: Work, text: string): (Work, bool)
  {
    if !fate(w.calls) then (Asked(w), false)
    else (Work(w.host.(files := w.host.files[spec.configFile := text]), w.created.(config := true),
               w.calls + 1), true)
  }

  function StagePersonas(fate: Fate, spec: Spec, w: Work, text: string): (Work, bool)
  {
    if !fate(w.calls) then (Asked(w), false)
    else (Work(w.host.(files := w.host.files[spec.personaFile := text]), w.created.(personas := true),
               w.calls + 1), true)
  }

  function CreateNetwork(fate: Fate, spec: Spec, w: Work): (Work, bool)
  {
    if spec.network in w.host.networks then (w, true)
    else if !fate(w.calls) then (Asked(w), false)
    else (Work(w.host.(networks := w.host.networks + {spec.network}), w.created.(network := true),
               w.calls + 1), true)
  }

  function CreateVolumes(fate: Fate, w: Work, volumes: seq<string>): (Work, bool)
    decreases |volumes|
  {
    if volumes == [] then (w, true)
    else if volumes[0] in w.host.volumes then CreateVolumes(fate, w, volumes[1..])
    else if !fate(w.calls) then (Asked(w), false)
    else
      CreateVolumes(fate, Work(w.host.(volumes := w.host.volumes + {volumes[0]}),
                               w.created.(volumes := w.created.volumes + [volumes[0]]), w.calls + 1),
                    volumes[1..])
  }

  /** `docker run`: fails on a name already taken. */
  function RunBox(fate: Fate, w: Work, name: string, box: Box): (Work, bool)
  {
    if !fate(w.calls) || name in w.host.boxes then (Asked(w), false)
    else (Asked(w).(host := w.host.(boxes := w.host.boxes[name := box])), true)
  }

  function CreateContainer(fate: Fate, spec: Spec, w: Work, box: Box): (Work, bool)
  {
    var (w', ok) := RunBox(fate, w, spec.container, box);
    (if ok then w'.(created := w'.created.(container := true)) else w', ok)
  }

  function CreateSidecar(fate: Fate, w: Work, name: string, box: Box): (Work, bool)
  {
    var (w', ok) := RunBox(fate, w, name, box);
    (if ok then w'.(created := w'.created.(sidecars := w'.created.sidecars + [name])) else w', ok)
  }

  function CreateSidecars(fate: Fate, w: Work, names: seq<string>, box: Box): (Work, bool)
    decreases |names|
  {
    if names == [] then (w, true)
    else
      var (w', ok) := CreateSidecar(fate, w, names[0], box);
      if ok then CreateSidecars(fate, w', names[1..], box) else (w', false)
  }

  /** A call that only answers: health, seeding. */
  function Check(fate: Fate, w: Work): (Work, bool)
  {
    (Asked(w), fate(w.calls))
  }

  /** The body of the `try` of a fresh start. */
  function Build(fate: Fate, spec: Spec, w: Work, req: Request, sel: Selection): (Work, bool)
  {
    var (w1, ok1) := CreateDirs(fate, spec, w, spec.dirs);
    if !ok1 then (w1, false) else
    var (w2, ok2) := StageConfig(fate, spec, w1, req.config);
    if !ok2 then (w2, false) else
    var (w3, ok3) := if sel.persona then StagePersonas(fate, spec, w2, req.personas) else (w2, true);
    if !ok3 then (w3, false) else
    var (w4, ok4) := CreateNetwork(fate, spec, w3);
    if !ok4 then (w4, false) else
    var (w5, ok5) := CreateVolumes(fate, w4, spec.volumes);
    if !ok5 then (w5, false) else
    Launch(fate, spec, w5, Box(true, Some(sel.mode), req.world))
  }

  function Launch(fate: Fate, spec: Spec, w: Work, box: Box): (Work, bool)
  {
    var (w1, ok1) := CreateContainer(fate, spec, w, box);
    if !ok1 then (w1, false) else
    var (w2, healthy) := Check(fate, w1);
    if !healthy then (w2, false) else
    var (w3, seeded) := Check(fate, w2);
    if !seeded then (w3, false) else CreateSidecars(fate, w3, spec.sidecars, box)
  }

  // ---- Rollback -----------------------------------------------------------------------------

  function RemoveBoxes(h: Host, names: seq<string>): Host
  {
    h.(boxes := h.boxes - (set n | n in names))
  }

  function RemoveTrees(h: Host, dirs: seq<string>): Host
    decreases |dirs|
  {
    if dirs == [] then h else RemoveTrees(RemoveTree(h, dirs[0]), dirs[1..])
  }

  function Rollback(h: Host, spec: Spec, c: Created): Host
  {
    var h1 := if c.container then RemoveBoxes(h, [spec.container]) else h;
    var h2 := RemoveBoxes(h1, c.sidecars);
    var h3 := h2.(volumes := h2.volumes - (set v | v in c.volumes));
    var h4 := if c.config then h3.(files := h3.files - {spec.configFile}) else h3;
    var h5 := if c.personas then h4.(files := h4.files - {spec.personaFile}) else h4;
    var h6 := if c.network then h5.(networks := h5.networks - {spec.network}) else h5;
    RemoveRootIfEmpty(RemoveTrees(h6, c.dirs), spec)
  }

  // ---- Start and stop ------------------------------------------------------------------------

  datatype Outcome = Started(isNew: bool) | Refused | RolledBack | StatusFailed

  /** Selecting a VS world drops the persona from a persona mode but not its kind, so the
      preflight then looks for no persona by name and refuses. */
  predicate Nameless(req: Request, sel: Selection)
  {
    sel.persona && req.world.Some?
  }

  /** A fresh start: preflight, the transaction, and the status report outside it. */
  function StartFresh(fate: Fate, spec: Spec, h: Host, calls: nat, req: Request, sel: Selection)
    : (Work, Outcome)
  {
    var (w0, passed) := Check(fate, Work(h, NOTHING, calls));
    if !passed || Nameless(req, sel) then (w0, Refused)
    else
      var (w, ok) := Build(fate, spec, w0, req, sel);
      if !ok then (w.(host := Rollback(w.host, spec, w.created)), RolledBack)
      else if !fate(w.calls) then (Asked(w), StatusFailed)
      else (Asked(w), Started(true))
  }

  function Restarted(h: Host, name: string): Host
    requires name in h.boxes
  {
    h.(boxes := h.boxes[name := h.boxes[name].(running := true)])
  }

  /** `docker start` of a container that is not up. */
  function Wake(fate: Fate, w: Work, name: string): (Work, bool)
    requires name in w.host.boxes
  {
    if w.host.boxes[name].running then (w, true)
    else if !fate(w.calls) then (Asked(w), false)
    else (Asked(w).(host := Restarted(w.host, name)), true)
  }

  /** Running sidecars untouched, stopped ones started, missing ones rebuilt from the
      environment of the existing container, or skipped if that names no mode. */
  function EnsureSidecars(fate: Fate, w: Work, names: seq<string>, like: Box): (Work, bool)
    decreases |names|
  {
    if names == [] then (w, true)
    else
      var name := names[0];
      if name in w.host.boxes then
        var (w', ok) := Wake(fate, w, name);
        if ok then EnsureSidecars(fate, w', names[1..], like) else (w', false)
      else if like.mode.None? then EnsureSidecars(fate, w, names[1..], like)
      else
        var (w', ok) := CreateSidecar(fate, w, name, Rebuilt(like));
        if ok then EnsureSidecars(fate, w', names[1..], like) else (w', false)
  }

  /** What a missing sidecar is rebuilt as. */
  function Rebuilt(like: Box): Box
  {
    Box(true, like.mode, if like.world == Some("") then None else like.world)
  }

  function OrEmpty(s: Option<string>): string
  {
    if s.Some? then s.value else ""
  }

  /** No silent switch of a running instance. */
  predicate Conflicts(box: Box, sel: Selection, world: Option<string>)
  {
    || (box.mode.Some? && box.mode.value != sel.mode)
    || (box.world.Some? && box.world.value != OrEmpty(world))
  }

  function StartExisting(fate: Fate, spec: Spec, h: Host, calls: nat, req: Request, sel: Selection)
    : (Work, Outcome)
    requires spec.container in h.boxes
  {
    var w0 := Work(h, NOTHING, calls);
    var box := h.boxes[spec.container];
    if Conflicts(box, sel, req.world) then (w0, Refused)
    else
      var (w1, up) := Wake(fate, w0, spec.container);
      if !up then (w1, Refused)
      else
        var (w2, healthy) := Check(fate, w1);
        if !healthy then (w2, Refused)
        else
          var (w3, ok) := EnsureSidecars(fate, w2, spec.sidecars, box);
          if !ok then (w3.(host := Rollback(w3.host, spec, w3.created)), RolledBack)
          else if !fate(w3.calls) then (Asked(w3), StatusFailed)
          else (Asked(w3), Started(false))
  }

  function Start(fate: Fate, spec: Spec, h: Host, calls: nat, req: Request): (Work, Outcome)
  {
    if req.selection.None? then (Work(h, NOTHING, calls), Refused)
    else if spec.container in h.boxes then StartExisting(fate, spec, h, calls, req, req.selection.value)
    else StartFresh(fate, spec, h, calls, req, req.selection.value)
  }

  function Stop(spec: Spec, h: Host): Host
  {
    var h1 := RemoveBoxes(RemoveBoxes(h, [spec.container]), spec.sidecars);
    var h2 := h1.(networks := h1.networks - {spec.network},
                  volumes := h1.volumes - (set v | v in spec.volumes));
    RemoveRootIfEmpty(RemoveTrees(h2, spec.dirs), spec)
  }
}
