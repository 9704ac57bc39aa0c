/** The provisioner's start and stop as the loops and early exits they are, proved to do what
    ProvisionerModel says. A false result stands for the exception that ends the `try`. */
module Provisioner {
  import opened Naming
  import opened ProvisionerModel
  import M = ProvisionerModel

  class Provisioner {
    const spec: Spec
    const fate: Fate
    var host: Host
    var created: Created
    var calls: nat

    function Abs(): Work
      reads this
    {
      Work(host, created, calls)
    }

    constructor (spec: Spec, fate: Fate, host: Host)
      ensures this.spec == spec && this.fate == fate && Abs() == Work(host, NOTHING, 0)
    {
      this.spec, this.fate, this.host := spec, fate, host;
      created, calls := NOTHING, 0;
    }

    method Call() returns (ok: bool)
      modifies this`calls
      ensures ok == fate(old(calls)) && Abs() == Asked(old(Abs()))
    {
      ok := fate(calls);
      calls := calls + 1;
    }

    // ---- Creation ----------------------------------------------------------------------

    method CreateDirs() returns (ok: bool)
      modifies this
      ensures (Abs(), ok) == M.CreateDirs(fate, spec, old(Abs()), spec.dirs)
    {
      var dirs := spec.dirs;
      ghost var goal := M.CreateDirs(fate, spec, Abs(), dirs);
      assert dirs[0..] == dirs;
      for i := 0 to |dirs|
        invariant M.CreateDirs(fate, spec, Abs(), dirs[i..]) == goal
      {
        assert dirs[i..][0] == dirs[i] && dirs[i..][1..] == dirs[i + 1..];
        if dirs[i] !in host.dirs {
          ok := Call();
          if !ok {
            return;
          }
          host := MakeDir(host, spec, dirs[i]);
          created := created.(dirs := created.dirs + [dirs[i]]);
        }
      }
      return true;
    }

    method StageConfig(text: string) returns (ok: bool)
      modifies this
      ensures (Abs(), ok) == M.StageConfig(fate, spec, old(Abs()), text)
    {
      ok := Call();
      if ok {
        host := host.(files := host.files[spec.configFile := text]);
        created := created.(config := true);
      }
    }

    method StagePersonas(text: string) returns (ok: bool)
      modifies this
      ensures (Abs(), ok) == M.StagePersonas(fate, spec, old(Abs()), text)
    {
      ok := Call();
      if ok {
        host := host.(files := host.files[spec.personaFile := text]);
        created := created.(personas := true);
      }
    }

    method CreateNetwork() returns (ok: bool)
      modifies this
      ensures (Abs(), ok) == M.CreateNetwork(fate, spec, old(Abs()))
    {
      if spec.network in host.networks {
        return true;
      }
      ok := Call();
      if ok {
        host := host.(networks := host.networks + {spec.network});
        created := created.(network := true);
      }
    }

    method CreateVolumes() returns (ok: bool)
      modifies this
      ensures (Abs(), ok) == M.CreateVolumes(fate, old(Abs()), spec.volumes)
    {
      var volumes := spec.volumes;
      ghost var goal := M.CreateVolumes(fate, Abs(), volumes);
      assert volumes[0..] == volumes;
      for i := 0 to |volumes|
        invariant M.CreateVolumes(fate, Abs(), volumes[i..]) == goal
      {
        assert volumes[i..][0] == volumes[i] && volumes[i..][1..] == volumes[i + 1..];
        if volumes[i] !in host.volumes {
          ok := Call();
          if !ok {
            return;
          }
          host := host.(volumes := host.volumes + {volumes[i]});
          created := created.(volumes := created.volumes + [volumes[i]]);
        }
      }
      return true;
    }

    /** `docker run`. */
    method RunBox(name: string, box: Box) returns (ok: bool)
      modifies this`host, this`calls
      ensures (Abs(), ok) == M.RunBox(fate, old(Abs()), name, box)
    {
      ok := Call();
      ok := ok && name !in host.boxes;
      if ok {
        host := host.(boxes := host.boxes[name := box]);
      }
    }

    method CreateContainer(box: Box) returns (ok: bool)
      modifies this
      ensures (Abs(), ok) == M.CreateContainer(fate, spec, old(Abs()), box)
    {
      ok := RunBox(spec.container, box);
      if ok {
        created := created.(container := true);
      }
    }

    method CreateSidecar(name: string, box: Box) returns (ok: bool)
      modifies this
      ensures (Abs(), ok) == M.CreateSidecar(fate, old(Abs()), name, box)
    {
      ok := RunBox(name, box);
      if ok {
        created := created.(sidecars := created.sidecars + [name]);
      }
    }

    method CreateSidecars(box: Box) returns (ok: bool)
      modifies this
      ensures (Abs(), ok) == M.CreateSidecars(fate, old(Abs()), spec.sidecars, box)
    {
      hide M.CreateSidecar;
      var names := spec.sidecars;
      ghost var goal := M.CreateSidecars(fate, Abs(), names, box);
      assert names[0..] == names;
      for i := 0 to |names|
        invariant M.CreateSidecars(fate, Abs(), names[i..], box) == goal
      {
        assert names[i..][0] == names[i] && names[i..][1..] == names[i + 1..];
        ok := CreateSidecar(names[i], box);
        if !ok {
          return;
        }
      }
      return true;
    }

    // ---- The transaction -------------------------------------------------------------------

    method Build(req: Request, sel: Selection) returns (ok: bool)
      modifies this
      ensures (Abs(), ok) == M.Build(fate, spec, old(Abs()), req, sel)
    {
      hide M.CreateDirs, M.StageConfig, M.StagePersonas, M.CreateNetwork, M.CreateVolumes, M.Launch;
      ok := CreateDirs();
      if !ok {
        return;
      }
      ok := StageConfig(req.config);
      if !ok {
        return;
      }
      if sel.persona {
        ok := StagePersonas(req.personas);
        if !ok {
          return;
        }
      }
      ok := CreateNetwork();
      if !ok {
        return;
      }
      ok := CreateVolumes();
      if !ok {
        return;
      }
      ok := Launch(Box(true, Some(sel.mode), req.world));
    }

    /** Container, health, seeding, and only then the sidecars. */
    method Launch(box: Box) returns (ok: bool)
      modifies this
      ensures (Abs(), ok) == M.Launch(fate, spec, old(Abs()), box)
    {
      hide M.CreateContainer, M.CreateSidecars;
      ok := CreateContainer(box);
      if !ok {
        return;
      }
      ok := Call();
      if !ok {
        return;
      }
      ok := Call();
      if !ok {
        return;
      }
      ok := CreateSidecars(box);
    }

    method Rollback()
      modifies this`host
      ensures host == M.Rollback(old(host), spec, created)
    {
      if created.container {
        host := RemoveBoxes(host, [spec.container]);
      }
      RemoveEach(created.sidecars);
      host := host.(volumes := host.volumes - (set v | v in created.volumes));
      if created.config {
        host := host.(files := host.files - {spec.configFile});
      }
      if created.personas {
        host := host.(files := host.files - {spec.personaFile});
      }
      if created.network {
        host := host.(networks := host.networks - {spec.network});
      }
      RemoveDirs(created.dirs);
      host := RemoveRootIfEmpty(host, spec);
    }

    method RemoveEach(names: seq<string>)
      modifies this`host
      ensures host == RemoveBoxes(old(host), names)
    {
      ghost var before := host.boxes;
      assert before - {} == before;
      for i := 0 to |names|
        invariant host == old(host).(boxes := before - (set n | n in names[..i]))
      {
        assert names[..i + 1] == names[..i] + [names[i]];
        assert forall n :: n in names[..i + 1] <==> n in names[..i] || n == names[i];
        host := host.(boxes := host.boxes - {names[i]});
      }
      assert names[..|names|] == names;
    }

    method RemoveDirs(dirs: seq<string>)
      modifies this`host
      ensures host == RemoveTrees(old(host), dirs)
    {
      ghost var goal := RemoveTrees(host, dirs);
      assert dirs[0..] == dirs;
      for i := 0 to |dirs|
        invariant RemoveTrees(host, dirs[i..]) == goal
      {
        assert dirs[i..][0] == dirs[i] && dirs[i..][1..] == dirs[i + 1..];
        host := RemoveTree(host, dirs[i]);
      }
    }

    /** `docker start` where it is needed. */
    method Wake(name: string) returns (ok: bool)
      requires name in host.boxes
      modifies this`host, this`calls
      ensures (Abs(), ok) == M.Wake(fate, old(Abs()), name)
    {
      if host.boxes[name].running {
        return true;
      }
      ok := Call();
      if ok {
        host := Restarted(host, name);
      }
    }

    method EnsureSidecars(like: Box) returns (ok: bool)
      modifies this
      ensures (Abs(), ok) == M.EnsureSidecars(fate, old(Abs()), spec.sidecars, like)
    {
      hide M.CreateSidecar, M.Wake;
      var names := spec.sidecars;
      ghost var goal := M.EnsureSidecars(fate, Abs(), names, like);
      assert names[0..] == names;
      for i := 0 to |names|
        invariant M.EnsureSidecars(fate, Abs(), names[i..], like) == goal
      {
        assert names[i..][0] == names[i] && names[i..][1..] == names[i + 1..];
        if names[i] in host.boxes {
          ok := Wake(names[i]);
          if !ok {
            return;
          }
        } else if like.mode.Some? {
          ok := CreateSidecar(names[i], Rebuilt(like));
          if !ok {
            return;
          }
        }
      }
      return true;
    }

    method StartExisting(req: Request, sel: Selection) returns (out: Outcome)
      requires spec.container in host.boxes && created == NOTHING
      modifies this
      ensures (Abs(), out) == M.StartExisting(fate, spec, old(host), old(calls), req, sel)
    {
      hide M.EnsureSidecars, M.Rollback, M.Wake;
      var box := host.boxes[spec.container];
      if Conflicts(box, sel, req.world) {
        return Refused;
      }
      var ok := Wake(spec.container);
      if !ok {
        return Refused;
      }
      ok := Call();
      if !ok {
        return Refused;
      }
      ok := EnsureSidecars(box);
      if !ok {
        Rollback();
        return RolledBack;
      }
      ok := Call();
      return if ok then Started(false) else StatusFailed;
    }

    method StartFresh(req: Request, sel: Selection) returns (out: Outcome)
      requires created == NOTHING
      modifies this
      ensures (Abs(), out) == M.StartFresh(fate, spec, old(host), old(calls), req, sel)
    {
      hide M.Build, M.Rollback;
      var ok := Call();
      if !ok || Nameless(req, sel) {
        return Refused;
      }
      ok := Build(req, sel);
      if !ok {
        Rollback();
        return RolledBack;
      }
      ok := Call();
      return if ok then Started(true) else StatusFailed;
    }

    method Start(req: Request) returns (out: Outcome)
      modifies this
      ensures (Abs(), out) == M.Start(fate, spec, old(host), old(calls), req)
    {
      created := NOTHING;
      if req.selection.None? {
        return Refused;
      }
      if spec.container in host.boxes {
        out := StartExisting(req, req.selection.value);
      } else {
        out := StartFresh(req, req.selection.value);
      }
    }

    method Stop()
      modifies this`host
      ensures host == M.Stop(spec, old(host))
    {
      host := RemoveBoxes(host, [spec.container]);
      RemoveEach(spec.sidecars);
      host := host.(networks := host.networks - {spec.network},
                    volumes := host.volumes - (set v | v in spec.volumes));
      RemoveDirs(spec.dirs);
      host := RemoveRootIfEmpty(host, spec);
    }
  }
}
