/** The walk over frames recovers the chain of callers. */
module UnwindChain {
  import opened Naming
  import opened UnwindModel
  import opened UnwindMachine
  import opened UnwindTheorems
  import UnwindMoved

  /** Registers a callee may overwrite, and RSP, which is tracked apart. */
  const VOLATILE: set<nat> := {0, 1, 2, 4, 8, 9, 10, 11}

  /** A function in progress: where it is, its registers now, and the machine when it was
      entered. */
  datatype Activation = Activation(rip: int, rsp: int, regs: Regs, entry: Machine)

  /** Registers the function still leaves as they were when its prolog stopped. */
  function Moved(done: seq<Code>, fr: nat): set<nat>
  {
    VOLATILE + (Saved(done) - (if HasFp(done) then {fr} else {}))
  }

  /** A function that kept to the ABI and that the image describes. In no module at all:
      a jump to garbage, where nothing has run. */
  ghost predicate Live(image: Image, m: Memory, a: Activation)
  {
    match Locate(image, a.rip)
    case Unresolved => false
    case Nowhere =>
      && a.rsp == a.entry.rsp && Same(a.regs, a.entry.regs, VOLATILE)
      && image.read(a.rsp) == Some(Read(m, a.rsp, 8))
    case Inside(info, cut) =>
      var done := Executed(info.codes, cut);
      var fr, fo := info.frameReg, info.frameOffset;
      && fr < 16 && Supported(done) && Separate(done, a.entry.rsp) && FpRule(done, fr)
      && Sane(fo, done, a.entry) && Intact(fr, fo, done, a.entry, m)
      && Readable(done, a.entry.rsp, m, image.read)
      && (HasFp(done) ==> fr !in VOLATILE)
      && Same(a.regs, After(fr, fo, done, a.entry).regs, Moved(done, fr))
      && (a.rsp == RspAfter(done, a.entry.rsp) || Shiftable(done, fr))
  }

  predicate Same(a: Regs, b: Regs, but: set<nat>)
  {
    forall r | 0 <= r < 16 && r !in but :: a[r] == b[r]
  }

  /** The caller continues where the callee's return address says, its own registers kept. */
  ghost predicate Calls(m: Memory, callee: Activation, caller: Activation)
  {
    && caller.rip == Read(m, callee.entry.rsp, 8) && caller.rip != 0
    && caller.rsp == callee.entry.rsp + 8
    && Same(caller.regs, callee.entry.regs, VOLATILE)
  }

  /** The frame register the function relies on, if it has set one. */
  ghost predicate NeedsOnly(image: Image, a: Activation, known: set<nat>)
  {
    match Locate(image, a.rip)
    case Inside(info, cut) => HasFp(Executed(info.codes, cut)) ==> info.frameReg in known
    case _ => true
  }

  // ---- One frame ---------------------------------------------------------------------------

  lemma {:induction false} ReturnHeld(codes: seq<Code>, rsp: int)
    ensures HeldWord(codes, rsp, rsp)
  {
    if codes != [] { ReturnHeld(codes[1..], rsp); }
  }

  lemma SoundThrough(known: map<nat, int>, now: Regs, past: Regs, junk: set<nat>, more: set<nat>)
    requires Sound(known, now, junk) && Same(now, past, more) && junk <= more
    ensures Sound(known, past, more)
  {
  }

  /** The codes of the innermost function lead to its entry. */
  lemma InsideUnwinds(image: Image, m: Memory, a: Activation, known: map<nat, int>)
    requires Live(image, m, a) && Locate(image, a.rip).Inside? && Sound(known, a.regs, VOLATILE)
    ensures var p := Locate(image, a.rip);
            var r := Apply(p.info.frameReg, p.info.frameOffset, p.info.codes, Cpu(a.rsp, known),
                           image.read, p.cut);
            && (NeedsOnly(image, a, known.Keys) ==> r.Some?)
            && (r.Some? ==> r.value.rsp == a.entry.rsp
                            && Sound(r.value.regs, a.entry.regs, VOLATILE)
                            && known.Keys <= r.value.regs.Keys)
  {
    var p := Locate(image, a.rip);
    var fr, fo := p.info.frameReg, p.info.frameOffset;
    var done := Executed(p.info.codes, p.cut);
    var junk := Moved(done, fr);
    CutApplies(fr, fo, p.info.codes, Cpu(a.rsp, known), image.read, p.cut);
    SoundThrough(known, a.regs, After(fr, fo, done, a.entry).regs, VOLATILE, junk);
    var r := Apply(fr, fo, done, Cpu(a.rsp, known), image.read, None);
    hide Supported, Separate, Sane, Intact, Readable, Locate, Sound, RspAfter;
    if a.rsp == RspAfter(done, a.entry.rsp) {
      UndoAll(fr, fo, done, a.entry, m, Cpu(a.rsp, known), junk, image.read);
    } else {
      UnwindMoved.Survives(fr, fo, done, a.entry, m, a.rsp, known, junk, image.read);
    }
    if r.Some? {
      SoundWeaker(r.value.regs, a.entry.regs, junk - Saved(done), VOLATILE);
    }
  }

  /** One step from a live function finds its caller, or nothing. */
  lemma StepFindsCaller(image: Image, m: Memory, a: Activation, known: map<nat, int>)
    requires Live(image, m, a) && Sound(known, a.regs, VOLATILE)
    ensures var next := Step(image, Frame(a.rip, Cpu(a.rsp, known)));
            var ret := Read(m, a.entry.rsp, 8);
            && (ret == 0 ==> next.None?)
            && (ret != 0 && NeedsOnly(image, a, known.Keys) ==> next.Some?)
            && (next.Some? ==> next.value.rip == ret && next.value.cpu.rsp == a.entry.rsp + 8
                               && Sound(next.value.cpu.regs, a.entry.regs, VOLATILE)
                               && known.Keys <= next.value.cpu.regs.Keys)
  {
    match Locate(image, a.rip)
    case Nowhere =>
      SoundThrough(known, a.regs, a.entry.regs, VOLATILE, VOLATILE);
    case Inside(info, cut) =>
      InsideUnwinds(image, m, a, known);
      ReturnHeld(Executed(info.codes, cut), a.entry.rsp);
      assert image.read(a.entry.rsp) == Some(Read(m, a.entry.rsp, 8));
      hide Locate, Sound, Read, Apply, Executed, NeedsOnly;
  }

  // ---- The chain -----------------------------------------------------------------------------

  ghost predicate CallChain(image: Image, m: Memory, acts: seq<Activation>)
  {
    && acts != []
    && (forall i | 0 <= i < |acts| :: Live(image, m, acts[i]))
    && (forall i | 0 < i < |acts| :: Calls(m, acts[i - 1], acts[i]))
    && Read(m, acts[|acts| - 1].entry.rsp, 8) == 0
  }

  /** The return addresses of the chain, innermost first. */
  function Callers(acts: seq<Activation>): seq<int>
  {
    if |acts| <= 1 then [] else [acts[1].rip] + Callers(acts[1..])
  }

  predicate Prefix(a: seq<int>, b: seq<int>)
  {
    |a| <= |b| && a == b[..|a|]
  }

  lemma ChainRest(image: Image, m: Memory, acts: seq<Activation>)
    requires CallChain(image, m, acts) && |acts| > 1
    ensures CallChain(image, m, acts[1..]) && Calls(m, acts[0], acts[1]) && Live(image, m, acts[0])
  {
    hide Live, Calls;
    assert Calls(m, acts[1 - 1], acts[1]);
    assert forall i | 0 <= i < |acts| - 1 :: acts[1..][i] == acts[i + 1];
    forall i | 0 < i < |acts[1..]| ensures Calls(m, acts[1..][i - 1], acts[1..][i]) {
      assert Calls(m, acts[(i + 1) - 1], acts[i + 1]);
    }
  }

  /** Never a wrong return address: whatever the walk reports is a prefix of the true chain
      of callers. If the frame registers in use are known at the start, it is all of the
      chain, up to the frame limit. */
  lemma {:induction false} WalkFindsCallers(image: Image, m: Memory, acts: seq<Activation>,
                                            known: map<nat, int>, frames: nat)
    requires acts != [] && CallChain(image, m, acts) && Sound(known, acts[0].regs, VOLATILE)
    ensures var out := Walk(image, Frame(acts[0].rip, Cpu(acts[0].rsp, known)), frames);
            && Prefix(out, Callers(acts))
            && ((forall a | a in acts :: NeedsOnly(image, a, known.Keys)) ==>
                  |out| == if frames <= |acts| - 1 then frames else |acts| - 1)
    decreases frames
  {
    hide Step, Sound, Live, NeedsOnly, CallChain, Calls;
    CallersCount(acts);
    if frames > 0 {
      var f := Frame(acts[0].rip, Cpu(acts[0].rsp, known));
      ChainHead(image, m, acts);
      StepFindsCaller(image, m, acts[0], known);
      assert acts[0] in acts;
      var next := Step(image, f);
      if next.Some? {
        ChainLonger(image, m, acts);
        ChainRest(image, m, acts);
        var cpu := next.value.cpu;
        CallerKnown(m, acts[0], acts[1], cpu.regs);
        WalkFindsCallers(image, m, acts[1..], cpu.regs, frames - 1);
        KnownGrows(image, acts, known.Keys, cpu.regs.Keys);
        assert next.value == Frame(acts[1].rip, Cpu(acts[1].rsp, cpu.regs));
        var rest := Walk(image, next.value, frames - 1);
        assert Walk(image, f, frames) == [acts[1].rip] + rest;
      }
    }
  }

  lemma {:induction false} CallersCount(acts: seq<Activation>)
    requires acts != []
    ensures |Callers(acts)| == |acts| - 1
  {
    if |acts| > 1 { CallersCount(acts[1..]); }
  }

  lemma ChainHead(image: Image, m: Memory, acts: seq<Activation>)
    requires CallChain(image, m, acts)
    ensures Live(image, m, acts[0])
    ensures |acts| == 1 ==> Read(m, acts[0].entry.rsp, 8) == 0
    ensures |acts| > 1 ==> Read(m, acts[0].entry.rsp, 8) != 0
  {
    hide Live;
    if |acts| > 1 { assert Calls(m, acts[1 - 1], acts[1]); }
  }

  lemma ChainLonger(image: Image, m: Memory, acts: seq<Activation>)
    requires CallChain(image, m, acts) && Read(m, acts[0].entry.rsp, 8) != 0
    ensures |acts| > 1
  {
  }

  lemma CallerKnown(m: Memory, callee: Activation, caller: Activation, known: map<nat, int>)
    requires Calls(m, callee, caller) && Sound(known, callee.entry.regs, VOLATILE)
    ensures Sound(known, caller.regs, VOLATILE)
    ensures caller.rip == Read(m, callee.entry.rsp, 8) && caller.rsp == callee.entry.rsp + 8
  {
  }

  lemma KnownGrows(image: Image, acts: seq<Activation>, a: set<nat>, b: set<nat>)
    requires a <= b && |acts| > 1
    ensures (forall x | x in acts :: NeedsOnly(image, x, a)) ==>
              forall x | x in acts[1..] :: NeedsOnly(image, x, b)
  {
    assert forall x | x in acts[1..] :: x in acts;
    assert forall x :: NeedsOnly(image, x, a) ==> NeedsOnly(image, x, b);
  }

  /** As `x64_unwind` starts: RBP known. Functions that use a frame register use RBP. */
  lemma UnwindRecoversCallChain(image: Image, m: Memory, acts: seq<Activation>, frames: nat)
    requires CallChain(image, m, acts)
    requires forall a | a in acts :: NeedsOnly(image, a, {5})
    ensures var out := Walk(image, Frame(acts[0].rip, Cpu(acts[0].rsp, map[5 := acts[0].regs[5]])), frames);
            out == Callers(acts)[..if frames < |Callers(acts)| then frames else |Callers(acts)|]
  {
    var known: map<nat, int> := map[5 := acts[0].regs[5]];
    assert known.Keys == {5};
    WalkFindsCallers(image, m, acts, known, frames);
    CallersCount(acts);
  }
}
