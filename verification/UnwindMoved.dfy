/** When the interpreter survives a body that moved the stack pointer: exactly when nothing
    it needs was saved after the frame register was set. */
module UnwindMoved {
  import opened Naming
  import opened UnwindModel
  import opened UnwindMachine
  import opened UnwindTheorems

  /** Every RSP the body may have left, over every dump that tells the truth where the
      prolog keeps its words. */
  ghost predicate RightWhereverMoved(fr: nat, fo: nat, codes: seq<Code>, s: Machine, m: Memory,
                                     known: map<nat, int>, junk: set<nat>)
  {
    forall rsp: int, read: Reader | Readable(codes, s.rsp, m, read) ::
      Right(Apply(fr, fo, codes, Cpu(rsp, known), read, None), codes, s, junk)
  }

  lemma Survives(fr: nat, fo: nat, codes: seq<Code>, s: Machine, m: Memory, rsp: int,
                 known: map<nat, int>, junk: set<nat>, read: Reader)
    requires fr < 16 && Supported(codes) && Separate(codes, s.rsp) && FpRule(codes, fr)
    requires Sane(fo, codes, s) && Intact(fr, fo, codes, s, m) && Readable(codes, s.rsp, m, read)
    requires fr !in junk && Sound(known, After(fr, fo, codes, s).regs, junk)
    requires Shiftable(codes, fr)
    ensures var r := Apply(fr, fo, codes, Cpu(rsp, known), read, None);
            && (fr in known ==> Right(r, codes, s, junk))
            && (fr !in known ==> r.None?)
            && (r.Some? ==> known.Keys <= r.value.regs.Keys)
  {
    hide Sane, Supported, Separate, Intact, Readable, RspAfter, Sound;
    UndoMoved(fr, fo, codes, s, m, Cpu(rsp, known), junk, read);
    SavedSplits(codes);
    var r := Apply(fr, fo, codes, Cpu(rsp, known), read, None);
    if r.Some? {
      SoundWeaker(r.value.regs, s.regs, junk + Saved(Head(codes)) - Saved(FromFp(codes)),
                  junk - Saved(codes));
    }
  }

  // ---- The adversary -------------------------------------------------------------------------

  /** An address above everything held. */
  function Ceiling(codes: seq<Code>, rsp: int): int
  {
    if codes == [] then rsp + 8
    else
      var rest := Ceiling(codes[1..], rsp);
      var here := RspAfter(codes[1..], rsp) + Bytes(codes[0]) + 8;
      if here > rest then here else rest
  }

  lemma {:induction false} HeldBelowCeiling(codes: seq<Code>, rsp: int, x: int)
    requires Held(codes, rsp, x)
    ensures x < Ceiling(codes, rsp)
  {
    if codes != [] && Held(codes[1..], rsp, x) {
      HeldBelowCeiling(codes[1..], rsp, x);
    }
  }

  function Lying(m: Memory, ceiling: int, lie: int): Reader
  {
    a => if a < ceiling then Some(Read(m, a, 8)) else Some(lie)
  }

  lemma LyingIsReadable(codes: seq<Code>, rsp: int, m: Memory, lie: int)
    ensures Readable(codes, rsp, m, Lying(m, Ceiling(codes, rsp), lie))
  {
    forall a | HeldWord(codes, rsp, a)
      ensures Lying(m, Ceiling(codes, rsp), lie)(a) == Some(Read(m, a, 8))
    {
      assert Held(codes, rsp, a);
      HeldBelowCeiling(codes, rsp, a);
    }
  }

  /** Above the ceiling every register saved after the frame register reads as the lie. */
  lemma {:induction false} HeadFar(fr: nat, fo: nat, codes: seq<Code>, cpu: Cpu, m: Memory,
                                   ceiling: int, lie: int) returns (next: Cpu)
    requires Supported(codes) && cpu.rsp >= ceiling
    ensures var read := Lying(m, ceiling, lie);
            Apply(fr, fo, codes, cpu, read, None) == Apply(fr, fo, FromFp(codes), next, read, None)
    ensures forall r | r in Saved(Head(codes)) :: r in next.regs && next.regs[r] == lie
    ensures forall r | r in cpu.regs && r !in Saved(Head(codes)) ::
              r in next.regs && next.regs[r] == cpu.regs[r]
    decreases |codes|
  {
    if codes == [] || codes[0].op == SET_FPREG {
      next := cpu;
    } else {
      var read := Lying(m, ceiling, lie);
      Kind(codes);
      SupportedRest(codes);
      ApplyOneAnywhere(fr, fo, codes[0], cpu, read);
      FarRead(fr, fo, codes[0], cpu, m, ceiling, lie);
      hide Supported, ApplyOne;
      assert Head(codes)[1..] == Head(codes[1..]);
      next := HeadFar(fr, fo, codes[1..], ApplyOne(fr, fo, codes[0], cpu, read).value, m, ceiling, lie);
    }
  }

  lemma FarRead(fr: nat, fo: nat, c: Code, cpu: Cpu, m: Memory, ceiling: int, lie: int)
    requires Reads(c.op) || IsAlloc(c.op) || IsXmm(c.op)
    requires cpu.rsp >= ceiling
    ensures var r := ApplyOne(fr, fo, c, cpu, Lying(m, ceiling, lie));
            r.Some? && (Reads(c.op) ==> c.info in r.value.regs && r.value.regs[c.info] == lie)
  {
  }

  lemma {:induction false} NotSavedNotTouched(fr: nat, fo: nat, codes: seq<Code>, cpu: Cpu,
                                              read: Reader, r: nat)
    requires r !in Saved(codes) && r in cpu.regs
    ensures var end := Apply(fr, fo, codes, cpu, read, None);
            end.Some? ==> r in end.value.regs && end.value.regs[r] == cpu.regs[r]
    decreases |codes|
  {
    if codes != [] {
      var next := ApplyOne(fr, fo, codes[0], cpu, read);
      if next.Some? {
        NotSavedNotTouched(fr, fo, codes[1..], next.value, read, r);
      }
    }
  }

  lemma {:induction false} RspMoves(fr: nat, fo: nat, codes: seq<Code>, cpu: Cpu, read: Reader, rsp: int)
    requires Supported(codes) && !HasFp(codes)
    ensures var end := Apply(fr, fo, codes, cpu, read, None);
            end.Some? ==> end.value.rsp == cpu.rsp + rsp - RspAfter(codes, rsp)
    decreases |codes|
  {
    if codes != [] {
      Kind(codes);
      SupportedRest(codes);
      var next := ApplyOne(fr, fo, codes[0], cpu, read);
      if next.Some? {
        RspMoves(fr, fo, codes[1..], next.value, read, rsp);
      }
    }
  }

  lemma {:induction false} FromFpIs(fr: nat, fo: nat, codes: seq<Code>, s: Machine)
    requires fr < 16 && Supported(codes) && HasFp(codes) && FpRule(codes, fr)
    ensures var t := FromFp(codes);
            && t != [] && t[0].op == SET_FPREG && Supported(t[1..]) && !HasFp(t[1..])
            && fr in Saved(t[1..])
            && After(fr, fo, codes, s).regs[fr] == RspAfter(t[1..], s.rsp) + fo * 16
    decreases |codes|
  {
    SupportedRest(codes);
    ExecRegs(fr, fo, codes, s);
    if codes[0].op != SET_FPREG {
      hide After, Supported;
      FromFpIs(fr, fo, codes[1..], s);
    }
  }

  /** A different word. */
  function Other(v: int): int
  {
    if v == 0 then 1 else 0
  }

  lemma FpLie(fr: nat, fo: nat, codes: seq<Code>, s: Machine, m: Memory, known: map<nat, int>,
              junk: set<nat>)
    requires fr < 16 && Supported(codes) && FpRule(codes, fr) && HasFp(codes)
    requires fr in Saved(Head(codes))
    ensures !RightWhereverMoved(fr, fo, codes, s, m, known, junk)
  {
    hide After, Supported, Ceiling, Lying, Readable, Held, Head, FromFp, RspAfter, FpRule, Saved;
    var c := Ceiling(codes, s.rsp);
    var lie := Other(After(fr, fo, codes, s).regs[fr]);
    var read := Lying(m, c, lie);
    LyingIsReadable(codes, s.rsp, m, lie);
    var next := HeadFar(fr, fo, codes, Cpu(c, known), m, c, lie);
    FromFpIs(fr, fo, codes, s);
    var t := FromFp(codes);
    var at := Cpu(lie - fo * 16, next.regs);
    assert Apply(fr, fo, t, next, read, None) == Apply(fr, fo, t[1..], at, read, None);
    RspMoves(fr, fo, t[1..], at, read, s.rsp);
    assert !Right(Apply(fr, fo, codes, Cpu(c, known), read, None), codes, s, junk);
  }

  lemma SaveLie(fr: nat, fo: nat, codes: seq<Code>, s: Machine, m: Memory, known: map<nat, int>,
                junk: set<nat>, r: nat)
    requires fr < 16 && Supported(codes) && r < 16
    requires r in Saved(Head(codes)) && r !in Saved(FromFp(codes))
    ensures !RightWhereverMoved(fr, fo, codes, s, m, known, junk)
  {
    var c := Ceiling(codes, s.rsp);
    var lie := Other(s.regs[r]);
    var read := Lying(m, c, lie);
    LyingIsReadable(codes, s.rsp, m, lie);
    var next := HeadFar(fr, fo, codes, Cpu(c, known), m, c, lie);
    NotSavedNotTouched(fr, fo, FromFp(codes), next, read, r);
    SavedSplits(codes);
    assert !Right(Apply(fr, fo, codes, Cpu(c, known), read, None), codes, s, junk);
  }

  lemma {:induction false} SavedIsRegister(codes: seq<Code>)
    requires Supported(codes)
    ensures forall r | r in Saved(codes) :: r < 16
  {
    if codes != [] {
      Kind(codes);
      SupportedRest(codes);
      SavedIsRegister(codes[1..]);
    }
  }

  /** The exact condition. The ABI measures save offsets from the frame base; the
      interpreter measures them from the current RSP, and that is harmless precisely when
      the codes are Shiftable. */
  lemma MovedStackIff(fr: nat, fo: nat, codes: seq<Code>, s: Machine, m: Memory,
                      known: map<nat, int>, junk: set<nat>)
    requires fr < 16 && Supported(codes) && Separate(codes, s.rsp) && FpRule(codes, fr)
    requires Sane(fo, codes, s) && Intact(fr, fo, codes, s, m) && HasFp(codes)
    requires fr in known && fr !in junk && Sound(known, After(fr, fo, codes, s).regs, junk)
    ensures RightWhereverMoved(fr, fo, codes, s, m, known, junk) <==> Shiftable(codes, fr)
  {
    if Shiftable(codes, fr) {
      forall rsp: int, read: Reader | Readable(codes, s.rsp, m, read)
        ensures Right(Apply(fr, fo, codes, Cpu(rsp, known), read, None), codes, s, junk)
      {
        Survives(fr, fo, codes, s, m, rsp, known, junk, read);
      }
    } else {
      SavedSplits(codes);
      SavedIsRegister(codes);
      var r :| r in Saved(Head(codes)) && !(r != fr && r in Saved(FromFp(codes)));
      if r == fr {
        FpLie(fr, fo, codes, s, m, known, junk);
      } else {
        SaveLie(fr, fo, codes, s, m, known, junk, r);
      }
    }
  }
}
