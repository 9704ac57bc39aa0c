/** The interpreter is the inverse of the prolog, from every point at which it may find it. */
module UnwindTheorems {
  import opened Naming
  import opened UnwindModel
  import opened UnwindMachine

  // ---- Undoing one instruction -----------------------------------------------------------

  function Junk(fr: nat, c: Code, junk: set<nat>): set<nat>
  {
    if Reads(c.op) then junk - {c.info} else if c.op == SET_FPREG then junk + {fr} else junk
  }

  /** A register comes back from its slot. */
  lemma SlotRead(fr: nat, fo: nat, codes: seq<Code>, s: Machine, m: Memory, read: Reader, a: int)
    requires fr < 16 && Supported(codes) && codes != [] && Supported(codes[1..])
    requires Sane(fo, codes, s) && Intact(fr, fo, codes, s, m) && Readable(codes, s.rsp, m, read)
    requires Reads(codes[0].op)
    requires a == RspAfter(codes[1..], s.rsp)
                  + (if codes[0].op == PUSH_NONVOL then -8 else Bytes(codes[0]))
    ensures codes[0].info < 16
    ensures read(a) == Some(After(fr, fo, codes[1..], s).regs[codes[0].info])
  {
    var s1 := After(fr, fo, codes[1..], s);
    RspIsRspAfter(fr, fo, codes[1..], s);
    SaneRest(fo, codes, s);
    WordsAfter(fr, fo, codes[1..], s);
    assert codes[0].info < 16;
    var v := s1.regs[codes[0].info];
    hide RspAfter, Sane, Supported;
    assert forall x | a <= x < a + 8 :: Touches(codes[0], s1.rsp, x);
    assert HeldWord(codes, s.rsp, a);
    assert After(fr, fo, codes, s) == Exec(fr, fo, codes[0], s1);
    forall x | a <= x < a + 8 ensures m(x) == Write(s1.mem, a, v, 8)(x) {
      assert Held(codes, s.rsp, x);
    }
    ReadBack(s1.mem, a, v, m);
  }

  lemma ExecRegs(fr: nat, fo: nat, codes: seq<Code>, s: Machine)
    requires fr < 16 && Supported(codes) && codes != [] && Supported(codes[1..])
    ensures var s1 := After(fr, fo, codes[1..], s);
            && s1.rsp == RspAfter(codes[1..], s.rsp)
            && After(fr, fo, codes, s).regs
               == if codes[0].op == SET_FPREG then s1.regs[fr := s1.rsp + fo * 16] else s1.regs
  {
    RspIsRspAfter(fr, fo, codes[1..], s);
    assert codes[0].info < 16;
    hide Write;
  }

  lemma Kind(codes: seq<Code>)
    requires Supported(codes) && codes != []
    ensures var op := codes[0].op;
            codes[0].info < 16 && (Reads(op) || IsAlloc(op) || IsXmm(op) || op == SET_FPREG)
  {
  }

  lemma UndoOne(fr: nat, fo: nat, codes: seq<Code>, s: Machine, m: Memory, cpu: Cpu,
                junk: set<nat>, read: Reader)
    requires fr < 16 && Supported(codes) && codes != [] && Supported(codes[1..])
    requires Sane(fo, codes, s) && Intact(fr, fo, codes, s, m) && Readable(codes, s.rsp, m, read)
    requires codes[0].op == SET_FPREG || cpu.rsp == RspAfter(codes, s.rsp)
    requires codes[0].op == SET_FPREG ==> fr !in junk
    requires Sound(cpu.regs, After(fr, fo, codes, s).regs, junk)
    ensures var r := ApplyOne(fr, fo, codes[0], cpu, read);
            && (r.None? <==> codes[0].op == SET_FPREG && fr !in cpu.regs)
            && (r.Some? ==>
                  && r.value.rsp == RspAfter(codes[1..], s.rsp)
                  && Sound(r.value.regs, After(fr, fo, codes[1..], s).regs, Junk(fr, codes[0], junk))
                  && r.value.regs.Keys
                     == cpu.regs.Keys + (if Reads(codes[0].op) then {codes[0].info} else {}))
  {
    hide Sane, Supported, Intact, Readable, After;
    ExecRegs(fr, fo, codes, s);
    Kind(codes);
    if codes[0].op == PUSH_NONVOL {
      SlotRead(fr, fo, codes, s, m, read, cpu.rsp);
    } else if IsSave(codes[0].op) {
      SlotRead(fr, fo, codes, s, m, read, cpu.rsp + Bytes(codes[0]));
    }
  }

  // ---- Undoing the prolog ----------------------------------------------------------------

  /** Run backwards over an intact stack, the codes of any prolog lead back to the entry:
      its RSP, every pushed or saved register, and everything else that was known. They give up
      only for want of the frame register. */
  lemma {:induction false} UndoAll(fr: nat, fo: nat, codes: seq<Code>, s: Machine, m: Memory,
                                   cpu: Cpu, junk: set<nat>, read: Reader)
    requires fr < 16 && Supported(codes) && Separate(codes, s.rsp) && FpRule(codes, fr)
    requires Sane(fo, codes, s) && Intact(fr, fo, codes, s, m) && Readable(codes, s.rsp, m, read)
    requires (codes != [] && codes[0].op == SET_FPREG) || cpu.rsp == RspAfter(codes, s.rsp)
    requires HasFp(codes) ==> fr !in junk
    requires Sound(cpu.regs, After(fr, fo, codes, s).regs, junk)
    ensures var r := Apply(fr, fo, codes, cpu, read, None);
            && (r.None? ==> HasFp(codes) && fr !in cpu.regs)
            && (r.Some? ==> r.value.rsp == s.rsp
                            && Sound(r.value.regs, s.regs, junk - Saved(codes))
                            && r.value.regs.Keys == cpu.regs.Keys + Saved(codes))
    decreases |codes|
  {
    hide Sane, Supported, Separate, Intact, Readable, ApplyOne, Sound, RspAfter;
    if codes == [] {
      assert junk - Saved(codes) == junk && cpu.regs.Keys + Saved(codes) == cpu.regs.Keys;
      EntryRsp(s.rsp);
    } else {
      SupportedRest(codes);
      SaneRest(fo, codes, s);
      UndoOne(fr, fo, codes, s, m, cpu, junk, read);
      IntactRest(fr, fo, codes, s, m);
      ReadableRest(codes, s.rsp, m, read);
      SeparateRest(codes, s.rsp);
      var one := ApplyOne(fr, fo, codes[0], cpu, read);
      if one.Some? {
        var next, junk' := one.value, Junk(fr, codes[0], junk);
        UndoAll(fr, fo, codes[1..], s, m, next, junk', read);
        var end := Apply(fr, fo, codes[1..], next, read, None);
        if end.Some? {
          SoundWeaker(end.value.regs, s.regs, junk' - Saved(codes[1..]), junk - Saved(codes));
        }
        assert cpu.regs.Keys + Saved(codes) == next.regs.Keys + Saved(codes[1..]);
      }
    }
  }

  lemma EntryRsp(rsp: int)
    ensures RspAfter([], rsp) == rsp
  {
  }

  lemma SoundWeaker(known: map<nat, int>, regs: Regs, junk: set<nat>, junk': set<nat>)
    requires Sound(known, regs, junk) && junk <= junk'
    ensures Sound(known, regs, junk')
  {
  }

  lemma ReadableRest(codes: seq<Code>, rsp: int, m: Memory, read: Reader)
    requires Readable(codes, rsp, m, read) && codes != []
    ensures Readable(codes[1..], rsp, m, read)
  {
    forall a | HeldWord(codes[1..], rsp, a) ensures read(a) == Some(Read(m, a, 8)) {
      assert HeldWord(codes, rsp, a);
    }
  }

  lemma SeparateRest(codes: seq<Code>, rsp: int)
    requires Separate(codes, rsp) && codes != []
    ensures Separate(codes[1..], rsp)
  {
  }

  // ---- Cut points ------------------------------------------------------------------------

  /** The codes whose instructions have run when the prolog is left at `cut`. */
  function Executed(codes: seq<Code>, cut: Option<int>): seq<Code>
  {
    if codes == [] then []
    else if Skipped(codes[0], cut) then Executed(codes[1..], cut)
    else [codes[0]] + Executed(codes[1..], cut)
  }

  lemma {:induction false} CutApplies(fr: nat, fo: nat, codes: seq<Code>, cpu: Cpu, read: Reader,
                                      cut: Option<int>)
    ensures Apply(fr, fo, codes, cpu, read, cut) == Apply(fr, fo, Executed(codes, cut), cpu, read, None)
    decreases |codes|
  {
    hide ApplyOne;
    if codes != [] {
      if Skipped(codes[0], cut) {
        CutApplies(fr, fo, codes[1..], cpu, read, cut);
      } else {
        var next := ApplyOne(fr, fo, codes[0], cpu, read);
        assert Executed(codes, cut)[1..] == Executed(codes[1..], cut);
        if next.Some? {
          CutApplies(fr, fo, codes[1..], next.value, read, cut);
        }
      }
    }
  }

  predicate Descending(codes: seq<Code>)
  {
    forall i, j | 0 <= i < j < |codes| :: codes[i].off >= codes[j].off
  }

  /** In descending order a cut takes a suffix of the array: exactly the instructions that
      end at or before it. */
  lemma {:induction false} CutIsSuffix(codes: seq<Code>, cut: int) returns (n: nat)
    requires Descending(codes)
    ensures n <= |codes| && Executed(codes, Some(cut)) == codes[n..]
    ensures forall i | 0 <= i < |codes| :: i < n <==> codes[i].off > cut
    decreases |codes|
  {
    if codes == [] {
      n := 0;
    } else if Skipped(codes[0], Some(cut)) {
      assert forall i | 0 <= i < |codes[1..]| :: codes[1..][i] == codes[i + 1];
      var k := CutIsSuffix(codes[1..], cut);
      n := k + 1;
      assert codes[1..][k..] == codes[n..];
      forall i | 0 <= i < |codes| ensures i < n <==> codes[i].off > cut {
        if i > 0 { assert codes[i] == codes[1..][i - 1]; }
      }
    } else {
      n := 0;
      AllExecuted(codes, cut);
      assert codes[0..] == codes;
    }
  }

  lemma {:induction false} AllExecuted(codes: seq<Code>, cut: int)
    requires forall i | 0 <= i < |codes| :: codes[i].off <= cut
    ensures Executed(codes, Some(cut)) == codes
    decreases |codes|
  {
    if codes != [] {
      assert forall i | 0 <= i < |codes[1..]| :: codes[1..][i] == codes[i + 1];
      AllExecuted(codes[1..], cut);
      assert codes == [codes[0]] + codes[1..];
    }
  }

  /** Unwinding undoes the prolog, wherever in it the fault struck: with the registers known
      at the cut, RSP and every register known or saved are back at their entry values. */
  lemma UnwindUndoesProlog(fr: nat, fo: nat, codes: seq<Code>, cut: Option<int>, s: Machine,
                           known: map<nat, int>, read: Reader)
    requires fr < 16
    requires var done := Executed(codes, cut);
             && Supported(done) && Separate(done, s.rsp) && FpRule(done, fr) && Sane(fo, done, s)
             && var now := After(fr, fo, done, s);
             && Readable(done, s.rsp, now.mem, read)
             && Sound(known, now.regs, {}) && (HasFp(done) ==> fr in known)
    ensures var done := Executed(codes, cut);
            var r := Apply(fr, fo, codes, Cpu(After(fr, fo, done, s).rsp, known), read, cut);
            && r.Some? && r.value.rsp == s.rsp
            && r.value.regs.Keys == known.Keys + Saved(done)
            && forall k | k in r.value.regs && k < 16 :: r.value.regs[k] == s.regs[k]
  {
    var done := Executed(codes, cut);
    var now := After(fr, fo, done, s);
    CutApplies(fr, fo, codes, Cpu(now.rsp, known), read, cut);
    RspIsRspAfter(fr, fo, done, s);
    UndoAll(fr, fo, done, s, now.mem, Cpu(now.rsp, known), {}, read);
  }

  // ---- A body that moved the stack ---------------------------------------------------------

  /** The codes before the frame register's (the instructions after it), and the rest. */
  function Head(codes: seq<Code>): seq<Code>
  {
    if codes == [] || codes[0].op == SET_FPREG then [] else [codes[0]] + Head(codes[1..])
  }

  function FromFp(codes: seq<Code>): seq<Code>
  {
    if codes == [] || codes[0].op == SET_FPREG then codes else FromFp(codes[1..])
  }

  /** Nothing the prolog saved after setting the frame register depends on the RSP that the
      body has moved since: the frame register was not saved there, and what was saved
      there had been saved before. */
  predicate Shiftable(codes: seq<Code>, fr: nat)
  {
    HasFp(codes) && forall r | r in Saved(Head(codes)) :: r != fr && r in Saved(FromFp(codes))
  }

  lemma {:induction false} SavedSplits(codes: seq<Code>)
    ensures Saved(codes) == Saved(Head(codes)) + Saved(FromFp(codes))
    decreases |codes|
  {
    if codes != [] && codes[0].op != SET_FPREG {
      SavedSplits(codes[1..]);
      assert Head(codes)[1..] == Head(codes[1..]);
    }
  }

  ghost predicate Right(r: Option<Cpu>, codes: seq<Code>, s: Machine, junk: set<nat>)
  {
    r.Some? && r.value.rsp == s.rsp && Sound(r.value.regs, s.regs, junk - Saved(codes))
  }

  lemma ApplyOneAnywhere(fr: nat, fo: nat, c: Code, cpu: Cpu, read: Reader)
    requires c.info < 16 && (Reads(c.op) || IsAlloc(c.op) || IsXmm(c.op))
    ensures var r := ApplyOne(fr, fo, c, cpu, read);
            && r.Some? && cpu.rsp <= r.value.rsp
            && cpu.regs.Keys <= r.value.regs.Keys
            && (forall k | k in cpu.regs && !(Reads(c.op) && k == c.info) :: r.value.regs[k] == cpu.regs[k])
            && (forall k | k in r.value.regs && k !in cpu.regs :: Reads(c.op) && k == c.info)
  {
  }

  /** From any RSP whatever: what the frame register leads back to is right, except for
      registers read from the moved stack and not read again. */
  lemma {:induction false} UndoMoved(fr: nat, fo: nat, codes: seq<Code>, s: Machine, m: Memory,
                                     cpu: Cpu, junk: set<nat>, read: Reader)
    requires fr < 16 && Supported(codes) && Separate(codes, s.rsp) && FpRule(codes, fr)
    requires Sane(fo, codes, s) && Intact(fr, fo, codes, s, m) && Readable(codes, s.rsp, m, read)
    requires HasFp(codes) && fr !in junk && fr !in Saved(Head(codes))
    requires Sound(cpu.regs, After(fr, fo, codes, s).regs, junk)
    ensures var r := Apply(fr, fo, codes, cpu, read, None);
            && (r.None? <==> fr !in cpu.regs)
            && (r.Some? ==> r.value.rsp == s.rsp
                            && Sound(r.value.regs, s.regs,
                                     junk + Saved(Head(codes)) - Saved(FromFp(codes)))
                            && cpu.regs.Keys <= r.value.regs.Keys)
    decreases |codes|
  {
    hide Sane, Supported, Separate, Intact, Readable, RspAfter, ApplyOne;
    if codes[0].op == SET_FPREG {
      hide Sound;
      UndoAll(fr, fo, codes, s, m, cpu, junk, read);
      assert junk + Saved(Head(codes)) == junk;
      if fr !in cpu.regs { FpUnknown(fr, fo, codes, cpu, read); }
    } else {
      SupportedRest(codes);
      Kind(codes);
      SaneRest(fo, codes, s);
      ExecRegs(fr, fo, codes, s);
      IntactRest(fr, fo, codes, s, m);
      ReadableRest(codes, s.rsp, m, read);
      SeparateRest(codes, s.rsp);
      ApplyOneAnywhere(fr, fo, codes[0], cpu, read);
      var next := ApplyOne(fr, fo, codes[0], cpu, read).value;
      var junk' := if Reads(codes[0].op) then junk + {codes[0].info} else junk;
      assert Head(codes)[1..] == Head(codes[1..]);
      UndoMoved(fr, fo, codes[1..], s, m, next, junk', read);
      assert junk' + Saved(Head(codes[1..])) - Saved(FromFp(codes[1..]))
          == junk + Saved(Head(codes)) - Saved(FromFp(codes));
    }
  }

  lemma FpUnknown(fr: nat, fo: nat, codes: seq<Code>, cpu: Cpu, read: Reader)
    requires codes != [] && codes[0].op == SET_FPREG && fr !in cpu.regs
    ensures Apply(fr, fo, codes, cpu, read, None).None?
  {
  }
}
