/** The unwinder's loops, proved to compute the functions of UnwindModel, so that the
    codec and the inverse theorems hold of them. */
module Unwind {
  import opened Naming
  import opened UnwindModel
  import M = UnwindModel

  method RvaToOff(sections: seq<Section>, rva: nat) returns (off: Option<nat>)
    ensures off == M.RvaToOff(sections, rva)
  {
    assert sections[0..] == sections;
    for j := 0 to |sections|
      invariant M.RvaToOff(sections[j..], rva) == M.RvaToOff(sections, rva)
    {
      assert sections[j..][1..] == sections[j + 1..] && sections[j..][0] == sections[j];
      var s := sections[j];
      if s.vaddr <= rva < s.vaddr + (if s.vsize >= s.rawSize then s.vsize else s.rawSize) {
        return Some(s.rawPtr + (rva - s.vaddr));
      }
    }
    return None;
  }

  /** Codes already read in front of what is still to come. */
  function Prepend(codes: seq<Code>, rest: Option<Parsed>): Option<Parsed>
  {
    if rest.None? then None else Some(Parsed(codes + rest.value.codes, rest.value.next))
  }

  /** The cursor loop over the code array. No read leaves the buffer. */
  method ParseCodes(data: seq<byte>, start: nat, count: nat) returns (r: Option<Parsed>)
    ensures r == M.ParseCodes(data, start, 0, count)
  {
    var p: nat, i: nat := start, 0;
    var codes: seq<Code> := [];
    ghost var goal := M.ParseCodes(data, start, 0, count);
    assert goal.Some? ==> [] + goal.value.codes == goal.value.codes;
    while i < count
      invariant Prepend(codes, M.ParseCodes(data, p, i, count)) == goal
      decreases if i < count then count - i else 0
    {
      hide OperandAt, Inline, SlotsOf;
      ghost var was := M.ParseCodes(data, p, i, count);
      ghost var one := ParseOne(data, p);
      if p + 2 > |data| {
        return None;
      }
      var off, op, info := data[p], data[p + 1] % 16, data[p + 1] / 16;
      var extra := Inline(op, info);
      if p + 2 + 2 * extra > |data| {
        return None;
      }
      var c := Code(off, op, info, OperandAt(data, p + 2, op, info));
      assert one == Some(c);
      SlotsAre(c);
      ghost var rest := M.ParseCodes(data, p + 2 + 2 * extra, i + 1 + extra, count);
      assert was == Prepend([c], rest);
      assert rest.Some? ==> codes + ([c] + rest.value.codes) == (codes + [c]) + rest.value.codes;
      codes := codes + [c];
      p, i := p + 2 + 2 * extra, i + 1 + extra;
    }
    assert codes + [] == codes;
    return Some(Parsed(codes, p));
  }

  lemma SlotsAre(c: Code)
    ensures SlotsOf(c) == 1 + Inline(c.op, c.info)
  {
  }

  method ParseUnwindInfo(data: seq<byte>, sections: seq<Section>, rva: nat) returns (r: Option<Info>)
    ensures r == ParseInfo(data, sections, rva)
  {
    var at := RvaToOff(sections, rva);
    if at.None? || at.value + 4 > |data| {
      return None;
    }
    var off := at.value;
    var flags, prolog, count := data[off] / 8, data[off + 1], data[off + 2];
    var parsed := ParseCodes(data, off + 4, count);
    if parsed.None? {
      return None;
    }
    var p := parsed.value.next;
    if count % 2 == 1 {
      p := p + 2;
    }
    var chain: Option<Chain> := None;
    if ChainFlag(flags) && p + 12 <= |data| {
      chain := Some(Chain(U32(data, p), U32(data, p + 4), U32(data, p + 8)));
    }
    return Some(Info(flags, prolog, parsed.value.codes, data[off + 3] % 16, data[off + 3] / 16, chain));
  }

  /** The codes undone in array order; `regs` are the registers restored so far. */
  method ApplyUnwind(info: Info, cpu: Cpu, read: Reader, cut: Option<int>) returns (r: Option<Cpu>)
    ensures r == Apply(info.frameReg, info.frameOffset, info.codes, cpu, read, cut)
  {
    var rsp, regs: map<nat, int> := cpu.rsp, cpu.regs;
    var codes := info.codes;
    ghost var goal := Apply(info.frameReg, info.frameOffset, codes, cpu, read, cut);
    assert codes[0..] == codes;
    for j := 0 to |codes|
      invariant Apply(info.frameReg, info.frameOffset, codes[j..], Cpu(rsp, regs), read, cut) == goal
    {
      assert codes[j..][1..] == codes[j + 1..] && codes[j..][0] == codes[j];
      var c := codes[j];
      if cut.Some? && c.off > cut.value {
        continue;
      }
      if c.op == PUSH_NONVOL {
        regs := Restore(regs, c.info, read(rsp));
        rsp := rsp + 8;
      } else if c.op == ALLOC_SMALL || c.op == ALLOC_LARGE {
        rsp := rsp + Bytes(c);
      } else if c.op == SET_FPREG {
        if info.frameReg !in regs {
          return None;
        }
        rsp := regs[info.frameReg] - info.frameOffset * 16;
      } else if c.op == SAVE_NONVOL || c.op == SAVE_NONVOL_FAR {
        regs := Restore(regs, c.info, read(rsp + Bytes(c)));
      } else if c.op == SAVE_XMM128 || c.op == SAVE_XMM128_FAR {
      } else if c.op == PUSH_MACHFRAME {
        rsp := rsp + 8 + (if c.info != 0 then 8 else 0);
      } else {
        return None;
      }
    }
    return Some(Cpu(rsp, regs));
  }

  /** Chained entries followed, MAX_CHAIN of them at most. */
  method FollowChain(pe: Pe, first: Option<Info>) returns (info: Option<Info>)
    ensures info == Unchain(pe, first, 0)
  {
    info := first;
    var depth := 0;
    while info.Some? && ChainFlag(info.value.flags) && info.value.chain.Some?
      invariant depth <= MAX_CHAIN && Unchain(pe, info, depth) == Unchain(pe, first, 0)
      decreases MAX_CHAIN - depth
    {
      hide ParseInfo;
      if depth == MAX_CHAIN {
        return None;
      }
      info := ParseUnwindInfo(pe.data, pe.sections, info.value.chain.value.unwind);
      depth := depth + 1;
    }
  }

  method ModuleFor(modules: seq<Module>, addr: int) returns (m: Option<Module>)
    ensures m == M.ModuleFor(modules, addr)
  {
    assert modules[0..] == modules;
    for j := 0 to |modules|
      invariant M.ModuleFor(modules[j..], addr) == M.ModuleFor(modules, addr)
    {
      assert modules[j..][1..] == modules[j + 1..] && modules[j..][0] == modules[j];
      if modules[j].base <= addr < modules[j].base + modules[j].size {
        return Some(modules[j]);
      }
    }
    return None;
  }

  method FindFunction(functions: seq<Function>, rva: nat) returns (f: Option<Function>)
    ensures f == M.FindFunction(functions, rva)
  {
    assert functions[0..] == functions;
    for j := 0 to |functions|
      invariant M.FindFunction(functions[j..], rva) == M.FindFunction(functions, rva)
    {
      assert functions[j..][1..] == functions[j + 1..] && functions[j..][0] == functions[j];
      if functions[j].begin <= rva < functions[j].end {
        return Some(functions[j]);
      }
    }
    return None;
  }

  lemma {:induction false} FoundModule(modules: seq<Module>, addr: int)
    ensures var m := M.ModuleFor(modules, addr);
            m.Some? ==> m.value.base <= addr < m.value.base + m.value.size
  {
    if modules != [] { FoundModule(modules[1..], addr); }
  }

  method Resolve(image: Image, rip: int) returns (place: Place)
    ensures place == Locate(image, rip)
  {
    var m := ModuleFor(image.modules, rip);
    if m.None? {
      return Nowhere;
    }
    FoundModule(image.modules, rip);
    if m.value.name !in image.pes {
      return Unresolved;
    }
    var pe := image.pes[m.value.name];
    var rva: nat := rip - m.value.base;
    var f := FindFunction(pe.functions, rva);
    if f.None? {
      return Unresolved;
    }
    var first := ParseUnwindInfo(pe.data, pe.sections, f.value.unwind);
    var info := FollowChain(pe, first);
    if info.None? {
      return Unresolved;
    }
    var into := rva - f.value.begin;
    return Inside(info.value,
                  if info.value.prolog != 0 && 0 <= into < info.value.prolog then Some(into) else None);
  }

  /** The body of the frame loop; None where the source breaks out of it. */
  method OneFrame(image: Image, cur: Frame) returns (next: Option<Frame>)
    ensures next == Step(image, cur)
  {
    hide Locate, Apply;
    var place := Resolve(image, cur.rip);
    var cpu := Some(cur.cpu);
    if place.Unresolved? {
      return None;
    }
    if place.Inside? {
      cpu := ApplyUnwind(place.info, cur.cpu, image.read, place.cut);
    }
    if cpu.None? {
      return None;
    }
    var ret := image.read(cpu.value.rsp);
    if ret.None? || ret.value == 0 {
      return None;
    }
    return Some(Frame(ret.value, cpu.value.(rsp := cpu.value.rsp + 8)));
  }

  /** Ordered return addresses from a faulting context; RBP is all that is known at first. */
  method X64Unwind(image: Image, rip: int, rsp: int, rbp: int, maxFrames: nat) returns (out: seq<int>)
    ensures out == Walk(image, Frame(rip, Cpu(rsp, map[5 := rbp])), maxFrames)
    ensures |out| <= maxFrames
  {
    var cur := Frame(rip, Cpu(rsp, map[5 := rbp]));
    out := [];
    ghost var goal := Walk(image, cur, maxFrames);
    for n := 0 to maxFrames
      invariant out + Walk(image, cur, maxFrames - n) == goal && |out| == n
    {
      hide Step;
      var next := OneFrame(image, cur);
      if next.None? {
        return;
      }
      assert out + ([next.value.rip] + Walk(image, next.value, maxFrames - n - 1))
          == (out + [next.value.rip]) + Walk(image, next.value, maxFrames - n - 1);
      out := out + [next.value.rip];
      cur := next.value;
    }
  }
}
