/** The x64 unwinder of the crash collector as functions: a byte parser for UNWIND_INFO
    (the layout of "struct UNWIND_INFO" and "struct UNWIND_CODE" in Microsoft's x64
    exception handling ABI), the backward interpreter of its codes, and the walk over
    frames. */
module UnwindModel {
  import opened Naming

  type byte = x: int | 0 <= x < 256

  const PUSH_NONVOL := 0
  const ALLOC_LARGE := 1
  const ALLOC_SMALL := 2
  const SET_FPREG := 3
  const SAVE_NONVOL := 4
  const SAVE_NONVOL_FAR := 5
  const SAVE_XMM128 := 8
  const SAVE_XMM128_FAR := 9
  const PUSH_MACHFRAME := 10

  const MAX_CHAIN := 4

  // ---- Bytes -------------------------------------------------------------------------

  function U16(data: seq<byte>, p: nat): nat
    requires p + 2 <= |data|
  {
    data[p] as nat + 256 * data[p + 1] as nat
  }

  function U32(data: seq<byte>, p: nat): nat
    requires p + 4 <= |data|
  {
    U16(data, p) + 65536 * U16(data, p + 2)
  }

  datatype Section = Section(vaddr: nat, vsize: nat, rawPtr: nat, rawSize: nat)

  /** Where an address lies in the file: the first section that covers it. */
  function RvaToOff(sections: seq<Section>, rva: nat): Option<nat>
  {
    if sections == [] then None
    else
      var s := sections[0];
      if s.vaddr <= rva < s.vaddr + (if s.vsize >= s.rawSize then s.vsize else s.rawSize)
      then Some(s.rawPtr + (rva - s.vaddr))
      else RvaToOff(sections[1..], rva)
  }

  // ---- Parser ------------------------------------------------------------------------

  datatype Code = Code(off: nat, op: nat, info: nat, operand: Option<nat>)

  datatype Chain = Chain(begin: nat, end: nat, unwind: nat)

  datatype Info = Info(flags: nat, prolog: nat, codes: seq<Code>, frameReg: nat,
                       frameOffset: nat, chain: Option<Chain>)

  /** Two-byte units that follow a code as its operand. */
  function Inline(op: nat, info: nat): nat
  {
    if op == ALLOC_LARGE then (if info == 0 then 1 else 2)
    else if op == SAVE_NONVOL || op == SAVE_XMM128 then 1
    else if op == SAVE_NONVOL_FAR || op == SAVE_XMM128_FAR then 2
    else 0
  }

  /** The operand as the interpreter uses it: a size or offset in bytes. */
  function OperandAt(data: seq<byte>, p: nat, op: nat, info: nat): Option<nat>
    requires p + 2 * Inline(op, info) <= |data|
  {
    if op == ALLOC_LARGE then Some(if info == 0 then U16(data, p) * 8 else U32(data, p))
    else if op == ALLOC_SMALL then Some((info + 1) * 8)
    else if op == SAVE_NONVOL then Some(U16(data, p) * 8)
    else if op == SAVE_XMM128 then Some(U16(data, p) * 16)
    else if op == SAVE_NONVOL_FAR || op == SAVE_XMM128_FAR then Some(U32(data, p))
    else None
  }

  function ParseOne(data: seq<byte>, p: nat): Option<Code>
  {
    if p + 2 > |data| then None
    else
      var op := data[p + 1] % 16;
      var info := data[p + 1] / 16;
      if p + 2 + 2 * Inline(op, info) > |data| then None
      else Some(Code(data[p], op, info, OperandAt(data, p + 2, op, info)))
  }

  function SlotsOf(c: Code): nat
  {
    1 + Inline(c.op, c.info)
  }

  datatype Parsed = Parsed(codes: seq<Code>, next: nat)

  /** From position `p` on, with `i` of `count` slots consumed. */
  function ParseCodes(data: seq<byte>, p: nat, i: nat, count: nat): Option<Parsed>
    decreases if i < count then count - i else 0
  {
    if i >= count then Some(Parsed([], p))
    else
      var c := ParseOne(data, p);
      if c.None? then None
      else
        var n := SlotsOf(c.value);
        var rest := ParseCodes(data, p + 2 * n, i + n, count);
        if rest.None? then None
        else Some(Parsed([c.value] + rest.value.codes, rest.value.next))
  }

  predicate ChainFlag(flags: nat)
  {
    flags / 4 % 2 == 1
  }

  function ParseInfo(data: seq<byte>, sections: seq<Section>, rva: nat): Option<Info>
  {
    var at := RvaToOff(sections, rva);
    if at.None? || at.value + 4 > |data| then None
    else
      var off := at.value;
      var count := data[off + 2];
      var parsed := ParseCodes(data, off + 4, 0, count);
      if parsed.None? then None
      else
        var flags := data[off] / 8;
        Some(Info(flags, data[off + 1], parsed.value.codes, data[off + 3] % 16,
                  data[off + 3] / 16,
                  ParseChain(data, parsed.value.next + (if count % 2 == 1 then 2 else 0), flags)))
  }

  function ParseChain(data: seq<byte>, p: nat, flags: nat): Option<Chain>
  {
    if ChainFlag(flags) && p + 12 <= |data|
    then Some(Chain(U32(data, p), U32(data, p + 4), U32(data, p + 8)))
    else None
  }

  // ---- Interpreter -------------------------------------------------------------------

  type Reader = int -> Option<int>

  datatype Cpu = Cpu(rsp: int, regs: map<nat, int>)

  predicate IsAlloc(op: nat)
  {
    op == ALLOC_SMALL || op == ALLOC_LARGE
  }

  predicate IsSave(op: nat)
  {
    op == SAVE_NONVOL || op == SAVE_NONVOL_FAR
  }

  predicate IsXmm(op: nat)
  {
    op == SAVE_XMM128 || op == SAVE_XMM128_FAR
  }

  function Restore(regs: map<nat, int>, r: nat, v: Option<int>): map<nat, int>
  {
    if v.Some? then regs[r := v.value] else regs
  }

  function Bytes(c: Code): nat
  {
    if c.operand.Some? then c.operand.value else 0
  }

  /** One code undone; None where the interpreter gives up. */
  function ApplyOne(fr: nat, fo: nat, c: Code, cpu: Cpu, read: Reader): Option<Cpu>
  {
    if c.op == PUSH_NONVOL then
      Some(Cpu(cpu.rsp + 8, Restore(cpu.regs, c.info, read(cpu.rsp))))
    else if IsAlloc(c.op) then Some(cpu.(rsp := cpu.rsp + Bytes(c)))
    else if c.op == SET_FPREG then
      (if fr in cpu.regs then Some(cpu.(rsp := cpu.regs[fr] - fo * 16)) else None)
    else if IsSave(c.op) then
      Some(cpu.(regs := Restore(cpu.regs, c.info, read(cpu.rsp + Bytes(c)))))
    else if IsXmm(c.op) then Some(cpu)
    else if c.op == PUSH_MACHFRAME then
      Some(cpu.(rsp := cpu.rsp + 8 + (if c.info != 0 then 8 else 0)))
    else None
  }

  predicate Skipped(c: Code, cut: Option<int>)
  {
    cut.Some? && c.off > cut.value
  }

  function Apply(fr: nat, fo: nat, codes: seq<Code>, cpu: Cpu, read: Reader, cut: Option<int>)
    : Option<Cpu>
    decreases |codes|
  {
    if codes == [] then Some(cpu)
    else if Skipped(codes[0], cut) then Apply(fr, fo, codes[1..], cpu, read, cut)
    else
      var next := ApplyOne(fr, fo, codes[0], cpu, read);
      if next.None? then None else Apply(fr, fo, codes[1..], next.value, read, cut)
  }

  // ---- Walk --------------------------------------------------------------------------

  datatype Module = Module(name: string, base: nat, size: nat)

  datatype Function = Function(begin: nat, end: nat, unwind: nat)

  datatype Pe = Pe(data: seq<byte>, sections: seq<Section>, functions: seq<Function>)

  datatype Image = Image(modules: seq<Module>, pes: map<string, Pe>, read: Reader)

  function ModuleFor(modules: seq<Module>, addr: int): Option<Module>
  {
    if modules == [] then None
    else if modules[0].base <= addr < modules[0].base + modules[0].size then Some(modules[0])
    else ModuleFor(modules[1..], addr)
  }

  function FindFunction(functions: seq<Function>, rva: nat): Option<Function>
  {
    if functions == [] then None
    else if functions[0].begin <= rva < functions[0].end then Some(functions[0])
    else FindFunction(functions[1..], rva)
  }

  /** Follows chained entries; gives up beyond MAX_CHAIN of them. */
  function Unchain(pe: Pe, info: Option<Info>, depth: nat): Option<Info>
    requires depth <= MAX_CHAIN
    decreases MAX_CHAIN - depth
  {
    if info.Some? && ChainFlag(info.value.flags) && info.value.chain.Some? then
      if depth == MAX_CHAIN then None
      else Unchain(pe, ParseInfo(pe.data, pe.sections, info.value.chain.value.unwind), depth + 1)
    else info
  }

  /** What applies at an address: codes, and how far into the prolog the address is. */
  datatype Place =
    | Nowhere
    | Unresolved
    | Inside(info: Info, cut: Option<int>)

  function Locate(image: Image, rip: int): Place
  {
    var m := ModuleFor(image.modules, rip);
    if m.None? then Nowhere
    else if m.value.name !in image.pes || rip < m.value.base then Unresolved
    else
      var pe := image.pes[m.value.name];
      var rva: nat := rip - m.value.base;
      var f := FindFunction(pe.functions, rva);
      if f.None? then Unresolved
      else
        var info := Unchain(pe, ParseInfo(pe.data, pe.sections, f.value.unwind), 0);
        if info.None? then Unresolved
        else
          var into := rva - f.value.begin;
          Inside(info.value,
                 if info.value.prolog != 0 && 0 <= into < info.value.prolog then Some(into) else None)
  }

  datatype Frame = Frame(rip: int, cpu: Cpu)

  function Return(read: Reader, cpu: Cpu): Option<Frame>
  {
    var ret := read(cpu.rsp);
    if ret.None? || ret.value == 0 then None else Some(Frame(ret.value, cpu.(rsp := cpu.rsp + 8)))
  }

  function Step(image: Image, f: Frame): Option<Frame>
  {
    match Locate(image, f.rip)
    case Nowhere => Return(image.read, f.cpu)
    case Unresolved => None
    case Inside(info, cut) =>
      var cpu := Apply(info.frameReg, info.frameOffset, info.codes, f.cpu, image.read, cut);
      if cpu.None? then None else Return(image.read, cpu.value)
  }

  /** The return addresses, innermost first. */
  function Walk(image: Image, f: Frame, frames: nat): seq<int>
    decreases frames
  {
    if frames == 0 then []
    else
      var next := Step(image, f);
      if next.None? then [] else [next.value.rip] + Walk(image, next.value, frames - 1)
  }
}
