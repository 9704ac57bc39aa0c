/** What a prolog does to the machine, and that the interpreter runs it backwards. */
module UnwindMachine {
  import opened Naming
  import opened UnwindModel

  // ---- Memory ------------------------------------------------------------------------

  type Memory = int -> byte

  const WORD := 0x1_0000_0000_0000_0000

  function ByteOf(v: int, i: nat): byte
    decreases i
  {
    if i == 0 then v % 256 else ByteOf(v / 256, i - 1)
  }

  /** Little-endian store of `n` bytes. */
  function Write(m: Memory, a: int, v: int, n: nat): Memory
  {
    x => if a <= x < a + n then ByteOf(v, x - a) else m(x)
  }

  function Read(m: Memory, a: int, n: nat): nat
    decreases n
  {
    if n == 0 then 0 else m(a) as nat + 256 * Read(m, a + 1, n - 1)
  }

  function Power(n: nat): nat
  {
    if n == 0 then 1 else 256 * Power(n - 1)
  }

  lemma {:induction false} ReadBytes(m: Memory, a: int, v: int, n: nat)
    requires 0 <= v < Power(n) && forall x | a <= x < a + n :: m(x) == ByteOf(v, x - a)
    ensures Read(m, a, n) == v
    decreases n
  {
    if n > 0 {
      assert m(a) == ByteOf(v, 0) == v % 256;
      forall x | a + 1 <= x < a + n ensures m(x) == ByteOf(v / 256, x - (a + 1)) {
        assert ByteOf(v, x - a) == ByteOf(v / 256, x - a - 1);
      }
      ReadBytes(m, a + 1, v / 256, n - 1);
    }
  }

  lemma PowerOfWord()
    ensures Power(8) == WORD
  {
    assert Power(4) == 0x1_0000_0000;
    assert Power(5) == 256 * Power(4);
    assert Power(6) == 256 * Power(5);
    assert Power(7) == 256 * Power(6);
  }

  /** A word read where it was written, from any memory that kept those bytes. */
  lemma ReadBack(m: Memory, a: int, v: int, m': Memory)
    requires 0 <= v < WORD && forall x | a <= x < a + 8 :: m'(x) == Write(m, a, v, 8)(x)
    ensures Read(m', a, 8) == v
  {
    PowerOfWord();
    ReadBytes(m', a, v, 8);
  }

  // ---- The machine -------------------------------------------------------------------

  type Regs = s: seq<int> | |s| == 16 witness seq(16, i => 0)

  datatype Machine = Machine(rsp: int, regs: Regs, xmm: Regs, mem: Memory)

  predicate Reads(op: nat)
  {
    op == PUSH_NONVOL || IsSave(op)
  }

  /** Pushes, allocations, register and XMM saves, frame register. */
  predicate Supported(codes: seq<Code>)
  {
    forall i | 0 <= i < |codes| ::
      codes[i].info < 16
      && (Reads(codes[i].op) || IsAlloc(codes[i].op) || IsXmm(codes[i].op) || codes[i].op == SET_FPREG)
  }

  /** One prolog instruction, forwards. */
  function Exec(fr: nat, fo: nat, c: Code, s: Machine): Machine
    requires fr < 16 && c.info < 16
  {
    if c.op == PUSH_NONVOL then
      s.(rsp := s.rsp - 8, mem := Write(s.mem, s.rsp - 8, s.regs[c.info], 8))
    else if IsAlloc(c.op) then s.(rsp := s.rsp - Bytes(c))
    else if c.op == SET_FPREG then s.(regs := s.regs[fr := s.rsp + fo * 16])
    else if IsSave(c.op) then
      s.(mem := Write(s.mem, s.rsp + Bytes(c), s.regs[c.info], 8))
    else if IsXmm(c.op) then s.(mem := Write(s.mem, s.rsp + Bytes(c), s.xmm[c.info], 16))
    else s
  }

  /** The state after the prolog that `codes` describe. The array lists the last
      instruction first. */
  function After(fr: nat, fo: nat, codes: seq<Code>, s: Machine): Machine
    requires fr < 16 && Supported(codes)
    decreases |codes|
  {
    if codes == [] then s
    else
      assert Supported(codes[1..]) by { assert forall i | 0 <= i < |codes[1..]| :: codes[1..][i] == codes[i + 1]; }
      Exec(fr, fo, codes[0], After(fr, fo, codes[1..], s))
  }

  function RspAfter(codes: seq<Code>, rsp: int): int
  {
    if codes == [] then rsp
    else
      RspAfter(codes[1..], rsp)
      - (if codes[0].op == PUSH_NONVOL then 8 else if IsAlloc(codes[0].op) then Bytes(codes[0]) else 0)
  }

  function Saved(codes: seq<Code>): set<nat>
  {
    if codes == [] then {}
    else (if Reads(codes[0].op) then {codes[0].info} else {}) + Saved(codes[1..])
  }

  predicate HasFp(codes: seq<Code>)
  {
    codes != [] && (codes[0].op == SET_FPREG || HasFp(codes[1..]))
  }

  /** The frame register is set at most once, and saved before. */
  predicate FpRule(codes: seq<Code>, fr: nat)
  {
    codes == [] || (FpRule(codes[1..], fr)
                    && (codes[0].op == SET_FPREG ==> fr in Saved(codes[1..]) && !HasFp(codes[1..])))
  }

  // ---- Slots -------------------------------------------------------------------------

  /** Bytes an instruction stores to when it runs at `rsp`. */
  predicate Touches(c: Code, rsp: int, x: int)
  {
    || (c.op == PUSH_NONVOL && rsp - 8 <= x < rsp)
    || (IsSave(c.op) && rsp + Bytes(c) <= x < rsp + Bytes(c) + 8)
    || (IsXmm(c.op) && rsp + Bytes(c) <= x < rsp + Bytes(c) + 16)
  }

  /** Bytes that hold the return address or a saved register. */
  predicate Held(codes: seq<Code>, rsp: int, x: int)
  {
    if codes == [] then rsp <= x < rsp + 8
    else Held(codes[1..], rsp, x)
         || (Reads(codes[0].op) && Touches(codes[0], RspAfter(codes[1..], rsp), x))
  }

  /** No store of the prolog hits the return address or an earlier save. */
  ghost predicate Separate(codes: seq<Code>, rsp: int)
  {
    codes == []
    || (Separate(codes[1..], rsp)
        && forall x | Held(codes[1..], rsp, x) :: !Touches(codes[0], RspAfter(codes[1..], rsp), x))
  }

  /** Values are words and the stack does not wrap around. */
  ghost predicate Sane(fo: nat, codes: seq<Code>, s: Machine)
  {
    && (forall r | 0 <= r < 16 :: 0 <= s.regs[r] < WORD)
    && 0 <= RspAfter(codes, s.rsp) && s.rsp + fo * 16 < WORD
  }

  /** The dump gives back `m` wherever a word is held. */
  ghost predicate Readable(codes: seq<Code>, rsp: int, m: Memory, read: Reader)
  {
    forall a | HeldWord(codes, rsp, a) :: read(a) == Some(Read(m, a, 8))
  }

  ghost predicate HeldWord(codes: seq<Code>, rsp: int, a: int)
  {
    forall x | a <= x < a + 8 :: Held(codes, rsp, x)
  }

  ghost predicate Intact(fr: nat, fo: nat, codes: seq<Code>, s: Machine, m: Memory)
    requires fr < 16 && Supported(codes)
  {
    forall x | Held(codes, s.rsp, x) :: m(x) == After(fr, fo, codes, s).mem(x)
  }

  /** What is known of the registers is right, `junk` aside. */
  ghost predicate Sound(known: map<nat, int>, regs: Regs, junk: set<nat>)
  {
    forall r | r in known && r < 16 && r !in junk :: known[r] == regs[r]
  }

  // ---- One instruction ----------------------------------------------------------------

  lemma SupportedRest(codes: seq<Code>)
    requires Supported(codes) && codes != []
    ensures Supported(codes[1..])
  {
    assert forall i | 0 <= i < |codes[1..]| :: codes[1..][i] == codes[i + 1];
  }

  lemma {:induction false} RspIsRspAfter(fr: nat, fo: nat, codes: seq<Code>, s: Machine)
    requires fr < 16 && Supported(codes)
    ensures After(fr, fo, codes, s).rsp == RspAfter(codes, s.rsp)
  {
    if codes != [] {
      SupportedRest(codes);
      RspIsRspAfter(fr, fo, codes[1..], s);
      assert codes[0].info < 16;
    }
  }

  lemma {:induction false} RspFalls(codes: seq<Code>, rsp: int)
    ensures RspAfter(codes, rsp) <= rsp
  {
    if codes != [] { RspFalls(codes[1..], rsp); }
  }

  lemma SaneRest(fo: nat, codes: seq<Code>, s: Machine)
    requires Sane(fo, codes, s) && codes != []
    ensures Sane(fo, codes[1..], s)
  {
  }

  lemma {:induction false} WordsAfter(fr: nat, fo: nat, codes: seq<Code>, s: Machine)
    requires fr < 16 && Supported(codes) && Sane(fo, codes, s)
    ensures forall r | 0 <= r < 16 :: 0 <= After(fr, fo, codes, s).regs[r] < WORD
  {
    if codes != [] {
      SupportedRest(codes);
      WordsAfter(fr, fo, codes[1..], s);
      RspIsRspAfter(fr, fo, codes[1..], s);
      RspFalls(codes[1..], s.rsp);
      assert codes[0].info < 16;
    }
  }

  lemma IntactRest(fr: nat, fo: nat, codes: seq<Code>, s: Machine, m: Memory)
    requires fr < 16 && Supported(codes) && codes != [] && Supported(codes[1..])
    requires Separate(codes, s.rsp) && Intact(fr, fo, codes, s, m)
    ensures Intact(fr, fo, codes[1..], s, m)
  {
    RspIsRspAfter(fr, fo, codes[1..], s);
    assert codes[0].info < 16;
    var s1 := After(fr, fo, codes[1..], s);
    hide RspAfter, Separate;
    SeparateHead(codes, s.rsp);
    forall x | Held(codes[1..], s.rsp, x) ensures m(x) == s1.mem(x) {
      assert Held(codes, s.rsp, x);
      assert Exec(fr, fo, codes[0], s1).mem(x) == s1.mem(x);
    }
  }

  lemma SeparateHead(codes: seq<Code>, rsp: int)
    requires Separate(codes, rsp) && codes != []
    ensures forall x | Held(codes[1..], rsp, x) :: !Touches(codes[0], RspAfter(codes[1..], rsp), x)
  {
  }
}
