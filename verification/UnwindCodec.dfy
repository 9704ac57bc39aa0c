/** The parser inverts the encoding, in both directions. */
module UnwindCodec {
  import opened Naming
  import opened UnwindModel

  // ---- The encoding --------------------------------------------------------------------

  function Low16(v: nat): seq<byte>
    requires v < 65536
  {
    [v % 256, v / 256]
  }

  function Low32(v: nat): seq<byte>
    requires v < 0x1_0000_0000
  {
    Low16(v % 65536) + Low16(v / 65536)
  }

  /** A code as the ABI allows it to be written. */
  predicate CodeOk(c: Code)
  {
    && c.off < 256 && c.op < 16 && c.info < 16
    && (c.operand.Some? <==> Inline(c.op, c.info) > 0 || c.op == ALLOC_SMALL)
    && (c.op == ALLOC_SMALL ==> Bytes(c) == (c.info + 1) * 8)
    && (Inline(c.op, c.info) == 1 ==> Bytes(c) % Scale(c.op) == 0 && Bytes(c) / Scale(c.op) < 65536)
    && (Inline(c.op, c.info) == 2 ==> Bytes(c) < 0x1_0000_0000)
  }

  /** Unit of a two-byte operand. */
  function Scale(op: nat): nat
  {
    if op == SAVE_XMM128 then 16 else 8
  }

  function EncodeOperand(c: Code): seq<byte>
    requires CodeOk(c)
  {
    var n := Inline(c.op, c.info);
    if n == 0 then [] else if n == 1 then Low16(Bytes(c) / Scale(c.op)) else Low32(Bytes(c))
  }

  function EncodeCode(c: Code): seq<byte>
    requires CodeOk(c)
  {
    [c.off, c.op + 16 * c.info] + EncodeOperand(c)
  }

  function EncodeCodes(codes: seq<Code>): seq<byte>
    requires forall c | c in codes :: CodeOk(c)
  {
    if codes == [] then [] else EncodeCode(codes[0]) + EncodeCodes(codes[1..])
  }

  function Slots(codes: seq<Code>): nat
  {
    if codes == [] then 0 else SlotsOf(codes[0]) + Slots(codes[1..])
  }

  predicate ChainOk(c: Chain)
  {
    c.begin < 0x1_0000_0000 && c.end < 0x1_0000_0000 && c.unwind < 0x1_0000_0000
  }

  predicate InfoOk(i: Info)
  {
    && i.flags < 32 && i.prolog < 256 && i.frameReg < 16 && i.frameOffset < 16
    && (forall c | c in i.codes :: CodeOk(c)) && Slots(i.codes) < 256
    && (i.chain.Some? <==> ChainFlag(i.flags)) && (i.chain.Some? ==> ChainOk(i.chain.value))
  }

  function Header(version: nat, i: Info, count: nat): seq<byte>
    requires version < 8 && count < 256
    requires i.flags < 32 && i.prolog < 256 && i.frameReg < 16 && i.frameOffset < 16
  {
    [version + 8 * i.flags, i.prolog, count, i.frameReg + 16 * i.frameOffset]
  }

  function EncodeChain(chain: Option<Chain>): seq<byte>
    requires chain.Some? ==> ChainOk(chain.value)
  {
    if chain.None? then []
    else Low32(chain.value.begin) + Low32(chain.value.end) + Low32(chain.value.unwind)
  }

  /** The whole block; `pad` fills an odd slot. */
  function Encode(version: nat, i: Info, pad: seq<byte>): seq<byte>
    requires version < 8 && InfoOk(i)
  {
    Header(version, i, Slots(i.codes)) + EncodeCodes(i.codes) + pad + EncodeChain(i.chain)
  }

  /** `block` lies in `data` at `p`. */
  predicate At(data: seq<byte>, p: nat, block: seq<byte>)
  {
    p + |block| <= |data| && data[p..p + |block|] == block
  }

  // ---- One code ------------------------------------------------------------------------

  lemma AtByte(data: seq<byte>, p: nat, block: seq<byte>, i: nat)
    requires At(data, p, block) && i < |block|
    ensures data[p + i] == block[i]
  {
    assert data[p..p + |block|][i] == block[i];
  }

  lemma EncodeCodeSize(c: Code)
    requires CodeOk(c)
    ensures |EncodeCode(c)| == 2 * SlotsOf(c)
  {
  }

  lemma ScaledBack(v: nat, op: nat)
    requires v % Scale(op) == 0
    ensures (v / Scale(op)) * Scale(op) == v
  {
  }

  lemma HalfInverts(data: seq<byte>, p: nat, v: nat)
    requires v < 65536 && At(data, p, Low16(v))
    ensures U16(data, p) == v
  {
    AtByte(data, p, Low16(v), 0);
    AtByte(data, p, Low16(v), 1);
  }

  lemma WordInverts(data: seq<byte>, p: nat, v: nat)
    requires v < 0x1_0000_0000 && At(data, p, Low32(v))
    ensures U32(data, p) == v
  {
    AtSplit(data, p, Low16(v % 65536), Low16(v / 65536));
    HalfInverts(data, p, v % 65536);
    HalfInverts(data, p + 2, v / 65536);
  }

  lemma HalfReads(data: seq<byte>, p: nat)
    requires p + 2 <= |data|
    ensures U16(data, p) < 65536 && At(data, p, Low16(U16(data, p)))
  {
    assert data[p..p + 2] == [data[p], data[p + 1]];
  }

  lemma WordReads(data: seq<byte>, p: nat)
    requires p + 4 <= |data|
    ensures U32(data, p) < 0x1_0000_0000 && At(data, p, Low32(U32(data, p)))
  {
    HalfReads(data, p);
    HalfReads(data, p + 2);
    var v := U32(data, p);
    assert v % 65536 == U16(data, p) && v / 65536 == U16(data, p + 2);
    AtSplit(data, p, Low16(v % 65536), Low16(v / 65536));
  }

  lemma OneInverts(data: seq<byte>, p: nat, c: Code)
    requires CodeOk(c) && At(data, p, EncodeCode(c))
    ensures ParseOne(data, p) == Some(c)
  {
    var e := EncodeCode(c);
    AtByte(data, p, e, 0);
    AtByte(data, p, e, 1);
    AtSplit(data, p, [c.off, c.op + 16 * c.info], EncodeOperand(c));
    OperandInverts(data, p + 2, c);
    hide At, U16, U32, EncodeOperand;
  }

  lemma OperandInverts(data: seq<byte>, p: nat, c: Code)
    requires CodeOk(c) && At(data, p, EncodeOperand(c))
    ensures p + 2 * Inline(c.op, c.info) <= |data|
    ensures OperandAt(data, p, c.op, c.info) == c.operand
  {
    var n := Inline(c.op, c.info);
    if n == 1 {
      ScaledBack(Bytes(c), c.op);
      HalfInverts(data, p, Bytes(c) / Scale(c.op));
    } else if n == 2 {
      WordInverts(data, p, Bytes(c));
    }
    hide At, U16, U32, Low16, Low32;
  }

  lemma OperandReads(data: seq<byte>, p: nat, c: Code)
    requires c.off < 256 && c.op < 16 && c.info < 16 && p <= |data|
    requires p + 2 * Inline(c.op, c.info) <= |data| && c.operand == OperandAt(data, p, c.op, c.info)
    ensures CodeOk(c) && At(data, p, EncodeOperand(c))
  {
    var n := Inline(c.op, c.info);
    if n == 1 {
      HalfReads(data, p);
      Unscaled(U16(data, p), Scale(c.op));
    } else if n == 2 {
      WordReads(data, p);
    } else {
      assert At(data, p, []);
    }
    hide At, U16, U32, Low16, Low32;
  }

  lemma Unscaled(v: nat, scale: nat)
    requires scale == 8 || scale == 16
    ensures (v * scale) % scale == 0 && (v * scale) / scale == v
  {
  }

  lemma OneReads(data: seq<byte>, p: nat)
    requires ParseOne(data, p).Some?
    ensures var c := ParseOne(data, p).value;
            CodeOk(c) && At(data, p, EncodeCode(c)) && p + 2 * SlotsOf(c) <= |data|
  {
    var c := ParseOne(data, p).value;
    assert data[p + 1] == c.op + 16 * c.info;
    OperandReads(data, p + 2, c);
    assert data[p..p + 2] == [c.off, c.op + 16 * c.info];
    assert At(data, p, [c.off, c.op + 16 * c.info]);
    AtSplit(data, p, [c.off, c.op + 16 * c.info], EncodeOperand(c));
    hide At, U16, U32, EncodeOperand, OperandAt;
  }

  lemma AtSplit(data: seq<byte>, p: nat, a: seq<byte>, b: seq<byte>)
    ensures At(data, p, a + b) <==> At(data, p, a) && At(data, p + |a|, b)
  {
    if At(data, p, a + b) {
      assert data[p..p + |a|] == data[p..p + |a + b|][..|a|] == a;
      assert data[p + |a|..p + |a| + |b|] == data[p..p + |a + b|][|a|..] == b;
    }
    if At(data, p, a) && At(data, p + |a|, b) {
      assert data[p..p + |a + b|] == data[p..p + |a|] + data[p + |a|..p + |a| + |b|];
    }
  }

  // ---- All codes -----------------------------------------------------------------------

  lemma {:induction false} EncodeCodesSize(codes: seq<Code>)
    requires forall c | c in codes :: CodeOk(c)
    ensures |EncodeCodes(codes)| == 2 * Slots(codes)
  {
    if codes != [] {
      EncodeCodeSize(codes[0]);
      EncodeCodesSize(codes[1..]);
    }
  }

  lemma {:induction false} CodesInvert(data: seq<byte>, p: nat, i: nat, codes: seq<Code>)
    requires forall c | c in codes :: CodeOk(c)
    requires At(data, p, EncodeCodes(codes))
    ensures ParseCodes(data, p, i, i + Slots(codes)) == Some(Parsed(codes, p + 2 * Slots(codes)))
    decreases |codes|
  {
    hide At, EncodeCode, ParseOne, CodeOk;
    if codes != [] {
      var c := codes[0];
      EncodeCodeSize(c);
      AtSplit(data, p, EncodeCode(c), EncodeCodes(codes[1..]));
      OneInverts(data, p, c);
      CodesInvert(data, p + 2 * SlotsOf(c), i + SlotsOf(c), codes[1..]);
      assert codes == [c] + codes[1..];
    }
  }

  /** Whatever was accepted is the encoding of what was returned; only the last code's
      operand may reach past the announced number of slots. */
  lemma {:induction false} CodesRead(data: seq<byte>, p: nat, i: nat, count: nat)
    requires ParseCodes(data, p, i, count).Some? && i <= count && p <= |data|
    ensures var r := ParseCodes(data, p, i, count).value;
            && (forall c | c in r.codes :: CodeOk(c))
            && r.next == p + 2 * Slots(r.codes)
            && count <= i + Slots(r.codes) <= count + 2
            && (r.codes != [] ==> i + Slots(r.codes[..|r.codes| - 1]) < count)
            && At(data, p, EncodeCodes(r.codes))
    decreases count - i
  {
    hide EncodeCode, ParseOne, CodeOk;
    if i < count {
      var c := ParseOne(data, p).value;
      OneReads(data, p);
      EncodeCodeSize(c);
      var n := SlotsOf(c);
      var r := ParseCodes(data, p, i, count).value;
      if i + n <= count {
        CodesRead(data, p + 2 * n, i + n, count);
      }
      var rest := ParseCodes(data, p + 2 * n, i + n, count).value;
      assert r.codes == [c] + rest.codes && r.codes[1..] == rest.codes;
      assert EncodeCodes(r.codes) == EncodeCode(c) + EncodeCodes(rest.codes);
      AtSplit(data, p, EncodeCode(c), EncodeCodes(rest.codes));
      if rest.codes != [] {
        assert r.codes[..|r.codes| - 1][1..] == rest.codes[..|rest.codes| - 1];
      }
    }
  }

  // ---- The block -----------------------------------------------------------------------

  lemma ChainInverts(data: seq<byte>, p: nat, chain: Chain)
    requires ChainOk(chain) && At(data, p, EncodeChain(Some(chain)))
    ensures p + 12 <= |data|
    ensures Chain(U32(data, p), U32(data, p + 4), U32(data, p + 8)) == chain
  {
    var a, b, c := Low32(chain.begin), Low32(chain.end), Low32(chain.unwind);
    AtSplit(data, p, a + b, c);
    AtSplit(data, p, a, b);
    WordInverts(data, p, chain.begin);
    WordInverts(data, p + 4, chain.end);
    WordInverts(data, p + 8, chain.unwind);
  }

  /** Every block written by the book and mapped by a section is read back exactly: the
      codes with their scaled operands, the slots announced and the padding consumed, and
      the chained entry found where it is flagged. */
  lemma ParseInvertsEncode(data: seq<byte>, sections: seq<Section>, rva: nat, version: nat,
                           i: Info, pad: seq<byte>)
    requires version < 8 && InfoOk(i) && |pad| == 2 * (Slots(i.codes) % 2)
    requires RvaToOff(sections, rva).Some?
    requires At(data, RvaToOff(sections, rva).value, Encode(version, i, pad))
    ensures ParseInfo(data, sections, rva) == Some(i)
  {
    hide EncodeCodes, CodeOk, U32, ChainOk, Low32, ParseCodes;
    var off := RvaToOff(sections, rva).value;
    var count := Slots(i.codes);
    var head := Header(version, i, count);
    EncodeCodesSize(i.codes);
    AtSplit(data, off, head + EncodeCodes(i.codes) + pad, EncodeChain(i.chain));
    AtSplit(data, off, head + EncodeCodes(i.codes), pad);
    AtSplit(data, off, head, EncodeCodes(i.codes));
    AtByte(data, off, head, 0);
    AtByte(data, off, head, 1);
    AtByte(data, off, head, 2);
    AtByte(data, off, head, 3);
    CodesInvert(data, off + 4, 0, i.codes);
    if i.chain.Some? {
      ChainInverts(data, off + 4 + 2 * count + |pad|, i.chain.value);
    }
  }

  /** And what is accepted was written by the book, save that the operand of the last code
      may overrun the announced count (by at most two slots), which the parser accepts. */
  lemma ParseReads(data: seq<byte>, sections: seq<Section>, rva: nat)
    requires ParseInfo(data, sections, rva).Some?
    ensures RvaToOff(sections, rva).Some?
    ensures var off := RvaToOff(sections, rva).value;
            var i := ParseInfo(data, sections, rva).value;
            && i.flags < 32 && i.prolog < 256 && i.frameReg < 16 && i.frameOffset < 16
            && (forall c | c in i.codes :: CodeOk(c))
            && off + 4 <= |data|
            && var count := data[off + 2];
            && count <= Slots(i.codes) <= count + 2
            && (i.codes != [] ==> Slots(i.codes[..|i.codes| - 1]) < count)
            && At(data, off, Header(data[off] % 8, i, count) + EncodeCodes(i.codes))
  {
    hide EncodeCodes, CodeOk, ParseCodes, ParseChain;
    var off := RvaToOff(sections, rva).value;
    var i := ParseInfo(data, sections, rva).value;
    var count := data[off + 2];
    CodesRead(data, off + 4, 0, count);
    var head := Header(data[off] % 8, i, count);
    assert data[off..off + 4] == [data[off], data[off + 1], data[off + 2], data[off + 3]];
    assert At(data, off, head);
    AtSplit(data, off, head, EncodeCodes(i.codes));
  }

  lemma LastCode(data: seq<byte>, p: nat, i: nat, count: nat)
    requires ParseOne(data, p).Some? && i < count <= i + SlotsOf(ParseOne(data, p).value)
    ensures var c := ParseOne(data, p).value;
            ParseCodes(data, p, i, count) == Some(Parsed([c], p + 2 * SlotsOf(c)))
  {
    var c := ParseOne(data, p).value;
    assert ParseCodes(data, p + 2 * SlotsOf(c), i + SlotsOf(c), count)
        == Some(Parsed([], p + 2 * SlotsOf(c)));
    assert [c] + [] == [c];
  }

  /** The overrun is real: one slot announced, a two-slot code accepted. */
  lemma OverrunAccepted()
    ensures ParseInfo([1, 0, 1, 0, 4, 0x34, 2, 0], [Section(0, 8, 0, 8)], 0)
         == Some(Info(0, 0, [Code(4, SAVE_NONVOL, 3, Some(16))], 0, 0, None))
  {
    var data: seq<byte> := [1, 0, 1, 0, 4, 0x34, 2, 0];
    assert ParseOne(data, 4) == Some(Code(4, SAVE_NONVOL, 3, Some(16)));
    LastCode(data, 4, 0, 1);
  }
}
