/** Kaspa transaction scripts as bytes and as the operations those bytes spell. */
module Script {
  import opened Wrappers
  import opened ScriptNumbers

  const OP_0: byte := 0x00
  const OP_PUSHDATA1: byte := 0x4c
  const OP_PUSHDATA2: byte := 0x4d
  const OP_PUSHDATA4: byte := 0x4e
  const OP_1NEGATE: byte := 0x4f
  const OP_1: byte := 0x51
  const OP_16: byte := 0x60
  const OP_IF: byte := 0x63
  const OP_ELSE: byte := 0x67
  const OP_ENDIF: byte := 0x68
  const OP_VERIFY: byte := 0x69
  const OP_DROP: byte := 0x75
  const OP_DUP: byte := 0x76
  const OP_EQUAL: byte := 0x87
  const OP_NOT: byte := 0x91
  const OP_ADD: byte := 0x93
  const OP_SUB: byte := 0x94
  const OP_BOOLAND: byte := 0x9a
  const OP_BOOLOR: byte := 0x9b
  const OP_NUMEQUAL: byte := 0x9c
  const OP_NUMNOTEQUAL: byte := 0x9e
  const OP_LESSTHAN: byte := 0x9f
  const OP_GREATERTHAN: byte := 0xa0
  const OP_LESSTHANOREQUAL: byte := 0xa1
  const OP_GREATERTHANOREQUAL: byte := 0xa2
  const OP_SHA256: byte := 0xa8
  const OP_BLAKE2B: byte := 0xaa
  const OP_CHECKSIG: byte := 0xac
  const OP_CHECKMULTISIG: byte := 0xae
  const OP_CHECKLOCKTIMEVERIFY: byte := 0xb0
  const OP_CHECKSEQUENCEVERIFY: byte := 0xb1
  const OP_TXINPUTCOUNT: byte := 0xb3
  const OP_TXOUTPUTCOUNT: byte := 0xb4
  const OP_TXINPUTINDEX: byte := 0xb9
  const OP_TXINPUTAMOUNT: byte := 0xbe
  const OP_TXINPUTSPK: byte := 0xbf
  const OP_TXOUTPUTAMOUNT: byte := 0xc2
  const OP_TXOUTPUTSPK: byte := 0xc3

  /** An operation: a push with the opcode that announces it, or any other opcode. */
  datatype Op = PushOp(opcode: byte, data: Bytes) | PlainOp(opcode: byte)

  /** How many length bytes follow a push opcode. */
  function LengthWidth(opcode: byte): nat {
    if opcode == OP_PUSHDATA1 then 1
    else if opcode == OP_PUSHDATA2 then 2
    else if opcode == OP_PUSHDATA4 then 4
    else 0
  }

  predicate WellFormed(op: Op) {
    match op
    case PlainOp(opcode) => opcode > OP_PUSHDATA4
    case PushOp(opcode, data) =>
      opcode <= OP_PUSHDATA4 &&
      (if LengthWidth(opcode) == 0 then |data| == opcode as nat else |data| < Pow256(LengthWidth(opcode)))
  }

  predicate AllWellFormed(ops: seq<Op>) {
    forall i :: 0 <= i < |ops| ==> WellFormed(ops[i])
  }

  function OpBytes(op: Op): Bytes {
    match op
    case PlainOp(opcode) => [opcode]
    case PushOp(opcode, data) => [opcode] + LeBytes(|data|, LengthWidth(opcode)) + data
  }

  function Assemble(ops: seq<Op>): Bytes {
    if ops == [] then [] else OpBytes(ops[0]) + Assemble(ops[1..])
  }

  /** The first operation of a script and the bytes after it. */
  function ReadOp(s: Bytes): (r: Option<(Op, Bytes)>)
    requires s != []
    ensures r.Some? ==> |r.value.1| < |s|
  {
    var opcode := s[0];
    if opcode > OP_PUSHDATA4 then Some((PlainOp(opcode), s[1..]))
    else
      var start := 1 + LengthWidth(opcode);
      if |s| < start then None
      else
        var end := start + (if start == 1 then opcode as nat else FromLe(s[1..start]));
        if |s| < end then None else Some((PushOp(opcode, s[start..end]), s[end..]))
  }

  function Decode(s: Bytes): Option<seq<Op>>
    decreases |s|
  {
    if s == [] then Some([])
    else
      var (op, rest) :- ReadOp(s);
      var ops :- Decode(rest);
      Some([op] + ops)
  }

  /** The push operation that carries the given data, by its length alone. */
  function DataOp(data: Bytes): (op: Op)
    requires |data| <= U32_MAX
    ensures WellFormed(op)
  {
    assert Pow256(1) == 0x100 && Pow256(2) == 0x1_0000 && Pow256(4) == 0x1_0000_0000;
    if |data| <= 75 then PushOp(|data| as byte, data)
    else if |data| <= 0xFF then PushOp(OP_PUSHDATA1, data)
    else if |data| <= 0xFFFF then PushOp(OP_PUSHDATA2, data)
    else PushOp(OP_PUSHDATA4, data)
  }

  // ---- bytes and operations determine each other ----

  lemma ReadsBack(op: Op, rest: Bytes)
    requires WellFormed(op)
    ensures ReadOp(OpBytes(op) + rest) == Some((op, rest))
  {
    if op.PushOp? {
      var w := LengthWidth(op.opcode);
      var s := OpBytes(op) + rest;
      if w == 0 {
        assert LeBytes(|op.data|, 0) == [];
      } else {
        FromLeBytes(|op.data|, w);
      }
      assert s[1..1 + w] == LeBytes(|op.data|, w);
      assert s[1 + w..1 + w + |op.data|] == op.data;
      assert s[1 + w + |op.data|..] == rest;
    }
  }

  lemma HeadAndTail(s: Bytes)
    requires s != []
    ensures [s[0]] + s[1..] == s
  {
  }

  lemma ReadIsLossless(s: Bytes)
    requires s != [] && ReadOp(s).Some?
    ensures var (op, rest) := ReadOp(s).value; WellFormed(op) && s == OpBytes(op) + rest
  {
    var (op, rest) := ReadOp(s).value;
    if op.PushOp? {
      var w := LengthWidth(op.opcode);
      if w == 0 {
        assert LeBytes(|op.data|, 0) == [];
      } else {
        FromLeBound(s[1..1 + w]);
        LeBytesInverse(s[1..1 + w]);
      }
      assert s == OpBytes(op) + rest;
    } else {
      HeadAndTail(s);
    }
  }

  lemma {:induction false} LeBytesInverse(s: Bytes)
    ensures LeBytes(FromLe(s), |s|) == s
  {
    if s != [] {
      LeBytesInverse(s[1..]);
      assert FromLe(s) % 256 == s[0] as nat && FromLe(s) / 256 == FromLe(s[1..]);
      assert s == [s[0]] + s[1..];
    }
  }

  /** Decoding finds exactly the operations that were assembled, whatever data they push. */
  lemma {:induction false} DecodeAssemble(ops: seq<Op>)
    requires AllWellFormed(ops)
    ensures Decode(Assemble(ops)) == Some(ops)
  {
    if ops != [] {
      ReadsBack(ops[0], Assemble(ops[1..]));
      DecodeAssemble(ops[1..]);
      assert ops == [ops[0]] + ops[1..];
    }
  }

  /** Assembling a decoded script gives back the same bytes. */
  lemma {:induction false} AssembleDecode(s: Bytes)
    requires Decode(s).Some?
    ensures AllWellFormed(Decode(s).value) && Assemble(Decode(s).value) == s
    decreases |s|
  {
    if s != [] {
      ReadIsLossless(s);
      var (op, rest) := ReadOp(s).value;
      AssembleDecode(rest);
      assert Decode(s).value[1..] == Decode(rest).value;
    }
  }

  lemma {:induction false} AssembleConcat(a: seq<Op>, b: seq<Op>)
    ensures Assemble(a + b) == Assemble(a) + Assemble(b)
  {
    if a == [] {
      assert a + b == b;
    } else {
      AssembleConcat(a[1..], b);
      ConcatHead(a, b);
      ConcatAssociates(OpBytes(a[0]), Assemble(a[1..]), Assemble(b));
    }
  }

  /** A script that decodes can be followed by any other without changing how either decodes. */
  lemma {:induction false} DecodeConcat(s: Bytes, t: Bytes)
    requires Decode(s).Some?
    ensures Decode(s + t) == if Decode(t).Some? then Some(Decode(s).value + Decode(t).value) else None
    decreases |s|
  {
    if s == [] {
      assert s + t == t;
      if Decode(t).Some? { assert [] + Decode(t).value == Decode(t).value; }
    } else {
      ReadIsLossless(s);
      var (op, rest) := ReadOp(s).value;
      ReadsBack(op, rest + t);
      ConcatAssociates(OpBytes(op), rest, t);
      DecodeConcat(rest, t);
      if Decode(t).Some? { ConcatAssociates([op], Decode(rest).value, Decode(t).value); }
    }
  }
}
