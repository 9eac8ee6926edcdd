/** The part of the Kaspa script engine that compiled scripts exercise. Signature checking and
    hashing are parameters of the chain; stack discipline, numbers, control flow and transaction
    introspection are spelled out. */
module Engine {
  import opened Wrappers
  import opened ScriptNumbers
  import opened Syntax
  import opened Script

  // ---- transactions ----

  type u16 = n: nat | n <= 0xFFFF

  datatype ScriptPublicKey = ScriptPublicKey(version: u16, script: Bytes)

  datatype Outpoint = Outpoint(txid: nat, index: u32)

  datatype CovenantTag = NoCovenant | Covenant(id: nat)

  datatype UtxoEntry = UtxoEntry(
    amount: u64, spk: ScriptPublicKey, blockDaaScore: u64, isCoinbase: bool, covenant: CovenantTag)

  datatype TxInput = TxInput(outpoint: Outpoint, signatureScript: Bytes, sequence: u64, computeBudget: nat)

  datatype TxOutput = TxOutput(value: u64, spk: ScriptPublicKey, covenant: CovenantTag)

  /** A transaction together with the entries its inputs spend. */
  datatype Tx = Tx(inputs: seq<TxInput>, entries: seq<UtxoEntry>, outputs: seq<TxOutput>, lockTime: u64)

  const MAX_SEQUENCE: nat := U64_MAX

  /** A script public key as scripts see it: two version bytes, then the script. */
  function SpkBytes(spk: ScriptPublicKey): Bytes {
    [(spk.version / 256) as byte, (spk.version % 256) as byte] + spk.script
  }

  /** The pay-to-public-key script of a Schnorr key. */
  function PayToKey(key: Bytes): ScriptPublicKey {
    ScriptPublicKey(0, [0x20] + key + [OP_CHECKSIG])
  }

  /** What scripts take from outside: signature checks of an input, hashes, and the value that
      separates block heights from timestamps. A signature check can abort. */
  datatype Chain = Chain(
    checkSig: (Tx, nat, Bytes, Bytes) -> Option<bool>,
    sha256: Bytes -> Bytes,
    blake2b: Bytes -> Bytes,
    scriptHash: Bytes -> Bytes,
    lockTimeThreshold: nat)

  /** The transaction and the input whose scripts are running. */
  datatype Context = Context(tx: Tx, index: nat, chain: Chain)
  {
    function CheckSig(sig: Bytes, key: Bytes): Option<bool> { chain.checkSig(tx, index, sig, key) }

    predicate HasInput(i: int) { 0 <= i < |tx.inputs| && i < |tx.entries| }

    predicate HasOutput(i: int) { 0 <= i < |tx.outputs| }

    /** Whether the transaction's lock time has reached a height or a timestamp. */
    predicate LockReached(lock: nat) {
      index < |tx.inputs|
      && (lock < chain.lockTimeThreshold <==> tx.lockTime < chain.lockTimeThreshold)
      && lock <= tx.lockTime
      && tx.inputs[index].sequence != MAX_SEQUENCE
    }
  }

  // ---- the data stack ----

  datatype Stack = Empty | Cons(top: Bytes, below: Stack)

  function PushAll(st: Stack, items: seq<Bytes>): Stack
    decreases items
  {
    if items == [] then st else PushAll(Cons(items[0], st), items[1..])
  }

  /** The topmost `n` items, lowest first, and the rest of the stack. */
  function PopN(st: Stack, n: nat): Option<(seq<Bytes>, Stack)> {
    if n == 0 then Some(([], st))
    else if st.Empty? then None
    else
      var (items, rest) :- PopN(st.below, n - 1);
      Some((items + [st.top], rest))
  }

  lemma {:induction false} PushAllLast(st: Stack, items: seq<Bytes>, last: Bytes)
    ensures PushAll(st, items + [last]) == Cons(last, PushAll(st, items))
    decreases items
  {
    if items == [] {
      assert (items + [last])[1..] == [];
    } else {
      PushAllLast(Cons(items[0], st), items[1..], last);
      assert (items + [last])[1..] == items[1..] + [last];
    }
  }

  lemma {:induction false} PopPushed(st: Stack, items: seq<Bytes>)
    ensures PopN(PushAll(st, items), |items|) == Some((items, st))
  {
    if items != [] {
      var init, last := items[..|items| - 1], items[|items| - 1];
      assert items == init + [last];
      PushAllLast(st, init, last);
      PopPushed(st, init);
    }
  }

  lemma {:induction false} PushAllConcat(st: Stack, a: seq<Bytes>, b: seq<Bytes>)
    ensures PushAll(st, a + b) == PushAll(PushAll(st, a), b)
    decreases a
  {
    if a == [] {
      assert a + b == b;
    } else {
      PushAllConcat(Cons(a[0], st), a[1..], b);
      assert (a + b)[1..] == a[1..] + b;
    }
  }

  // ---- signature checks ----

  const MAX_MULTISIG_KEYS: nat := 20

  /** Signatures are matched against keys in order; a key that fails is skipped for good. */
  function MatchSignatures(c: Context, keys: seq<Bytes>, sigs: seq<Bytes>): Option<bool> {
    if sigs == [] then Some(true)
    else if sigs[0] == [] || |keys| < |sigs| then Some(false)
    else
      var valid :- c.CheckSig(sigs[0], keys[0]);
      MatchSignatures(c, keys[1..], if valid then sigs[1..] else sigs)
  }

  /** A failed multisig check is false only when every signature is empty; otherwise it aborts. */
  function MultiSig(c: Context, keys: seq<Bytes>, sigs: seq<Bytes>): Option<Bytes> {
    if |keys| > MAX_MULTISIG_KEYS || |sigs| > |keys| then None
    else
      var valid :- MatchSignatures(c, keys, sigs);
      if !valid && exists i :: 0 <= i < |sigs| && sigs[i] != [] then None else Some(BoolBytes(valid))
  }

  function SingleSig(c: Context, sig: Bytes, key: Bytes): Option<Bytes> {
    var valid :- c.CheckSig(sig, key);
    Some(BoolBytes(valid))
  }

  /** A lock value on the stack is at most eight bytes, read without a sign. */
  predicate LockPassed(c: Context, item: Bytes) {
    |item| <= 8 && c.LockReached(FromLe(item))
  }

  // ---- single opcodes ----

  /** The result of a two-operand numeric opcode. */
  function NumericResult(opcode: byte, a: int, b: int): Option<Bytes> {
    if opcode == OP_ADD then IntBytes(a + b)
    else if opcode == OP_SUB then IntBytes(a - b)
    else if opcode == OP_BOOLAND then Some(BoolBytes(a != 0 && b != 0))
    else if opcode == OP_BOOLOR then Some(BoolBytes(a != 0 || b != 0))
    else if opcode == OP_NUMEQUAL then Some(BoolBytes(a == b))
    else if opcode == OP_NUMNOTEQUAL then Some(BoolBytes(a != b))
    else if opcode == OP_LESSTHAN then Some(BoolBytes(a < b))
    else if opcode == OP_GREATERTHAN then Some(BoolBytes(a > b))
    else if opcode == OP_LESSTHANOREQUAL then Some(BoolBytes(a <= b))
    else if opcode == OP_GREATERTHANOREQUAL then Some(BoolBytes(a >= b))
    else None
  }

  /** What an introspection opcode reads at an index. */
  function Introspect(c: Context, opcode: byte, i: int): Option<Bytes> {
    if opcode == OP_TXINPUTAMOUNT && c.HasInput(i) then IntBytes(c.tx.entries[i].amount)
    else if opcode == OP_TXINPUTSPK && c.HasInput(i) then Some(SpkBytes(c.tx.entries[i].spk))
    else if opcode == OP_TXOUTPUTAMOUNT && c.HasOutput(i) then IntBytes(c.tx.outputs[i].value)
    else if opcode == OP_TXOUTPUTSPK && c.HasOutput(i) then Some(SpkBytes(c.tx.outputs[i].spk))
    else None
  }

  function OneOperand(c: Context, opcode: byte, a: Bytes): Option<Bytes> {
    if opcode == OP_SHA256 then Some(c.chain.sha256(a))
    else if opcode == OP_BLAKE2B then Some(c.chain.blake2b(a))
    else
      var n :- AsNum(a);
      if opcode == OP_NOT then Some(BoolBytes(n == 0)) else Introspect(c, opcode, n)
  }

  function TwoOperands(c: Context, opcode: byte, a: Bytes, b: Bytes): Option<Bytes> {
    if opcode == OP_EQUAL then Some(BoolBytes(a == b))
    else if opcode == OP_CHECKSIG then SingleSig(c, a, b)
    else
      var m :- AsNum(a);
      var n :- AsNum(b);
      NumericResult(opcode, m, n)
  }

  /** Pops the keys, the signature count and the signatures of a multisig check. */
  function CheckMulti(c: Context, keyCount: int, st: Stack): Option<Stack> {
    if keyCount < 0 || keyCount > MAX_MULTISIG_KEYS then None
    else
      var (keys, belowKeys) :- PopN(st, keyCount);
      if belowKeys.Empty? then None
      else
        var sigCount :- AsNum(belowKeys.top);
        if sigCount < 0 || sigCount > keyCount then None
        else
          var (sigs, rest) :- PopN(belowKeys.below, sigCount);
          var result :- MultiSig(c, keys, sigs);
          Some(Cons(result, rest))
  }

  predicate IsOneOperand(opcode: byte) {
    opcode in {OP_NOT, OP_SHA256, OP_BLAKE2B, OP_TXINPUTAMOUNT, OP_TXINPUTSPK, OP_TXOUTPUTAMOUNT, OP_TXOUTPUTSPK}
  }

  /** Executes an opcode that is neither a push nor control flow. */
  function ExecPlain(c: Context, opcode: byte, st: Stack): Option<Stack> {
    if OP_1 <= opcode <= OP_16 then Some(Cons(Num(opcode as int - 0x50), st))
    else if opcode == OP_1NEGATE then Some(Cons(Num(-1), st))
    else if opcode == OP_TXINPUTCOUNT then
      var n :- IntBytes(|c.tx.inputs|);
      Some(Cons(n, st))
    else if opcode == OP_TXOUTPUTCOUNT then
      var n :- IntBytes(|c.tx.outputs|);
      Some(Cons(n, st))
    else if st.Empty? then None
    else if opcode == OP_DROP then Some(st.below)
    else if opcode == OP_DUP then Some(Cons(st.top, st))
    else if opcode == OP_VERIFY then if AsBool(st.top) then Some(st.below) else None
    else if opcode == OP_CHECKLOCKTIMEVERIFY then if LockPassed(c, st.top) then Some(st.below) else None
    else if opcode == OP_CHECKMULTISIG then
      var keyCount :- AsNum(st.top);
      CheckMulti(c, keyCount, st.below)
    else if IsOneOperand(opcode) then
      var r :- OneOperand(c, opcode, st.top);
      Some(Cons(r, st.below))
    else if st.below.Empty? then None
    else
      var r :- TwoOperands(c, opcode, st.below.top, st.top);
      Some(Cons(r, st.below.below))
  }

  /** Data that has a shorter push than carrying its bytes: small numbers have their own opcodes. */
  predicate HasSmallPush(data: Bytes) {
    |data| == 1 && (1 <= data[0] <= 16 || data[0] == 0x81)
  }

  /** The engine executes a push only if it is the shortest one for its data. */
  predicate IsMinimalPush(opcode: byte, data: Bytes) {
    !HasSmallPush(data) && |data| <= U32_MAX && DataOp(data) == PushOp(opcode, data)
  }

  // ---- scripts ----

  datatype Cond = Taken | NotTaken | Skipped

  datatype Machine = Machine(stack: Stack, conds: seq<Cond>)
  {
    predicate Executing() { conds == [] || conds[|conds| - 1] == Taken }
  }

  predicate IsControl(op: Op) {
    op in {PlainOp(OP_IF), PlainOp(OP_ELSE), PlainOp(OP_ENDIF)}
  }

  function Flip(cond: Cond): Cond {
    match cond
    case Taken => NotTaken
    case NotTaken => Taken
    case Skipped => Skipped
  }

  function ExecControl(op: Op, m: Machine): Option<Machine>
    requires IsControl(op)
  {
    var depth := |m.conds|;
    if op.opcode == OP_IF then
      if !m.Executing() then Some(m.(conds := m.conds + [Skipped]))
      else if m.stack.Empty? then None
      else if m.stack.top == [] then Some(Machine(m.stack.below, m.conds + [NotTaken]))
      else if m.stack.top == [1] then Some(Machine(m.stack.below, m.conds + [Taken]))
      else None
    else if depth == 0 then None
    else if op.opcode == OP_ELSE then Some(m.(conds := m.conds[..depth - 1] + [Flip(m.conds[depth - 1])]))
    else Some(m.(conds := m.conds[..depth - 1]))
  }

  function ExecData(op: Op, st: Stack): Option<Stack>
    requires op.PushOp?
  {
    if IsMinimalPush(op.opcode, op.data) then Some(Cons(op.data, st)) else None
  }

  /** Executes one operation that is not control flow. */
  function Perform(c: Context, op: Op, st: Stack): Option<Stack> {
    if op.PushOp? then ExecData(op, st) else ExecPlain(c, op.opcode, st)
  }

  function ExecOp(c: Context, op: Op, m: Machine): Option<Machine> {
    if IsControl(op) then ExecControl(op, m)
    else if !m.Executing() then Some(m)
    else
      var st :- Perform(c, op, m.stack);
      Some(m.(stack := st))
  }

  function Exec(c: Context, ops: seq<Op>, m: Machine): Option<Machine> {
    if ops == [] then Some(m)
    else
      var next :- ExecOp(c, ops[0], m);
      Exec(c, ops[1..], next)
  }

  /** Runs a script from a stack; every conditional must be closed by its end. */
  function RunScript(c: Context, script: Bytes, st: Stack): Option<Stack> {
    var ops :- Decode(script);
    var m :- Exec(c, ops, Machine(st, []));
    if m.conds == [] then Some(m.stack) else None
  }

  /** The engine's verdict: exactly one item is left and it is true. */
  predicate Accepts(c: Context, script: Bytes, st: Stack) {
    var r := RunScript(c, script, st);
    r.Some? && r.value.Cons? && r.value.below.Empty? && AsBool(r.value.top)
  }

  function PushesOnly(ops: seq<Op>): bool {
    forall i :: 0 <= i < |ops| ==> ops[i].PushOp? || ops[i].opcode <= OP_16
  }

  /** The lock that commits to a script by its hash. */
  function PayToScriptHash(chain: Chain, script: Bytes): ScriptPublicKey {
    ScriptPublicKey(0, [OP_BLAKE2B, 0x20] + chain.scriptHash(script) + [OP_EQUAL])
  }

  /** A pay-to-script-hash input: the signature script only pushes, its last push is the committed
      script, and that script accepts what lies below. */
  predicate AcceptsScriptHash(c: Context, signatureScript: Bytes, lock: ScriptPublicKey) {
    var ops := Decode(signatureScript);
    ops.Some? && PushesOnly(ops.value) &&
    var m := Exec(c, ops.value, Machine(Empty, []));
    m.Some? && m.value.stack.Cons?
    && PayToScriptHash(c.chain, m.value.stack.top) == lock
    && Accepts(c, m.value.stack.top, m.value.stack.below)
  }

  // ---- runs without control flow ----

  /** Performs operations in order on the stack alone. */
  function PerformAll(c: Context, ops: seq<Op>, st: Stack): Option<Stack> {
    if ops == [] then Some(st)
    else
      var next :- Perform(c, ops[0], st);
      PerformAll(c, ops[1..], next)
  }

  predicate NoControl(ops: seq<Op>) {
    forall i :: 0 <= i < |ops| ==> !IsControl(ops[i])
  }

  lemma {:induction false} ExecWithoutControl(c: Context, ops: seq<Op>, m: Machine)
    requires NoControl(ops)
    ensures Exec(c, ops, m) ==
            if !m.Executing() then Some(m)
            else match PerformAll(c, ops, m.stack) case Some(st) => Some(m.(stack := st)) case None => None
  {
    if ops != [] {
      assert !IsControl(ops[0]);
      var next := ExecOp(c, ops[0], m);
      if next.Some? { ExecWithoutControl(c, ops[1..], next.value); }
    }
  }

  lemma {:induction false} ExecConcat(c: Context, a: seq<Op>, b: seq<Op>, m: Machine)
    ensures Exec(c, a + b, m) == match Exec(c, a, m) case Some(n) => Exec(c, b, n) case None => None
  {
    if a == [] {
      assert a + b == b;
    } else {
      assert (a + b)[0] == a[0] && (a + b)[1..] == a[1..] + b;
      var next := ExecOp(c, a[0], m);
      if next.Some? { ExecConcat(c, a[1..], b, next.value); }
    }
  }

  lemma {:induction false} PerformConcat(c: Context, a: seq<Op>, b: seq<Op>, st: Stack)
    ensures PerformAll(c, a + b, st) ==
            match PerformAll(c, a, st) case Some(mid) => PerformAll(c, b, mid) case None => None
  {
    if a == [] {
      assert a + b == b;
    } else {
      assert (a + b)[0] == a[0] && (a + b)[1..] == a[1..] + b;
      var next := Perform(c, a[0], st);
      if next.Some? { PerformConcat(c, a[1..], b, next.value); }
    }
  }

  /** A script without control flow runs as its operations do. */
  lemma RunsAsOps(c: Context, ops: seq<Op>, st: Stack)
    requires AllWellFormed(ops) && NoControl(ops)
    ensures RunScript(c, Assemble(ops), st) == PerformAll(c, ops, st)
  {
    DecodeAssemble(ops);
    ExecWithoutControl(c, ops, Machine(st, []));
  }

  function JoinOps(taken: seq<Op>, other: seq<Op>): seq<Op> {
    [PlainOp(OP_IF)] + (taken + ([PlainOp(OP_ELSE)] + (other + [PlainOp(OP_ENDIF)])))
  }

  function JoinScripts(taken: Bytes, other: Bytes): Bytes {
    [OP_IF] + (taken + ([OP_ELSE] + (other + [OP_ENDIF])))
  }

  lemma AssembleOne(opcode: byte)
    ensures Assemble([PlainOp(opcode)]) == [opcode]
  {
  }

  lemma JoinedBytes(taken: seq<Op>, other: seq<Op>)
    ensures Assemble(JoinOps(taken, other)) == JoinScripts(Assemble(taken), Assemble(other))
  {
    var tail := other + [PlainOp(OP_ENDIF)];
    AssembleOne(OP_IF);
    AssembleOne(OP_ELSE);
    AssembleOne(OP_ENDIF);
    AssembleConcat(other, [PlainOp(OP_ENDIF)]);
    AssembleConcat([PlainOp(OP_ELSE)], tail);
    AssembleConcat(taken, [PlainOp(OP_ELSE)] + tail);
    AssembleConcat([PlainOp(OP_IF)], taken + ([PlainOp(OP_ELSE)] + tail));
  }

  /** Once a branch is chosen, only that branch runs. */
  lemma ChosenBranch(c: Context, taken: seq<Op>, other: seq<Op>, st: Stack, cond: Cond)
    requires NoControl(taken) && NoControl(other) && cond != Skipped
    ensures Exec(c, taken + ([PlainOp(OP_ELSE)] + (other + [PlainOp(OP_ENDIF)])), Machine(st, [cond])) ==
            match PerformAll(c, if cond == Taken then taken else other, st)
            case Some(r) => Some(Machine(r, []))
            case None => None
  {
    var m := Machine(st, [cond]);
    var tail := other + [PlainOp(OP_ENDIF)];
    ExecConcat(c, taken, [PlainOp(OP_ELSE)] + tail, m);
    ExecWithoutControl(c, taken, m);
    var n := Exec(c, taken, m);
    if n.Some? {
      ElseFlips(c, n.value, cond);
      ExecConcat(c, [PlainOp(OP_ELSE)], tail, n.value);
      var flipped := Machine(n.value.stack, [Flip(cond)]);
      ExecWithoutControl(c, other, flipped);
      ExecConcat(c, other, [PlainOp(OP_ENDIF)], flipped);
      var o := Exec(c, other, flipped);
      if o.Some? { EndIfCloses(c, o.value, Flip(cond)); }
    }
  }

  lemma JoinedOps(c: Context, taken: seq<Op>, other: seq<Op>, st: Stack)
    requires NoControl(taken) && NoControl(other)
    ensures Exec(c, JoinOps(taken, other), Machine(st, [])) ==
            if st.Empty? || (st.top != [1] && st.top != []) then None
            else match PerformAll(c, if st.top == [1] then taken else other, st.below)
                 case Some(r) => Some(Machine(r, []))
                 case None => None
  {
    var rest := taken + ([PlainOp(OP_ELSE)] + (other + [PlainOp(OP_ENDIF)]));
    assert JoinOps(taken, other)[0] == PlainOp(OP_IF) && JoinOps(taken, other)[1..] == rest;
    if st.Cons? && (st.top == [1] || st.top == []) {
      var cond := if st.top == [1] then Taken else NotTaken;
      assert ExecOp(c, PlainOp(OP_IF), Machine(st, [])).value.conds == [cond];
      ChosenBranch(c, taken, other, st.below, cond);
    }
  }

  /** Two scripts joined as the branches of a conditional run as the branch the top item selects:
      no byte of either branch, pushed data included, can end or switch the conditional. */
  lemma JoinedBranches(c: Context, taken: seq<Op>, other: seq<Op>, st: Stack)
    requires AllWellFormed(taken) && NoControl(taken) && AllWellFormed(other) && NoControl(other)
    ensures RunScript(c, JoinScripts(Assemble(taken), Assemble(other)), st) ==
            if st.Empty? || (st.top != [1] && st.top != []) then None
            else PerformAll(c, if st.top == [1] then taken else other, st.below)
  {
    JoinedBytes(taken, other);
    DecodeAssemble(JoinOps(taken, other));
    JoinedOps(c, taken, other, st);
  }

  lemma ElseFlips(c: Context, m: Machine, cond: Cond)
    requires m.conds == [cond]
    ensures Exec(c, [PlainOp(OP_ELSE)], m) == Some(m.(conds := [Flip(cond)]))
  {
    assert ExecOp(c, PlainOp(OP_ELSE), m).value.conds == [Flip(cond)];
  }

  lemma EndIfCloses(c: Context, m: Machine, cond: Cond)
    requires m.conds == [cond]
    ensures Exec(c, [PlainOp(OP_ENDIF)], m) == Some(m.(conds := []))
  {
    assert ExecOp(c, PlainOp(OP_ENDIF), m).value.conds == [];
  }
}
