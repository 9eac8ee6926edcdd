/** What the standard locks are, byte by byte and as scripts that run
    (compatibility/toccata-v2/src/escrow.rs, sdk/src/testnet.rs). */
module LockScripts {
  import opened Wrappers
  import opened ScriptNumbers
  import opened Syntax
  import opened Script
  import opened Engine

  // ---- widths ----

  /** The widths of the source's integers: the largest numbers of eight and of four bytes, and the
      largest of eight bytes with a clear sign bit. */
  lemma Widths()
    ensures U64_MAX == FromLe([0xFF, 0xFF, 0xFF, 0xFF, 0xFF, 0xFF, 0xFF, 0xFF])
    ensures I64_MAX == FromLe([0xFF, 0xFF, 0xFF, 0xFF, 0xFF, 0xFF, 0xFF, 0x7F])
    ensures U32_MAX == FromLe([0xFF, 0xFF, 0xFF, 0xFF])
  {
    FourBytes(0xFF, 0xFF, 0xFF, 0xFF);
    FourBytes(0xFF, 0xFF, 0xFF, 0x7F);
    EightBytes(0xFF);
    EightBytes(0x7F);
  }

  lemma FourBytes(a: byte, b: byte, c: byte, d: byte)
    ensures FromLe([a, b, c, d]) == a as nat + 256 * (b as nat + 256 * (c as nat + 256 * (d as nat)))
  {
    assert [a, b, c, d][1..] == [b, c, d] && [b, c, d][1..] == [c, d] && [c, d][1..] == [d] && [d][1..] == [];
    assert FromLe([d]) == d as nat && FromLe([c, d]) == c as nat + 256 * d as nat;
    assert FromLe([b, c, d]) == b as nat + 256 * FromLe([c, d]);
  }

  lemma EightBytes(last: byte)
    ensures FromLe([0xFF, 0xFF, 0xFF, 0xFF, 0xFF, 0xFF, 0xFF, last]) == 0xFFFF_FFFF + 0x1_0000_0000 * FromLe([0xFF, 0xFF, 0xFF, last])
  {
    var s := [0xFF, 0xFF, 0xFF, 0xFF, 0xFF, 0xFF, 0xFF, last];
    var high := [0xFF, 0xFF, 0xFF, last];
    assert s[1..][1..][1..][1..] == high;
    assert FromLe(s[1..][1..][1..]) == 0xFF + 256 * FromLe(high);
    assert FromLe(s[1..][1..]) == 0xFF + 256 * FromLe(s[1..][1..][1..]);
    assert FromLe(s[1..]) == 0xFF + 256 * FromLe(s[1..][1..]);
  }

  // ---- data with a small-number opcode ----

  /** The data that small-number opcodes push are the encodings of -1 and of 1 to 16. */
  lemma SmallPushIsSmallNumber(data: Bytes)
    ensures HasSmallPush(data) <==> exists n: int :: (n == -1 || 1 <= n <= 16) && data == Num(n)
  {
    if HasSmallPush(data) {
      var n := if data[0] == 0x81 then -1 else data[0] as int;
      SmallNumber(n);
      assert data == [data[0]] == Num(n);
    }
    if n: int :| (n == -1 || 1 <= n <= 16) && data == Num(n) { SmallNumber(n); }
  }

  // ---- script public keys as bytes ----

  /** The bytes of a script public key begin with its version, high byte first, and end with its script. */
  lemma SpkReadsBack(spk: ScriptPublicKey)
    ensures var bytes := SpkBytes(spk);
            |bytes| >= 2 && 256 * bytes[0] as nat + bytes[1] as nat == spk.version && bytes[2..] == spk.script
  {
    assert SpkBytes(spk)[2..] == spk.script;
  }

  /** Script public keys are equal if and only if their bytes are. */
  lemma SpkEqualBytes(a: ScriptPublicKey, b: ScriptPublicKey)
    ensures SpkBytes(a) == SpkBytes(b) <==> a == b
  {
    SpkReadsBack(a);
    SpkReadsBack(b);
  }

  // ---- the locks run ----

  lemma TwoOpsRun(c: Context, a: Op, b: Op, st: Stack)
    ensures PerformAll(c, [a, b], st) == match Perform(c, a, st) case Some(mid) => Perform(c, b, mid) case None => None
  {
    assert [a, b][1..] == [b] && [b][1..] == [];
    var mid := Perform(c, a, st);
    if mid.Some? {
      var last := Perform(c, b, mid.value);
      assert PerformAll(c, [b], mid.value) == last by {
        if last.Some? { assert PerformAll(c, [], last.value) == last; }
      }
    }
  }

  /** A pay-to-key lock: one push of the key's 32 bytes and a signature check. What opens it is a
      signature valid for that key. */
  lemma PayToKeyLocks(c: Context, key: Bytes, sig: Bytes)
    requires |key| == 32
    ensures PayToKey(key) == ScriptPublicKey(0, [0x20] + key + [0xac])
    ensures Accepts(c, PayToKey(key).script, Cons(sig, Empty)) <==> c.CheckSig(sig, key) == Some(true)
  {
    var push, check := PushOp(0x20, key), PlainOp(0xac);
    assert [push, check][1..] == [check] && [check][1..] == [];
    assert LeBytes(32, 0) == [] && [0x20] + [] + key == [0x20] + key;
    assert Assemble([check]) == [0xac] + [];
    assert Assemble([push, check]) == ([0x20] + key) + [0xac];
    RunsAsOps(c, [push, check], Cons(sig, Empty));
    TwoOpsRun(c, push, check, Cons(sig, Empty));
    BoolNum(true);
    BoolNum(false);
  }

  /** A pay-to-script-hash lock: the hash of what is offered compared with the 32 bytes committed to. */
  lemma PayToScriptHashLocks(c: Context, script: Bytes, offered: Bytes)
    requires |c.chain.scriptHash(script)| == 32
    ensures PayToScriptHash(c.chain, script) == ScriptPublicKey(0, [0xaa, 0x20] + c.chain.scriptHash(script) + [0x87])
    ensures Accepts(c, PayToScriptHash(c.chain, script).script, Cons(offered, Empty)) <==>
            c.chain.blake2b(offered) == c.chain.scriptHash(script)
  {
    var hash, opcode := PlainOp(0xaa), PlainOp(0x87);
    var push := PushOp(0x20, c.chain.scriptHash(script));
    var ops := [hash, push, opcode];
    assert ops[1..] == [push, opcode] && [push, opcode][1..] == [opcode] && [opcode][1..] == [];
    assert LeBytes(32, 0) == [] && [0x20] + [] + push.data == [0x20] + push.data;
    assert Assemble([opcode]) == [0x87] + [];
    assert Assemble([push, opcode]) == ([0x20] + push.data) + [0x87];
    assert Assemble(ops) == [0xaa] + (([0x20] + push.data) + [0x87]);
    assert Assemble(ops) == [0xaa, 0x20] + push.data + [0x87];
    RunsAsOps(c, ops, Cons(offered, Empty));
    TwoOpsRun(c, push, opcode, Cons(c.chain.blake2b(offered), Empty));
    BoolNum(true);
    BoolNum(false);
  }

  /** Two joined scripts, byte by byte. */
  lemma JoinedScriptBytes(taken: Bytes, other: Bytes)
    ensures JoinScripts(taken, other) == [0x63] + taken + [0x67] + other + [0x68]
  {
  }
}
