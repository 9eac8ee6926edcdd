/** Target gates: which programs compile for which target (compiler/codegen/src/backends/toccata.rs,
    compiler/codegen/src/grounding.rs, compiler/codegen/src/lib.rs). */
module Gates {
  import opened Wrappers
  import opened ScriptNumbers
  import opened Instructions
  import opened Script
  import opened Encoding
  import opened Disassembly

  datatype Target = VerifiedTn12 | Tn10Toccata | ToccataPreview | FutureMainnet
  {
    predicate AllowsGatedWarnings() { Tn10Toccata? || ToccataPreview? }
  }

  datatype Status = Verified | Gated | Unsupported

  datatype Record = Record(id: string, status: Status)

  // ---- the registry ----

  function InstrId(instr: Instr): string {
    match instr
    case Push(value) => if value.IntegerValue? then "push-int" else if value.BoolValue? then "push-bool" else "push-bytes"
    case Drop => "drop"
    case Dup => "dup"
    case InputValue(_) => "inputvalue"
    case InputScript(_) => "inputscript"
    case OutputValue(_) => "outputvalue"
    case OutputScript(_) => "outputscript"
    case OutputCount => "outputcount"
    case InputCount => "inputcount"
    case CheckSig(_) => "checksig"
    case CheckMultiSig(_, _) => "checkmultisig"
    case CheckLockHeight(_) | CheckLockTime(_) | CheckLockHeightFromStack | CheckLockTimeFromStack => "checklocktimeverify"
    case CovenantDepth => "covenantid-depth"
    case CovenantId => "covenantid"
    case ZkVerifyGroth16 => "zk-groth16-verify"
    case ZkVerifyRiscZero => "zk-risczero-verify"
    case SequencingCommitment => "sequencing-commitment"
    case Sha256 => "sha256"
    case Blake2b => "blake2b"
    case Hash160 => "hash160"
    case CheckHashPreimage => "check-hash-preimage"
    case Verify => "verify"
    case Equal => "equal"
    case NotEqual => "notequal"
    case LessThan => "lessthan"
    case LessThanOrEqual => "lessthanorequal"
    case GreaterThan => "greaterthan"
    case GreaterThanOrEqual => "greaterthanorequal"
    case And => "and"
    case Or => "or"
    case Not => "not"
    case Add => "add"
    case Sub => "sub"
    case Mul => "mul"
    case Div => "div"
    case Mod => "mod"
  }

  const UNSUPPORTED_OPCODES := [
    "mul", "div", "mod", "hash160", "covenantid", "covenantid-depth", "zk-groth16-verify", "zk-risczero-verify",
    "sequencing-commitment", "check-hash-preimage"]

  function RecordForInstr(instr: Instr): Record {
    Record(InstrId(instr), if InstrId(instr) in UNSUPPORTED_OPCODES then Unsupported else Verified)
  }

  /** Improvement proposals without a record pass without one. */
  function RecordForKip(kip: nat): Option<Record> {
    if kip == 10 then Some(Record("kip-10", Verified))
    else if kip == 15 then Some(Record("kip-15", Verified))
    else if kip == 16 then Some(Record("kip-16", Gated))
    else if kip == 17 then Some(Record("kip-17", Gated))
    else if kip == 20 then Some(Record("kip-20", Gated))
    else if kip == 21 then Some(Record("kip-21", Gated))
    else None
  }

  datatype CompileError = GatedFor(id: string, target: Target) | UnsupportedRecord(id: string) | Encoder(error: EncodeError)

  // ---- passing a gate ----

  /** The warnings after one more record. */
  function Passed(record: Record, target: Target, warned: seq<string>): Result<seq<string>, CompileError> {
    match record.status
    case Verified => Success(warned)
    case Gated =>
      if !target.AllowsGatedWarnings() then Failure(GatedFor(record.id, target))
      else Success(if record.id in warned then warned else warned + [record.id])
    case Unsupported => Failure(UnsupportedRecord(record.id))
  }

  function AllPassed(records: seq<Record>, target: Target, warned: seq<string>): Result<seq<string>, CompileError>
    decreases records
  {
    if records == [] then Success(warned)
    else
      var more :- Passed(records[0], target, warned);
      AllPassed(records[1..], target, more)
  }

  function KipRecords(kips: seq<nat>): seq<Record> {
    if kips == [] then []
    else (if RecordForKip(kips[0]).Some? then [RecordForKip(kips[0]).value] else []) + KipRecords(kips[1..])
  }

  function CodeRecords(code: Code): (r: seq<Record>)
    ensures |r| == |code| && forall i :: 0 <= i < |code| ==> r[i] == RecordForInstr(code[i])
  {
    if code == [] then [] else [RecordForInstr(code[0])] + CodeRecords(code[1..])
  }

  /** The lowered program: proposals it relies on, and the code of each spend. */
  datatype Ir = Ir(kips: seq<nat>, spends: seq<Code>)

  datatype Artifact = Artifact(bytecode: Bytes, warnings: seq<string>)

  function SpendCompiled(code: Code, target: Target, so: Artifact): Result<Artifact, CompileError> {
    var warned :- AllPassed(CodeRecords(code), target, so.warnings);
    if CodeOps(code).Failure? then Failure(Encoder(CodeOps(code).error))
    else Success(Artifact(so.bytecode + Assemble(CodeOps(code).value), warned))
  }

  function SpendsCompiled(spends: seq<Code>, target: Target, so: Artifact): Result<Artifact, CompileError>
    decreases spends
  {
    if spends == [] then Success(so)
    else
      var more :- SpendCompiled(spends[0], target, so);
      SpendsCompiled(spends[1..], target, more)
  }

  function Compiled(ir: Ir, target: Target): Result<Artifact, CompileError> {
    var warned :- AllPassed(KipRecords(ir.kips), target, []);
    SpendsCompiled(ir.spends, target, Artifact([], warned))
  }

  // ---- the compiler's own steps ----

  class Grounding {
    var warnings: seq<string>
    var warningIds: set<string>

    ghost predicate Valid() reads this { forall id :: id in warningIds <==> id in warnings }

    constructor ()
      ensures Valid() && warnings == []
    {
      warnings, warningIds := [], {};
    }

    method Collect(record: Record, target: Target) returns (r: Outcome<CompileError>)
      requires Valid()
      modifies this
      ensures Valid() && Collected(Passed(record, target, old(warnings)), warnings, r)
    {
      if record.status.Unsupported? { return Fail(UnsupportedRecord(record.id)); }
      if record.status.Gated? {
        if !target.AllowsGatedWarnings() { return Fail(GatedFor(record.id, target)); }
        if record.id !in warningIds {
          warningIds := warningIds + {record.id};
          warnings := warnings + [record.id];
        }
      }
      return Pass;
    }

    method CollectAll(records: seq<Record>, target: Target) returns (r: Outcome<CompileError>)
      requires Valid()
      modifies this
      ensures Valid() && Collected(AllPassed(records, target, old(warnings)), warnings, r)
    {
      assert records[0..] == records;
      for i := 0 to |records|
        invariant Valid()
        invariant AllPassed(records, target, old(warnings)) == AllPassed(records[i..], target, warnings)
      {
        assert records[i..][0] == records[i] && records[i..][1..] == records[i + 1..];
        var status := Collect(records[i], target);
        if status.Fail? { return status; }
      }
      return Pass;
    }
  }

  ghost predicate Collected(spec: Result<seq<string>, CompileError>, warnings: seq<string>, r: Outcome<CompileError>) {
    if spec.Success? then r.Pass? && warnings == spec.value else r == Fail(spec.error)
  }

  method CompileSpend(code: Code, target: Target, grounding: Grounding, out: Vec<byte>) returns (r: Outcome<CompileError>)
    requires grounding.Valid() && grounding as object != out
    modifies grounding, out
    ensures grounding.Valid()
    ensures var spec := SpendCompiled(code, target, Artifact(old(out.items), old(grounding.warnings)));
            if spec.Success? then r.Pass? && spec.value == Artifact(out.items, grounding.warnings) else r == Fail(spec.error)
  {
    r := grounding.CollectAll(CodeRecords(code), target);
    if r.Fail? { return; }
    var encoded := EncodeSequence(code, out);
    if encoded.Fail? { return Fail(Encoder(encoded.error)); }
  }

  /** Compiles a lowered program: gates first, then the bytes of every spend in turn. */
  method CompileToccata(ir: Ir, target: Target) returns (r: Result<Artifact, CompileError>)
    ensures r == Compiled(ir, target)
  {
    var grounding := new Grounding();
    var out := new Vec<byte>();
    var status := grounding.CollectAll(KipRecords(ir.kips), target);
    if status.Fail? { return Failure(status.error); }
    ghost var start := Artifact([], grounding.warnings);
    assert ir.spends[0..] == ir.spends;
    for i := 0 to |ir.spends|
      invariant grounding.Valid() && fresh(grounding) && fresh(out)
      invariant SpendsCompiled(ir.spends, target, start)
                == SpendsCompiled(ir.spends[i..], target, Artifact(out.items, grounding.warnings))
    {
      assert ir.spends[i..][0] == ir.spends[i] && ir.spends[i..][1..] == ir.spends[i + 1..];
      status := CompileSpend(ir.spends[i], target, grounding, out);
      if status.Fail? { return Failure(status.error); }
    }
    return Success(Artifact(out.items, grounding.warnings));
  }

  /** Whether an artifact has bytes and all of them disassemble. */
  method VerifyArtifact(artifact: Artifact) returns (valid: bool)
    ensures valid <==> artifact.bytecode != [] && Asm(artifact.bytecode).Some?
  {
    if artifact.bytecode == [] { return false; }
    var tokens := Disassemble(artifact.bytecode);
    return tokens.Success?;
  }

  // ---- properties of the gates ----

  /** What the strictest target lets pass, every target lets pass, without a warning; and what a
      lenient target lets pass without a warning, the strictest lets pass. */
  lemma {:induction false} StrictGate(records: seq<Record>, target: Target, warned: seq<string>)
    ensures AllPassed(records, VerifiedTn12, warned).Success? <==> AllPassed(records, target, []) == Success([])
    ensures AllPassed(records, VerifiedTn12, warned).Success? ==>
              AllPassed(records, target, warned) == Success(warned) && AllPassed(records, VerifiedTn12, warned) == Success(warned)
    decreases records
  {
    if records != [] {
      StrictGate(records[1..], target, warned);
      if Passed(records[0], target, []).Success? {
        WarningsOnlyGrow(records[1..], target, Passed(records[0], target, []).value);
      }
    }
  }

  lemma {:induction false} WarningsOnlyGrow(records: seq<Record>, target: Target, warned: seq<string>)
    ensures AllPassed(records, target, warned).Success? ==> warned <= AllPassed(records, target, warned).value
    decreases records
  {
    if records != [] && Passed(records[0], target, warned).Success? {
      WarningsOnlyGrow(records[1..], target, Passed(records[0], target, warned).value);
    }
  }

  lemma {:induction false} SpendWarningsGrow(spends: seq<Code>, target: Target, so: Artifact)
    ensures SpendsCompiled(spends, target, so).Success? ==> so.warnings <= SpendsCompiled(spends, target, so).value.warnings
    decreases spends
  {
    if spends != [] && SpendCompiled(spends[0], target, so).Success? {
      WarningsOnlyGrow(CodeRecords(spends[0]), target, so.warnings);
      SpendWarningsGrow(spends[1..], target, SpendCompiled(spends[0], target, so).value);
    }
  }

  lemma {:induction false} SpendsCompileEverywhere(spends: seq<Code>, target: Target, bytes: Bytes)
    ensures var strict, other := SpendsCompiled(spends, VerifiedTn12, Artifact(bytes, [])), SpendsCompiled(spends, target, Artifact(bytes, []));
            (strict.Success? ==> strict.value.warnings == [] && other == strict)
            && (other.Success? && other.value.warnings == [] ==> strict == other)
    decreases spends
  {
    if spends != [] {
      var so := Artifact(bytes, []);
      StrictGate(CodeRecords(spends[0]), target, []);
      if SpendCompiled(spends[0], VerifiedTn12, so).Success? {
        SpendsCompileEverywhere(spends[1..], target, SpendCompiled(spends[0], VerifiedTn12, so).value.bytecode);
      } else if SpendCompiled(spends[0], target, so).Success? {
        SpendWarningsGrow(spends[1..], target, SpendCompiled(spends[0], target, so).value);
      }
    }
  }

  /** A program compiles for the strictest target if and only if it compiles for any given target
      without a warning, and then to the same bytes. */
  lemma StrictestTargetIsEnough(ir: Ir, target: Target, artifact: Artifact)
    ensures Compiled(ir, VerifiedTn12) == Success(artifact) <==>
            Compiled(ir, target) == Success(artifact) && artifact.warnings == []
  {
    StrictGate(KipRecords(ir.kips), target, []);
    SpendsCompileEverywhere(ir.spends, target, []);
    StrictGate(KipRecords(ir.kips), VerifiedTn12, []);
    if Compiled(ir, target).Success? {
      SpendWarningsGrow(ir.spends, target, Artifact([], AllPassed(KipRecords(ir.kips), target, []).value));
    }
  }

  predicate NoRepeats(ids: seq<string>) { forall i, j :: 0 <= i < j < |ids| ==> ids[i] != ids[j] }

  lemma {:induction false} PassingKeepsDistinct(records: seq<Record>, target: Target, warned: seq<string>)
    requires NoRepeats(warned)
    ensures AllPassed(records, target, warned).Success? ==> NoRepeats(AllPassed(records, target, warned).value)
    decreases records
  {
    if records != [] && Passed(records[0], target, warned).Success? {
      PassingKeepsDistinct(records[1..], target, Passed(records[0], target, warned).value);
    }
  }

  lemma {:induction false} SpendsKeepDistinct(spends: seq<Code>, target: Target, so: Artifact)
    requires NoRepeats(so.warnings)
    ensures SpendsCompiled(spends, target, so).Success? ==> NoRepeats(SpendsCompiled(spends, target, so).value.warnings)
    decreases spends
  {
    if spends != [] && SpendCompiled(spends[0], target, so).Success? {
      PassingKeepsDistinct(CodeRecords(spends[0]), target, so.warnings);
      SpendsKeepDistinct(spends[1..], target, SpendCompiled(spends[0], target, so).value);
    }
  }

  /** No artifact warns twice about one record. */
  lemma WarningsNeverRepeat(ir: Ir, target: Target)
    ensures Compiled(ir, target).Success? ==> NoRepeats(Compiled(ir, target).value.warnings)
  {
    PassingKeepsDistinct(KipRecords(ir.kips), target, []);
    if AllPassed(KipRecords(ir.kips), target, []).Success? {
      SpendsKeepDistinct(ir.spends, target, Artifact([], AllPassed(KipRecords(ir.kips), target, []).value));
    }
  }

  // ---- what each target accepts ----

  /** The proposals that are not settled yet, by number. */
  function GatedName(kip: nat): Option<string> {
    if kip == 16 then Some("kip-16") else if kip == 17 then Some("kip-17")
    else if kip == 20 then Some("kip-20") else if kip == 21 then Some("kip-21") else None
  }

  predicate RefusesGated(target: Target) { target == VerifiedTn12 || target == FutureMainnet }

  /** The unsettled proposals in order, one by one. */
  function GatedNames(kips: seq<nat>): seq<string> {
    if kips == [] then []
    else if GatedName(kips[0]).Some? then [GatedName(kips[0]).value] + GatedNames(kips[1..])
    else GatedNames(kips[1..])
  }

  /** The members of `first`, then those of `more` that have not come up yet. */
  function Merged(first: seq<string>, more: seq<string>): seq<string>
    decreases more
  {
    if more == [] then first else Merged(if more[0] in first then first else first + [more[0]], more[1..])
  }

  lemma ProposalPasses(kip: nat, target: Target, warned: seq<string>)
    ensures RecordForKip(kip).Some? ==>
              Passed(RecordForKip(kip).value, target, warned) ==
                if GatedName(kip).None? then Success(warned)
                else if RefusesGated(target) then Failure(GatedFor(GatedName(kip).value, target))
                else Success(Merged(warned, [GatedName(kip).value]))
    ensures RecordForKip(kip).None? ==> GatedName(kip).None?
  {
    if GatedName(kip).Some? { assert [GatedName(kip).value][1..] == []; }
  }

  lemma MergedFirst(warned: seq<string>, id: string, more: seq<string>)
    ensures Merged(warned, [id] + more) == Merged(Merged(warned, [id]), more)
  {
    assert ([id] + more)[1..] == more && [id][1..] == [];
  }

  lemma KipRecordsStep(kips: seq<nat>, target: Target, warned: seq<string>)
    requires kips != []
    ensures AllPassed(KipRecords(kips), target, warned) ==
              if RecordForKip(kips[0]).None? then AllPassed(KipRecords(kips[1..]), target, warned)
              else
                match Passed(RecordForKip(kips[0]).value, target, warned)
                case Success(more) => AllPassed(KipRecords(kips[1..]), target, more)
                case Failure(error) => Failure(error)
  {
    if RecordForKip(kips[0]).Some? {
      assert KipRecords(kips)[0] == RecordForKip(kips[0]).value && KipRecords(kips)[1..] == KipRecords(kips[1..]);
    } else {
      assert KipRecords(kips) == KipRecords(kips[1..]);
    }
  }

  /** The strict targets refuse the first unsettled proposal; the others warn of each once. */
  lemma {:induction false} ProposalsByTarget(kips: seq<nat>, target: Target, warned: seq<string>)
    ensures AllPassed(KipRecords(kips), target, warned) ==
              if RefusesGated(target) && GatedNames(kips) != [] then Failure(GatedFor(GatedNames(kips)[0], target))
              else Success(Merged(warned, GatedNames(kips)))
    decreases kips
  {
    if kips != [] {
      KipRecordsStep(kips, target, warned);
      ProposalPasses(kips[0], target, warned);
      if GatedName(kips[0]).None? {
        ProposalsByTarget(kips[1..], target, warned);
      } else {
        assert GatedNames(kips)[0] == GatedName(kips[0]).value;
        MergedFirst(warned, GatedName(kips[0]).value, GatedNames(kips[1..]));
        ProposalsByTarget(kips[1..], target, Merged(warned, [GatedName(kips[0]).value]));
      }
    }
  }

  /** The instructions no target compiles, by the name they are refused under. */
  function UnsupportedName(instr: Instr): Option<string> {
    match instr
    case Mul => Some("mul")
    case Div => Some("div")
    case Mod => Some("mod")
    case Hash160 => Some("hash160")
    case CovenantId => Some("covenantid")
    case CovenantDepth => Some("covenantid-depth")
    case ZkVerifyGroth16 => Some("zk-groth16-verify")
    case ZkVerifyRiscZero => Some("zk-risczero-verify")
    case SequencingCommitment => Some("sequencing-commitment")
    case CheckHashPreimage => Some("check-hash-preimage")
    case _ => None
  }

  function FirstUnsupported(code: Code): Option<string> {
    if code == [] then None
    else if UnsupportedName(code[0]).Some? then UnsupportedName(code[0])
    else FirstUnsupported(code[1..])
  }

  lemma RecordByInstruction(instr: Instr)
    ensures match UnsupportedName(instr)
            case Some(name) => RecordForInstr(instr) == Record(name, Unsupported)
            case None => RecordForInstr(instr).status == Verified
  {
  }

  /** Code passes for every target, without a warning, unless one of its instructions is unsupported. */
  lemma {:induction false} CodeByTarget(code: Code, target: Target, warned: seq<string>)
    ensures AllPassed(CodeRecords(code), target, warned) ==
            match FirstUnsupported(code)
            case Some(name) => Failure(UnsupportedRecord(name))
            case None => Success(warned)
    decreases code
  {
    if code != [] {
      RecordByInstruction(code[0]);
      assert CodeRecords(code)[1..] == CodeRecords(code[1..]);
      CodeByTarget(code[1..], target, warned);
    }
  }

  /** What stops the first of the spends that does not compile, whatever the target. */
  function SpendsError(spends: seq<Code>): Option<CompileError> {
    if spends == [] then None
    else if FirstUnsupported(spends[0]).Some? then Some(UnsupportedRecord(FirstUnsupported(spends[0]).value))
    else if CodeOps(spends[0]).Failure? then Some(Encoder(CodeOps(spends[0]).error))
    else SpendsError(spends[1..])
  }

  function SpendsBytes(spends: seq<Code>): Bytes
    requires SpendsError(spends).None?
  {
    if spends == [] then [] else Assemble(CodeOps(spends[0]).value) + SpendsBytes(spends[1..])
  }

  lemma {:induction false} SpendsByTarget(spends: seq<Code>, target: Target, so: Artifact)
    ensures SpendsCompiled(spends, target, so) ==
            match SpendsError(spends)
            case Some(error) => Failure(error)
            case None => Success(Artifact(so.bytecode + SpendsBytes(spends), so.warnings))
    decreases spends
  {
    if spends == [] {
      assert so.bytecode + [] == so.bytecode;
    } else {
      CodeByTarget(spends[0], target, so.warnings);
      if SpendCompiled(spends[0], target, so).Success? {
        SpendsByTarget(spends[1..], target, SpendCompiled(spends[0], target, so).value);
        if SpendsError(spends[1..]).None? {
          ConcatAssociates(so.bytecode, Assemble(CodeOps(spends[0]).value), SpendsBytes(spends[1..]));
        }
      }
    }
  }

  /** Compilation for each of the four targets: `verified-tn12` and `future-mainnet` refuse the first
      unsettled proposal a program relies on; `tn10-toccata` and `toccata-preview` warn of each of them
      once, in order, and of nothing else. Past that the target plays no part: the first unsupported
      instruction or oversize value stops compilation, or the bytes are those of every spend in turn. */
  lemma CompiledByTarget(ir: Ir, target: Target)
    ensures Compiled(ir, target) ==
            if RefusesGated(target) && GatedNames(ir.kips) != [] then Failure(GatedFor(GatedNames(ir.kips)[0], target))
            else if SpendsError(ir.spends).Some? then Failure(SpendsError(ir.spends).value)
            else Success(Artifact(SpendsBytes(ir.spends), Merged([], GatedNames(ir.kips))))
  {
    ProposalsByTarget(ir.kips, target, []);
    SpendsByTarget(ir.spends, target, Artifact([], Merged([], GatedNames(ir.kips))));
    if SpendsError(ir.spends).None? {
      assert [] + SpendsBytes(ir.spends) == SpendsBytes(ir.spends);
    }
  }

  // ---- the gates and the encoder ----

  /** The registry refuses exactly the instructions the encoder cannot write. */
  lemma RegistryMatchesEncoder(instr: Instr)
    ensures RecordForInstr(instr).status.Unsupported? <==> InstrOps(instr) == Failure(NotSupported(instr))
    ensures InstrOps(instr).Failure? && !RecordForInstr(instr).status.Unsupported? ==> InstrOps(instr).error == ValueTooLarge
  {
  }

  /** Code that passes the gates fails to encode only because of a value that is too large. */
  lemma {:induction false} GroundedCodeEncodes(code: Code, target: Target, warned: seq<string>)
    requires AllPassed(CodeRecords(code), target, warned).Success?
    ensures CodeOps(code).Failure? ==> CodeOps(code).error == ValueTooLarge
    decreases code
  {
    if code != [] {
      RegistryMatchesEncoder(code[0]);
      assert CodeRecords(code)[1..] == CodeRecords(code[1..]);
      GroundedCodeEncodes(code[1..], target, Passed(CodeRecords(code)[0], target, warned).value);
    }
  }

  lemma {:induction false} CompilationFails(spends: seq<Code>, target: Target, so: Artifact)
    requires SpendsCompiled(spends, target, so).Failure? && SpendsCompiled(spends, target, so).error.Encoder?
    ensures SpendsCompiled(spends, target, so).error.error == ValueTooLarge
    decreases spends
  {
    if SpendCompiled(spends[0], target, so).Success? {
      CompilationFails(spends[1..], target, SpendCompiled(spends[0], target, so).value);
    } else if AllPassed(CodeRecords(spends[0]), target, so.warnings).Success? {
      GroundedCodeEncodes(spends[0], target, so.warnings);
    } else {
      GateErrors(CodeRecords(spends[0]), target, so.warnings);
    }
  }

  lemma {:induction false} GateErrors(records: seq<Record>, target: Target, warned: seq<string>)
    requires AllPassed(records, target, warned).Failure?
    ensures !AllPassed(records, target, warned).error.Encoder?
    decreases records
  {
    if Passed(records[0], target, warned).Success? {
      GateErrors(records[1..], target, Passed(records[0], target, warned).value);
    }
  }

  /** Once the gates are passed, compilation can only fail on a value that is too large. */
  lemma EncoderFailsOnlyOnSize(ir: Ir, target: Target)
    requires Compiled(ir, target).Failure? && Compiled(ir, target).error.Encoder?
    ensures Compiled(ir, target).error.error == ValueTooLarge
  {
    if AllPassed(KipRecords(ir.kips), target, []).Failure? {
      GateErrors(KipRecords(ir.kips), target, []);
    } else {
      CompilationFails(ir.spends, target, Artifact([], AllPassed(KipRecords(ir.kips), target, []).value));
    }
  }

  lemma {:induction false} SpendsDisassemble(spends: seq<Code>, target: Target, so: Artifact)
    requires Asm(so.bytecode).Some? && SpendsCompiled(spends, target, so).Success?
    ensures Asm(SpendsCompiled(spends, target, so).value.bytecode).Some?
    decreases spends
  {
    if spends != [] {
      EncodedDisassembles(spends[0]);
      DisassemblyConcat(so.bytecode, Assemble(CodeOps(spends[0]).value));
      SpendsDisassemble(spends[1..], target, SpendCompiled(spends[0], target, so).value);
    }
  }

  /** Every compiled artifact disassembles, so every one with bytes passes verification. */
  lemma CompiledArtifactsVerify(ir: Ir, target: Target)
    requires Compiled(ir, target).Success?
    ensures Asm(Compiled(ir, target).value.bytecode).Some?
  {
    SpendsDisassemble(ir.spends, target, Artifact([], AllPassed(KipRecords(ir.kips), target, []).value));
  }
}
