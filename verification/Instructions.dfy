/** The opcode-agnostic intermediate representation. */
module Instructions {
  import opened ScriptNumbers
  import opened Syntax

  datatype Value =
    | IntegerValue(n: u64)
    | BoolValue(b: bool)
    | BytesValue(bytes: Bytes)
    | TextValue(text: string)
    | SymbolValue(name: string)
    | TypeValue(ty: TypeName)

  datatype Instr =
    | Push(value: Value)
    | Drop
    | Dup
    | InputValue(index: u32)
    | InputScript(index: u32)
    | OutputValue(index: u32)
    | OutputScript(index: u32)
    | OutputCount
    | InputCount
    | CheckSig(keySlot: u32)
    | CheckMultiSig(required: u32, keyCount: u32)
    | CheckLockHeight(height: u64)
    | CheckLockTime(time: u64)
    | CheckLockHeightFromStack
    | CheckLockTimeFromStack
    | CovenantDepth
    | CovenantId
    | ZkVerifyGroth16
    | ZkVerifyRiscZero
    | SequencingCommitment
    | Sha256
    | Blake2b
    | Hash160
    | CheckHashPreimage
    | Verify
    | Equal
    | NotEqual
    | LessThan
    | LessThanOrEqual
    | GreaterThan
    | GreaterThanOrEqual
    | And
    | Or
    | Not
    | Add
    | Sub
    | Mul
    | Div
    | Mod

  type Code = seq<Instr>
}
