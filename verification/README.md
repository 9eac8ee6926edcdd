# KaspaScript: compiler, escrow and transactions

KaspaScript is a small contract language for Kaspa. A spend is a list of requirements on the
transaction that unlocks an output. The compiler parses it, checks it, lowers it to stack code and
encodes that as a txscript. A wallet reads an application model derived from the same source. Around the
compiler sit a two-path escrow and the code that builds and books transactions.

This project models those parts and proves how they fit together.

## From source to script

- `Syntax`, `Tokens`, `Grammar`, `Parser`: the Pratt parser, with its moving cursor.
- `Readings`: what it means for tokens to read as an expression; the parser finds exactly the readings.
- `Printer`, `Programs`: writing expressions and programs with the fewest parentheses; parsing undoes it.
- `ContractItems`: contracts with several `params` blocks, in any order with their spends.
- `Lowering`, `Instructions`: stack code, appended to one shared buffer.
- `ScriptNumbers`, `Script`, `Encoding`, `Disassembly`: bytes, decoding, and the disassembler.
- `Engine`: a machine over txscript operations and bytes, with minimal pushes, in-order multisig matching
  and nested conditionals. Signatures, hashes and script hashes are uninterpreted functions.
- `Evaluation`: what an expression means about a transaction, with no stack in sight.
- `LockScripts`: the standard locks, byte by byte and as scripts that run.
- `Simulation`, `Correctness`, `Spends`: bytes run as code, code computes the meaning, and a whole spend
  accepts exactly when its requirements hold. `Spends.SpendAccepts` is the central theorem: for every
  transaction and every unlocking stack, in both directions.
- `Statements`: what `let` and `return` leave on the stack, and what that does to a spend.
- `Multisig`: matching signatures greedily finds an assignment to keys whenever there is one.
- `Gates`: which programs compile for which target.
- `TypeSoundness`: values have the types the checker infers, and what that gives a compiled spend.
- `Instantiation`, `Parameters`, `Pipeline`: giving a contract its parameters, what they stand for, and the
  whole way from tokens to the script that locks an output. `Pipeline.CompiledSpendIsCorrect` states it end
  to end.
- `Positions`: source positions change nothing on that way.
- `Limits`: the conditions are needed. For each there is a general lemma, and a concrete contract that
  compiles together with a transaction on which source and script, or script and model, part ways.

The fragment with exact results is: bodies made of `require`; names, integers, booleans, strings, counts,
`input(i)` and `output(i)` with `.value` and `.script`, comparisons, `&&`, `||`, `!`, `+`, `-`, `verify`,
`multisig` with exactly as many signatures as its threshold, `sha256`, `blake2b`, `continuation`, and lock
tests `block.height >= e` and `block.time >= e`.

Two properties one might expect are false, and the exact conditions are stated instead. A lock test
aborts the script where the source makes it false, so a lock under `||` is demanded all the same. And
`!=` is compiled to a numeric opcode, so requiring two scripts to differ can never be fulfilled.
`Evaluation.Faults` names these two ways to abort, and `Spends.SpendAccepts` is an equivalence over them.
The checker does not look at the operands of an order, so a well-typed requirement can have no value;
`TypeSoundness.OnlyCauses` says what else there must be for that when only numbers are ordered.

A `let` leaves two items on the stack and a `return` one. `Statements.ItemsAddUp` says what follows for
whatever unlocks a spend: the items supplied and the items left are as many as the arguments. So without
arguments such a spend is locked for ever, and an argument that is only returned need not be supplied. A
checked contract with a `let` does not even come to that: `Pipeline.LetStopsInstantiation`.

The engine's lock opcode is taken to consume its operand: the encoder writes it followed by a true value
and no drop, which leaves one value only then.

## What wallets are told

- `Traversal`, `Checker`: the semantic checks of a program, with every problem it reports in order; none is
  reported if and only if nothing is wrong.
- `Problems`: for each problem the mistake it stands for; what is reported are the mistakes, no more and no less.
- `ApplicationModel`: exact counts, output bindings, named successors.
- `NormalForms`: what the expressions in a model mean to its reader, and that they mean what the source means.
- `ModelListings`: what a model lists of a spend, and that its constraints say what the requirements say.
- `ModelSoundness`: every transaction the script accepts is one the model describes, down to the value of the
  expression each output is compared with, as the model writes it.

## The escrow

- `EscrowContract`, `Escrow`: the buyer and seller contract, its binding loop, and the joined script, which
  accepts if and only if the policy is met.
- `EscrowSpends`: agreeing on terms, building a spend, signing it. Nothing else opens the lock, short of a
  second script with the same hash, and what is built does open it.
- `EscrowSource`: the same contract from its tokens on: it parses, passes the checker, compiles for every
  target, and what its code is joined to is the script above.

## Transactions

- `Plan`, `Ledger`: explicit-fee plans and runs over a ledger of unspent outputs.
- `Funding`, `Fees`, `ContractRun`: coin selection, the bounded fee loop, and the lock-then-spend pair.
  The fee loop can miss its fixed point; `Fees.TenRoundsPayTheFee` says exactly when, and
  `Fees.WaveringFundsUnderpay` gives funds for which it does.

`Wrappers` holds options, results, a growable buffer and a few facts about sequences.

## Model

| member | source | states |
|---|---|---|
| ScriptNumbers.NumRoundTrip | compiler/codegen/src/backends/toccata.rs:278-305 | every number of the engine's 64-bit range is read back from its encoding, which has at most 8 bytes |
| ScriptNumbers.NumUnique | compiler/codegen/src/backends/toccata.rs:278-305 | the encoding of a number is the only minimal byte string of at most 8 bytes that reads as it |
| ScriptNumbers.NumShortest | compiler/codegen/src/backends/toccata.rs:278-305 | no shorter byte string has the same value |
| ScriptNumbers.NumInjective | compiler/codegen/src/backends/toccata.rs:243-244 | byte equality of two encodings is equality of the numbers, and inequality their inequality |
| ScriptNumbers.NumUnsigned | compiler/codegen/src/backends/toccata.rs:294-305 | the encoding of a non-negative number keeps the sign bit clear and reads the same as raw little-endian bytes |
| ScriptNumbers.BoolNum | compiler/codegen/src/backends/toccata.rs:261-261 | the two truth values are the numbers 0 and 1 and read back as truth values |
| ScriptNumbers.TruthOfNumber | compiler/codegen/src/backends/toccata.rs:278-305 | a minimal number is true as a stack item exactly when it is not zero |
| Lowering.LowerExpr | compiler/ir/src/gen.rs:139-199 | the expression pass appends exactly the code of the expression to the shared buffer, or reports its error |
| Lowering.LowerExprs | compiler/ir/src/gen.rs:167-171 | a list of expressions appends the code of each in turn |
| Lowering.LowerBinaryExpr | compiler/ir/src/gen.rs:201-232 | left code, right code, operator, unless the expression is a lock test |
| Lowering.LowerSpecialBinary | compiler/ir/src/gen.rs:234-273 | `block.height` or `block.time` `>=` becomes one lock instruction, with the literal in it or the operand on the stack |
| Lowering.LowerCallExpr | compiler/ir/src/gen.rs:275-332 | each built-in call has its own code; any other call leaves callee and arguments |
| Lowering.LowerIndexCallExpr | compiler/ir/src/gen.rs:334-354 | an index must be a 32-bit literal |
| Lowering.LowerContinuationExpr | compiler/ir/src/gen.rs:356-377 | a continuation claim compares the output count with the literal index |
| Lowering.LowerMultisigExpr | compiler/ir/src/gen.rs:398-438 | signatures, threshold, keys, then the check |
| Lowering.LowerFieldExpr | compiler/ir/src/gen.rs:440-491 | fields of inputs and outputs become introspection, with every error of the pass |
| Lowering.LowerSpendBody | compiler/ir/src/gen.rs:77-116 | the statement loop appends the code of every statement in turn |
| Statements.BodyAdds | compiler/ir/src/gen.rs:87-109 | the code of any body of the fragment takes nothing from the stack and adds, in order: for `let` the value and that of the name, for `return` the value, for `require` nothing; it aborts exactly when a requirement fails, a value is missing or a fault occurs |
| Statements.ItemsAddUp | compiler/ir/src/gen.rs:87-109 | whatever unlocks a deployed spend, the items supplied and the items its statements leave are as many as its arguments |
| Statements.LeftoversLockForever | compiler/ir/src/gen.rs:87-109 | a spend without arguments that has a `let` or `return`, or one that leaves more items than it has arguments, is never unlocked |
| Statements.ReturnedArgumentIsNotNeeded | compiler/ir/src/gen.rs:105-107 | concrete case: after `return` of its only argument a spend is unlocked by the empty stack and by no other |
| Multisig.GreedyIsExact | compiler/ir/src/gen.rs:398-438 | matching signatures against keys one by one succeeds if and only if the signatures are those of different keys in the order of the keys |
| Multisig.MultisigHolds | compiler/ir/src/gen.rs:398-438 | a multisig requirement holds if and only if there are at most twenty keys and such an assignment |
| Script.DecodeAssemble | compiler/codegen/src/backends/toccata.rs:307-327 | decoding the bytes of well-formed operations gives back exactly those operations, whatever data the pushes carry |
| Script.AssembleDecode | compiler/codegen/src/lib.rs:168-233 | a script that decodes is exactly the bytes of its operations |
| Script.DecodeConcat | compiler/codegen/src/lib.rs:168-233 | a script that decodes can be followed by any other without changing how either decodes |
| Encoding.EncodeData | compiler/codegen/src/backends/toccata.rs:307-327 | the shortest length form is chosen, and data over 32 bits of length is refused |
| Encoding.EncodeU64 | compiler/codegen/src/backends/toccata.rs:278-305 | the loop emits the minimal number push, small-number opcodes up to 16, and refuses values above 2^63-1 |
| Encoding.EncodePush | compiler/codegen/src/backends/toccata.rs:258-270 | every kind of pushed value becomes the intended operation |
| Encoding.Utf8ReadsBack | compiler/codegen/src/backends/toccata.rs:258-270 | text is pushed as UTF-8: reading the bytes gives the code points back |
| Encoding.EncodeInstruction | compiler/codegen/src/backends/toccata.rs:198-256 | every instruction appends the bytes of its operations, or is refused |
| Encoding.EncodeSequence | compiler/codegen/src/backends/toccata.rs:188-196 | a sequence appends the bytes of all its operations, stopping at the first error |
| Encoding.CompileSpendScript | compiler/codegen/src/backends/toccata.rs:138-145 | a spend script is its code and a final true; an empty body is refused |
| Encoding.CodeOpsWellFormed | compiler/codegen/src/backends/toccata.rs:188-327 | every operation the encoder intends is well formed |
| Encoding.SpendScriptDecodes | compiler/codegen/src/backends/toccata.rs:138-327 | the bytes of a spend script decode to exactly the intended operations |
| Encoding.CodeOpsConcat | compiler/codegen/src/backends/toccata.rs:188-196 | the operations of two code sequences in a row are those of one after the other |
| Disassembly.ReadPushData | compiler/codegen/src/lib.rs:213-233 | reads exactly the announced bytes or fails; never past the end |
| Disassembly.ReadLen | compiler/codegen/src/lib.rs:235-274 | reads a little-endian length of one, two or four bytes or fails; never past the end |
| Disassembly.Disassemble | compiler/codegen/src/lib.rs:168-211 | the loop succeeds exactly on scripts made of complete, named operations, and returns their tokens; on any other script it reports the place of the unknown opcode, the missing length or the missing data |
| Disassembly.DisassemblyIsLossless | compiler/codegen/src/lib.rs:168-233 | reassembling the tokens of any accepted script gives back the same bytes |
| Disassembly.DisassemblyConcat | compiler/codegen/src/lib.rs:168-211 | disassembling two scripts in a row gives one token list after the other |
| Disassembly.EncodedDisassembles | compiler/codegen/src/lib.rs:144-150 | everything the encoder writes disassembles |
| Disassembly.InstructionShows | compiler/codegen/src/lib.rs:276-308 | the bytes of every instruction the encoder writes disassemble to its own number and the name the disassembler prints for it: `Sub` to `OP_SUB`, `Sha256` to `OP_SHA256`, and so on, by the disassembler's own table |
| Disassembly.CodeShows | compiler/codegen/src/lib.rs:168-211 | compiled code disassembles to the numbers and printed names of its instructions, in order |
| Disassembly.SpendScriptShows | compiler/codegen/src/backends/toccata.rs:138-145 | so does a spend script, with its final true |
| LockScripts.Widths | compiler/codegen/src/backends/toccata.rs:278-305 | the bounds of the model are the largest numbers of eight and four bytes, and of eight bytes with a clear sign bit |
| LockScripts.SmallPushIsSmallNumber | compatibility/toccata-v2/src/escrow.rs:381-391 | data with a small-number opcode is exactly the encodings of -1 and of 1 to 16 |
| LockScripts.SpkReadsBack | sdk/src/testnet.rs:1812-1821 | the bytes of a script public key are its version, high byte first, and its script |
| LockScripts.PayToKeyLocks | sdk/src/testnet.rs:1812-1821 | the pay-to-key script of a key, byte by byte; what opens it is a signature valid for that key |
| LockScripts.PayToScriptHashLocks | compatibility/toccata-v2/src/escrow.rs:168-171 | the pay-to-script-hash lock, byte by byte; it accepts what hashes to the 32 bytes it names |
| LockScripts.JoinedScriptBytes | compatibility/toccata-v2/src/escrow.rs:160-167 | two scripts joined, byte by byte |
| Engine.JoinedBranches | compatibility/toccata-v2/src/escrow.rs:160-167 | a script joined by IF, ELSE and ENDIF runs the first branch on a true selector and the second on a false one; no byte of pushed data can end a branch |
| Engine.RunsAsOps | compiler/codegen/src/lib.rs:168-233 | running the bytes of well-formed operations is running the operations |
| Simulation.StepSimulates | compiler/codegen/src/backends/toccata.rs:198-256 | the operations of one instruction do to the stack what the instruction does, unless one of its pushes is refused |
| Simulation.RunSimulates | compiler/codegen/src/backends/toccata.rs:188-256 | the operations of a code sequence run as the sequence does |
| Simulation.BytesRunAsCode | compiler/codegen/src/backends/toccata.rs:129-133 | running the emitted bytes is running the code they stand for |
| Simulation.SpendScriptAccepts | compiler/codegen/src/backends/toccata.rs:135-145 | a spend script accepts exactly when its code runs to an empty stack |
| Correctness.FragmentLowers | compiler/ir/src/gen.rs:139-199 | every expression of the fragment lowers |
| Correctness.ExpressionRuns | compiler/ir/src/gen.rs:139-273 | for every transaction, stack and expression of the fragment: its code adds exactly the value of the expression, and aborts exactly when there is no value or a fault |
| Correctness.ListRuns | compiler/ir/src/gen.rs:398-438 | the code of a list adds the values of its elements in order |
| Evaluation.TrueConjunctionPassesLocks | compiler/ir/src/gen.rs:234-273 | a true expression has passed every lock test it conjoins |
| Evaluation.LockTestHolds | compiler/ir/src/gen.rs:234-273 | `block.height >= e` and `block.time >= e` both hold exactly when the lock time is of the kind of the value of `e`, has reached it, and the input's sequence does not switch it off |
| Spends.BodyRuns | compiler/ir/src/gen.rs:87-109 | the code of a body of requirements consumes what it adds and runs through exactly when every requirement holds without a fault |
| Instantiation.ValidateBindings | sdk/src/testnet.rs:1769-1805 | the loop reports the first parameter that is missing or has a value of another type |
| Instantiation.InstantiateCode | sdk/src/testnet.rs:1197-1221 | the instantiation loop drops argument pushes and replaces every other symbol by the value of its parameter, a key right after a script read by its pay-to-key script; it fails exactly on a symbol that is neither, naming the first |
| Instantiation.InstantiateContract | sdk/src/testnet.rs:1167-1225 | one path only, valid parameters, every symbol bound, then the redeem script; otherwise the first of these that fails |
| Parameters.ParameterStandsFor | sdk/src/testnet.rs:1807-1831 | what each kind of parameter stands for: a key for itself, or behind a script read for the script that pays it; hashes, bytes, truth values and numbers for exactly the given value |
| Parameters.PayeeScript | sdk/src/testnet.rs:1812-1821 | the instantiated script of `output(i).script == p` accepts if and only if nothing else is on the stack and output `i` pays the key bound to `p` |
| Parameters.SignerScript | sdk/src/testnet.rs:1812-1821 | the instantiated script of `s.verify(p)` accepts if and only if the stack holds one signature, valid for the key bound to `p` itself |
| Instantiation.OnlyUnboundFails | sdk/src/testnet.rs:1807-1831 | with valid parameters every parameter has a value, so only an unknown symbol stops the loop |
| Instantiation.ParametersOfContractFit | sdk/src/testnet.rs:1782-1831 | values that pass validation fit the types the checker assumed for their names |
| Spends.WitnessBinding | sdk/src/testnet.rs:1197-1221 | when argument pushes lead in declared order and occur nowhere else, dropping them and starting from the arguments is the same run as pushing them in the script |
| Spends.SpendAccepts | compiler/codegen/src/backends/toccata.rs:138-256 | for every transaction and unlocking stack: the compiled spend accepts if and only if the stack has one item per argument, every requirement holds, none has a fault, and every push is accepted |
| Spends.AcceptanceIsSound | compiler/ir/src/gen.rs:139-273 | acceptance implies every requirement, wherever lock tests stand |
| Spends.AcceptanceIsComplete | compiler/ir/src/gen.rs:139-273 | with lock tests only in conjunctions and `!=` only on numbers, acceptance is exactly every requirement holding |
| TypeSoundness.ValuesFit | compiler/semantic/src/checker.rs:250-299 | whatever an expression of the fragment evaluates to has the type the checker infers |
| TypeSoundness.OnlyCauses | compiler/semantic/src/checker.rs:250-299 | a well-typed expression that orders, adds and subtracts numbers only has a value if and only if no name is unbound, no read out of range, no number too large and no signature check aborts |
| TypeSoundness.RequirementIsTruthValue | compiler/semantic/src/checker.rs:218-228 | an accepted requirement is true or false unless one of these causes is present |
| TypeSoundness.OrderOfTextIsStuck | compiler/semantic/src/checker.rs:268-299 | concrete case: an order between a longer text and a number is accepted and has no value |
| TypeSoundness.NoNotNumbers | compiler/codegen/src/backends/toccata.rs:244-244 | `!=` between operands of numeric types never meets anything but numbers |
| TypeSoundness.TypedAcceptanceIsComplete | compiler/ir/src/gen.rs:139-273 | completeness under conditions known before a transaction exists: locks in conjunctions, `!=` between numeric types, parameters and stack items of their declared types |
| Pipeline.CompileFile | compiler/codegen/src/lib.rs:133-141 | parsing, checking, lowering and generating in turn, with the failure of the first stage that fails |
| Pipeline.LowerProgram | compiler/ir/src/gen.rs:79-116 | the code of every spend of every contract, in order |
| Pipeline.LetStopsInstantiation | sdk/src/testnet.rs:1197-1221 | a checked contract with a `let` is never given its parameters, whatever they are: the name it binds is pushed as a symbol that is neither parameter nor argument |
| Pipeline.SourceOfProposals | compiler/semantic/src/checker.rs:752-812 | which names and fields make a program rely on which improvement proposal: 10, 15, 16, 20 and no others |
| Pipeline.TargetsDifferOnProposals | compiler/codegen/src/lib.rs:51-53 | a file that mentions proofs or covenant ids never compiles for verified-tn12 or future-mainnet; any other gives the same result for every target, without a warning |
| Pipeline.CompiledSpendIsSound | compiler/codegen/src/lib.rs:133-141 | from tokens to verdict: whatever unlocks the script of a compiled, instantiated contract meets every requirement of the source and is as the model describes |
| Pipeline.CompiledSpendIsCorrect | compiler/codegen/src/lib.rs:133-141 | from tokens to verdict, both ways: the script accepts exactly the transactions and stacks for which every requirement holds |
| Positions.LowerErased | compiler/ir/src/gen.rs:139-199 | the code of an expression does not depend on source positions |
| Positions.FoundInProgramErased | compiler/semantic/src/checker.rs:120-178 | what the checker reports does not depend on source positions |
| Positions.AlikeCompileAlike | compiler/codegen/src/lib.rs:133-141 | files that parse to the same program up to positions have the same problems, or the same code and artifact |
| Limits.InequalityRefusesBytes | compiler/codegen/src/backends/toccata.rs:244-244 | a requirement headed by `!=` is never fulfilled when its left value is not a number |
| Limits.DifferentScriptsAreRefused | compiler/codegen/src/backends/toccata.rs:244-244 | requiring two scripts to differ can hold, and is refused for every longer script |
| Limits.ScriptsSpendRefuses | compiler/codegen/src/backends/toccata.rs:244-244 | concrete case: a compiled contract with that requirement, and a transaction whose scripts differ and that it refuses |
| Limits.LockOrNotIsTrue | compiler/codegen/src/backends/toccata.rs:214-222 | `true &#124;&#124; block.height >= 100` holds in every world, and has a fault wherever the lock is not reached |
| Limits.AlternativeLockIsDemanded | compiler/codegen/src/backends/toccata.rs:214-222 | a lock test under `&#124;&#124;` is demanded although the requirement holds without it |
| Limits.LockSpendRefuses | compiler/codegen/src/backends/toccata.rs:214-222 | concrete case: a compiled contract with that requirement, and a transaction at height 50 for which it holds and that it refuses |
| Limits.SmallDataIsRefused | compiler/codegen/src/backends/toccata.rs:307-327 | one-byte data that a small-number opcode could push makes a spend that nothing unlocks |
| Limits.TagSpendRefuses | compiler/codegen/src/backends/toccata.rs:307-327 | concrete case: a compiled contract with such a parameter, whose requirement holds everywhere and which nothing unlocks |
| Limits.AlternativeSuccessorsAreNotEnforced | compiler/ir/src/application.rs:481-506 | concrete case: a checked and compiled contract whose model lists a successor named under `&#124;&#124;`, and whose script accepts a transaction without outputs |
| Escrow.BindParameters | compatibility/toccata-v2/src/escrow.rs:204-256 | the binding loop drops the signature pushes and substitutes keys, the deadline, the cap and, after a script read, the pay-to-key script |
| Escrow.BranchDeploys | compatibility/toccata-v2/src/escrow.rs:144-159 | both compiled branches are valid deployments of the contract's source, for all accepted terms |
| Escrow.TwoOfTwo | contracts/buyer_seller_escrow.ks:10-10 | a two-of-two check is true exactly when each signature matches the key at its own place |
| Escrow.RedeemRuns | compatibility/toccata-v2/src/escrow.rs:160-167 | the joined script accepts exactly when the selected branch accepts what is below the selector |
| Escrow.ReleaseEnforcesPolicy | contracts/buyer_seller_escrow.ks:9-16 | the release branch accepts exactly two signatures, of buyer and seller, on a transaction that pays the seller in full |
| Escrow.RefundEnforcesPolicy | contracts/buyer_seller_escrow.ks:18-26 | the refund branch accepts exactly the buyer's signature on a transaction past the deadline that pays the buyer in full |
| Escrow.RedeemEnforcesPolicy | contracts/buyer_seller_escrow.ks:9-26 | for every transaction and unlocking stack the redeem script accepts if and only if the policy of one of the two paths is met: signers, deadline, one input, one output, payee, and value at least the input less the cap |
| EscrowSpends.CompileBranch | compatibility/toccata-v2/src/escrow.rs:144-159 | compiling a path of accepted terms cannot fail |
| EscrowSpends.Agree | compatibility/toccata-v2/src/escrow.rs:117-172 | agreement is reached if and only if the keys are two different valid points of 32 bytes, the deadline is a height above zero and the cap is from 1 to 2^63-1; otherwise the first failing check is named, and an agreement holds the redeem script and its hash |
| EscrowSpends.SignatureScript | compatibility/toccata-v2/src/escrow.rs:369-392 | wrong signatures are refused; otherwise the script pushes signatures, selector and redeem script |
| EscrowSpends.BuilderRuns | compatibility/toccata-v2/src/escrow.rs:381-391 | a signature script leaves exactly its data on the stack, using pushes only |
| EscrowSpends.LockIsSafe | compatibility/toccata-v2/src/escrow.rs:144-171 | for every transaction and every signature script: what opens the escrow's lock is the redeem script on a stack that meets the policy, or a second script with the same hash; and the former always opens it |
| EscrowSpends.UnsignedSpend | compatibility/toccata-v2/src/escrow.rs:258-366 | every check in order, then the built transaction with the storage mass the node's rules compute |
| EscrowSpends.SpendSays | compatibility/toccata-v2/src/escrow.rs:293-323 | the one input is the asked for outpoint with its entry, unsigned, with the caller's budget; a refund waits for the deadline with sequence 0, a release does not wait and has the largest sequence |
| EscrowSpends.SpendNeverMiscounts | compatibility/toccata-v2/src/escrow.rs:258-366 | once the checks pass, only the node's own covenant and mass rules can refuse, never the fee, the sums or the inputs; what is built pays the agreed party everything but the fee |
| EscrowSpends.FindOnly | compatibility/toccata-v2/src/escrow.rs:474-482 | finds the one reported entry of an outpoint, refusing none and several |
| EscrowSpends.ObservedSpend | compatibility/toccata-v2/src/escrow.rs:460-490 | from a node's report: an unusable node, a refund that is not due, a missing and a repeated outpoint are refused in this order, and from a single entry the spend is built as above |
| EscrowSpends.SpendIsLive | compatibility/toccata-v2/src/escrow.rs:258-392 | signatures valid on the unsigned transaction of an agreed escrow, made into a signature script, open the lock |
| EscrowSpends.RedeemScriptIsShort | compatibility/toccata-v2/src/escrow.rs:160-167 | the redeem script always fits a push |
| EscrowSource.WrittenEscrowIsFile | contracts/buyer_seller_escrow.ks:1-27 | the contract written as tokens parses to it |
| EscrowSource.EscrowIsChecked | compiler/semantic/src/checker.rs:120-248 | the checker reports nothing of the escrow |
| EscrowSource.EscrowFileCompiles | compatibility/toccata-v2/src/escrow.rs:129-134 | every file that parses to the escrow compiles for every target, without a warning, to the code of its two paths |
| EscrowSource.EscrowFileEnforcesPolicy | compatibility/toccata-v2/src/escrow.rs:117-172 | binding accepted terms into what such a file compiles to and joining the paths gives the redeem script, which accepts if and only if the policy is met |
| Plan.HasDuplicate | compatibility/toccata-v2/src/lib.rs:81-88 | the set-filling loop finds a repeated outpoint exactly when there is one |
| Plan.CheckedTotalIn | compatibility/toccata-v2/src/lib.rs:89-92 | the sum of the inputs, or nothing when it leaves 64 bits |
| Plan.CheckedTotalOut | compatibility/toccata-v2/src/lib.rs:93-95 | the sum of the outputs, or nothing when it leaves 64 bits |
| Plan.Build | compatibility/toccata-v2/src/lib.rs:74-140 | every check in its order, then the transaction with its covenant tags |
| Plan.BuiltIsBalanced | compatibility/toccata-v2/src/lib.rs:74-140 | a built transaction is the planned one input by input and output by output but for covenant tags, spends distinct outpoints, and pays exactly its declared fee |
| Ledger.FixtureLedger.CheckInputs | compatibility/toccata-v2/tests/native.rs:247-251 | whether every input finds the entry the transaction was built with |
| Ledger.FixtureLedger.RemoveInputs | compatibility/toccata-v2/tests/native.rs:255-257 | removes exactly the consumed outpoints |
| Ledger.FixtureLedger.InsertOutputs | compatibility/toccata-v2/tests/native.rs:258-269 | adds exactly one entry for each output |
| Ledger.FixtureLedger.Apply | compatibility/toccata-v2/tests/native.rs:243-271 | a step changes the ledger as a whole or not at all |
| Ledger.ValidateScripts | compatibility/toccata-v2/src/lib.rs:146-175 | missing metadata, bad covenants and the first refused input are told apart; nothing is reported when every script passes |
| Ledger.AcceptedIff | compatibility/toccata-v2/tests/native.rs:243-254 | a step is accepted if and only if every input finds the entry it was built with, covenants are valid and every script passes |
| Ledger.EntryAfter | compatibility/toccata-v2/tests/native.rs:255-271 | the entry of every outpoint after an accepted step: the step's own output with its value, script and covenant, or what was there and was not consumed |
| Ledger.NextStepFindsOutputs | compatibility/toccata-v2/tests/native.rs:243-271 | two steps in a row: a transaction on outputs of an accepted one passes the input check if and only if its entries carry the value, script and covenant of those outputs |
| Ledger.StepPaysFee | compatibility/toccata-v2/tests/native.rs:243-271 | an accepted step lowers the total value by exactly the declared fee |
| Ledger.ReplayIsRefused | compatibility/toccata-v2/tests/native.rs:243-271 | a transaction applied twice is refused the second time |
| Ledger.AcceptedIsNew | compatibility/toccata-v2/tests/native.rs:243-271 | an accepted transaction is not one accepted before |
| Ledger.StepKeepsInvariant | compatibility/toccata-v2/tests/native.rs:243-271 | every step keeps: spent outpoints stay gone, ids stay known, no outpoint is spent twice |
| Ledger.RunKeepsInvariant | compatibility/toccata-v2/tests/native.rs:243-271 | over any sequence of steps no outpoint is consumed twice |
| Ledger.RunsConserveValue | compatibility/toccata-v2/tests/native.rs:243-271 | over any sequence of steps the value in the ledger and the fees of the accepted steps add up to what was there |
| Funding.SelectFunding | sdk/src/testnet.rs:1658-1674 | the loop over coins sorted by amount returns the first coins whose running total, saturating at 64 bits, reaches the minimum |
| Funding.SelectionIsSmallest | sdk/src/testnet.rs:1658-1674 | selection fails exactly when all coins together fall short, and no choice of fewer coins reaches a minimum that is not zero |
| Funding.FirstCoinsAreWorthMost | sdk/src/testnet.rs:1658-1662 | coins from a descending list are never worth more than as many of its first ones |
| Funding.SortIsStable | sdk/src/testnet.rs:1661-1662 | coins of one amount keep their order |
| Fees.BuildFundingDraft | sdk/src/testnet.rs:1509-1547 | the ten rounds of the funding loop, with the saturating sum it subtracts |
| Fees.BuildSpendDraft | sdk/src/testnet.rs:1405-1450 | the ten rounds of the spending loop |
| Fees.RoundsAreSafe | sdk/src/testnet.rs:1509-1547 | however the rounds end, outputs never exceed inputs and the fee is the least for the draft's own mass; at a fixed point the draft pays exactly that fee plus a change too small to show, if and only if destinations and fee together fit 64 bits |
| Fees.DraftPays | sdk/src/testnet.rs:1509-1547 | a draft pays its destinations and besides at most one change, not dust, to the wallet's own script |
| Fees.SettlesInThree | sdk/src/testnet.rs:1509-1547 | when the fee of the rounds the loop can come to depends only on whether change shows, it stops within three rounds exactly when the change does not show after the fee without it and vanish after the fee with it |
| Fees.MoreRounds | sdk/src/testnet.rs:1509-1547 | once settled, more rounds change nothing |
| Fees.WaveringPaysTheOtherFee | sdk/src/testnet.rs:1509-1547 | otherwise it never settles, and after an even number of rounds the draft pays one fee while it owes the other |
| Fees.WaveringFundsUnderpay | sdk/src/testnet.rs:1509-1547 | concrete case: funds for which ten rounds leave a draft that owes 2000 and pays 1500 |
| Fees.TenRoundsPayTheFee | sdk/src/testnet.rs:1405-1450 | the ten rounds pay the least fee of the draft if and only if the change does not waver between a smaller fee without it and a larger fee with it |
| ContractRun.BuildLock | sdk/src/testnet.rs:1330-1350 | a zero amount, too few coins and every failure of the loop are refused; otherwise the selected coins pay the contract |
| ContractRun.BuildSpend | sdk/src/testnet.rs:1352-1470 | the lock output first, then coins for the fee; the locked amount goes to the wallet |
| ContractRun.BuildContractRun | sdk/src/testnet.rs:1133-1166 | coinbase coins are set aside, the lock is built, and the spend is funded from coins the lock left and its change |
| ContractRun.LockKeepsValue | sdk/src/testnet.rs:1320-1350 | the lock spends selected coins, pays the contract first, returns at most one change, and loses nothing but what it leaves to the network |
| ContractRun.SpendKeepsValue | sdk/src/testnet.rs:1352-1470 | the spend takes the lock first, pays the whole locked amount to the wallet and creates no value |
| ContractRun.SpentAndKept | sdk/src/testnet.rs:1147-1155 | among coins with distinct outpoints, a choice and the coins without its outpoints make up the whole |
| ContractRun.RunIsSound | sdk/src/testnet.rs:1133-1166 | the pair spends no outpoint twice, the spend uses only the lock output, the lock's change and untouched coins, and what is left, what is paid out and what goes to the network add up to what was there |
| ContractRun.RunSpendsTheLock | sdk/src/testnet.rs:1133-1166 | outpoint by outpoint: the spend's first input is the lock's output 0, which pays the contract; any other input with the lock's id is its output 1, which pays the wallet; all others are coins of the wallet the lock does not take; every amount is that of the output; fee inputs reach the reserve; the spend pays the wallet only |
| Tokens.DecimalParses | compiler/parser/src/parser.rs:451-455 | a number written in decimal is parsed back if and only if it fits 64 bits |
| Grammar.ParsePrecedence | compiler/parser/src/parser.rs:231-250 | a success moves the cursor forward and not past the end |
| Grammar.ParseItems | compiler/parser/src/parser.rs:303-312 | a success never moves the cursor back or past the end |
| Grammar.ParseProgram | compiler/parser/src/parser.rs:59-65 | a success has consumed every token |
| Parser.Parser.ParsePrecedence | compiler/parser/src/parser.rs:231-250 | the climbing loop computes what the grammar says, moving the cursor only forward |
| Parser.Parser.CurrentBinaryOp | compiler/parser/src/parser.rs:381-398 | the operator at the cursor and how closely it binds |
| Parser.Parser.ErrorHere | compiler/parser/src/parser.rs:457-465 | an error lies at the current token, or at the last one behind the end |
| Parser.Parser.ParseUnary | compiler/parser/src/parser.rs:252-274 | prefix operators nest to the right |
| Parser.Parser.ParsePostfix | compiler/parser/src/parser.rs:276-301 | the suffix loop applies calls and selections in turn |
| Parser.Parser.ParseArguments | compiler/parser/src/parser.rs:303-312 | the argument loop, trailing comma included |
| Parser.Parser.ParsePrimary | compiler/parser/src/parser.rs:314-349 | literals, names, keywords as names, parentheses and arrays |
| Parser.Parser.ParseArray | compiler/parser/src/parser.rs:351-364 | the element loop, trailing comma included |
| Parser.Parser.ParseIdentifier | compiler/parser/src/parser.rs:366-379 | identifiers and keywords that can stand for one |
| Parser.Parser.ParseStatement | compiler/parser/src/parser.rs:190-225 | the three statements |
| Parser.Parser.ParseTypedParams | compiler/parser/src/parser.rs:168-188 | the parameter loop |
| Parser.Parser.ParseSpend | compiler/parser/src/parser.rs:143-166 | name, parameters and the statement loop |
| Parser.Parser.ParseParamsBlock | compiler/parser/src/parser.rs:106-141 | the entry loop; `finality_depth` is a depth, not a parameter |
| Parser.Parser.ParseContract | compiler/parser/src/parser.rs:67-104 | the item loop; parameters add up and a later depth replaces an earlier one |
| Parser.Parser.ParseProgram | compiler/parser/src/parser.rs:59-65 | on every token list the parser ends, and a success has consumed every token |
| Readings.FindsPrecedence | compiler/parser/src/parser.rs:231-250 | whenever tokens read as an expression of some level, parsing at any lower minimum finds it |
| Readings.FoundPrecedence | compiler/parser/src/parser.rs:231-250 | whatever the parser finds is a reading of the tokens, with nothing behind that belongs to it |
| Readings.ParserFindsReadings | compiler/parser/src/parser.rs:227-398 | the parser returns an expression and a place if and only if the tokens up to there read as it, by precedence table and left grouping, and nothing behind belongs to it |
| Readings.ReadingIsUnique | compiler/parser/src/parser.rs:227-398 | tokens read as at most one expression, up to one place |
| Printer.ParsingUndoesPrinting | compiler/parser/src/parser.rs:227-398 | parsing the tokens printed for any expression gives the expression back up to positions, whatever positions the tokens carry |
| Printer.OperatorsGroup | compiler/parser/src/parser.rs:381-398 | for all pairs of operators: `a op b other c` groups to the right if and only if the second binds closer: products, sums, orders, equalities, `&&`, `&#124;&#124;` |
| Printer.PrintingIsShortest | compiler/parser/src/parser.rs:231-250 | no tokens that parse to an expression are fewer than its printed ones: only demanded parentheses are printed |
| Printer.DisplayIsExact | compiler/model/src/lib.rs:167-201 | the form shown to wallets parses back to the expression if and only if the expression needs no parentheses |
| Printer.DisplayCanMislead | compiler/model/src/lib.rs:186-186 | concrete case: `a - (b - c)` is shown like `a - b - c` |
| Printer.ParsedExpressionsNest | compiler/parser/src/parser.rs:231-364 | with tokens in source order every parsed expression lies within its tokens, and every part within the whole |
| Programs.ParsingUndoesPrintingPrograms | compiler/parser/src/parser.rs:59-225 | parsing the tokens printed for a whole program gives it back up to positions if and only if no contract parameter is called `finality_depth` |
| ContractItems.ItemsInAnyOrder | compiler/parser/src/parser.rs:67-141 | a contract with any number of `params` blocks in any order with its spends has the parameters of all blocks, all spends, and the depth given last |
| Checker.Checker.InferExpr | compiler/semantic/src/checker.rs:250-299 | infers the type and adds exactly the problems found in the expression, innermost first |
| Checker.NothingFound | compiler/semantic/src/checker.rs:250-492 | no problem is found in an expression if and only if it is well typed |
| Checker.Checker.InferIdentifier | compiler/semantic/src/checker.rs:301-325 | spend names and unknown names are refused, each with its own problem |
| Checker.Checker.InferCall | compiler/semantic/src/checker.rs:327-380 | the demands of each built-in call, with the problems of those that are not met |
| Checker.Checker.InferField | compiler/semantic/src/checker.rs:460-492 | fields of the block and of inputs and outputs, with the problem of an unknown one |
| Checker.Checker.CheckIndexCall | compiler/semantic/src/checker.rs:382-400 | an index is one 32-bit literal; wrong number, no literal and too large are told apart |
| Checker.Checker.CheckContinuation | compiler/semantic/src/checker.rs:402-432 | a continuation is a label and an output; every part that is wrong adds its problem |
| Checker.Checker.CheckMultisig | compiler/semantic/src/checker.rs:434-458 | arity, a literal threshold, no more than the keys, then the problems of the arguments |
| Checker.Checker.CollectExactCounts | compiler/semantic/src/checker.rs:563-597 | the first literal of a count wins; each one that does not fit 32 bits, and each that differs, adds its problem in order |
| Checker.NothingFoundInCounts | compiler/semantic/src/checker.rs:563-597 | nothing is reported of a conjunction's counts if and only if they all fit and agree |
| Checker.CollectIndexReferences | compiler/semantic/src/checker.rs:630-667 | the largest literal index of inputs and of outputs, callees included |
| Checker.Checker.CheckCountFacts | compiler/semantic/src/checker.rs:669-682 | a fixed count must exceed the largest index, or adds a problem |
| Checker.Checker.CollectContinuationNames | compiler/semantic/src/checker.rs:510-537 | collects the names in order, and adds one problem for each that repeats |
| Checker.Checker.CheckBody | compiler/semantic/src/checker.rs:207-232 | the statement loop: scope, facts and names after it, and the problems of every statement in order |
| Checker.Checker.CheckSpend | compiler/semantic/src/checker.rs:179-248 | adds every problem of a spend in order: parameters, statements, no requirement, finality depth, counts |
| Checker.NothingFoundInSpend | compiler/semantic/src/checker.rs:179-248 | nothing is reported of a spend if and only if it passes every check |
| Checker.Checker.CheckProgram | compiler/semantic/src/checker.rs:125-178 | adds every problem of a program in order, repeated names and zero finality depth included |
| Checker.NothingFoundInProgram | compiler/semantic/src/checker.rs:83-110 | a program is accepted if and only if all its spends pass and no name is given twice |
| Checker.Checker.IsValidContinuationName | compiler/semantic/src/checker.rs:719-726 | a label starts with a letter or underscore and goes on with letters, digits, `_` and `-` |
| Problems.FoundAreMistakes | compiler/semantic/src/checker.rs:250-492 | each problem is found in an expression if and only if one of the parts that are examined makes the mistake it stands for |
| Problems.SpendProblems | compiler/semantic/src/checker.rs:179-248 | the same for a spend: parameters, statements with what is in scope before each, requirement, depth and counts |
| Problems.ProgramProblems | compiler/semantic/src/checker.rs:120-178 | the same for a program: every problem reported stands for a mistake, and every mistake is reported by its own problem |
| ApplicationModel.CollectTransactionIndexes | compiler/ir/src/application.rs:312-359 | the literal 32-bit indexes of inputs and outputs, callees not searched |
| ApplicationModel.CollectExactTransactionCounts | compiler/ir/src/application.rs:403-431 | the last literal that fits wins |
| ApplicationModel.CollectNamedSuccessorOutputs | compiler/ir/src/application.rs:481-506 | every named successor anywhere in the expression, in visiting order |
| ApplicationModel.BuildTransitionModel | compiler/ir/src/application.rs:33-103 | constraints, shape, bindings and continuation of a spend |
| NormalForms.NormalKeepsValue | compiler/ir/src/application.rs:248-310 | a normalized expression has the value of the expression, in every world and wherever it is read |
| NormalForms.CheckedNamesSignatures | compiler/semantic/src/checker.rs:328-341 | in accepted expressions the receiver of `verify` is a name, as the normalized call needs |
| ModelListings.OutputOnTheLeft | compiler/ir/src/application.rs:361-387 | `output(i).field op x` binds that field by that relation to `x`, for every field and operator |
| ModelListings.OutputOnTheRight | compiler/ir/src/application.rs:576-584 | `x op output(i).field` binds by the reversed relation |
| ModelListings.BindingsListed | compiler/ir/src/application.rs:361-387 | the listed bindings are exactly those of the requirements |
| ModelListings.FixedCountListed | compiler/ir/src/application.rs:439-468 | the counts collected of a conjunction are exactly the literals that its parts fix the count to by `==`, the literal on either side |
| ModelListings.ExactCountListed | compiler/ir/src/application.rs:389-431 | a fixed count that nothing contradicts is the model's exact count |
| ModelListings.ReferenceListed | compiler/ir/src/application.rs:312-359 | every input and output referred to by a 32-bit literal outside callees is listed |
| ModelListings.SuccessorListed | compiler/ir/src/application.rs:481-526 | every `continuation("name", output(i))` is listed with its name and index |
| ModelListings.ContinuationSays | compiler/ir/src/application.rs:586-646 | the kind of a continuation is the strongest link there is, and its outputs are those of the links of that kind and of the named successors |
| ModelListings.ConstraintsSayAll | compiler/ir/src/application.rs:33-60 | the constraints are the requirements one for one: read by their own meaning they hold exactly when the requirements do |
| ModelSoundness.LastIsFirst | compiler/semantic/src/checker.rs:586-596 | without a conflict the last literal is also the first |
| ModelSoundness.CheckerAndModelAgree | compiler/ir/src/application.rs:389-431 | for accepted requirements the exact counts are the checker's, every listed index is one the checker saw, and every seen index stays below a fixed count |
| ModelSoundness.LoweredReads | compiler/ir/src/gen.rs:440-491 | compiled code reads only inputs and outputs the checker has seen |
| ModelSoundness.ReadsAreInRange | compiler/semantic/src/checker.rs:669-682 | in a transaction with a fixed count no read of requirement code on that side is out of range |
| ModelSoundness.CountsHold | compiler/ir/src/application.rs:403-431 | a true conjunction fixes the counts to the transaction's own |
| ModelSoundness.ReversedRelation | compiler/ir/src/application.rs:576-584 | swapping the sides of a comparison reverses it |
| ModelSoundness.SubtractionDoesNotReverse | compiler/ir/src/application.rs:576-584 | subtraction is left as it is, which would be wrong; the checker keeps it out |
| ModelSoundness.BindingHolds | compiler/ir/src/application.rs:361-387 | when a requirement holds, the output of its binding exists and the bound field stands in the bound relation to the value of the expected expression as the model writes it, flipped ones included |
| ModelSoundness.AmountsCompare | compiler/ir/src/application.rs:361-387 | a satisfied binding of an amount compares the amount with the expected number |
| ModelSoundness.ScriptsCompare | compiler/ir/src/application.rs:361-387 | a satisfied binding of a script by `==` says the whole script public key, byte for byte |
| ModelSoundness.NamedPayeeIsPaid | compiler/ir/src/application.rs:361-387 | a binding of an output's script to a key pays that key's pay-to-key script, not the key itself |
| ModelSoundness.CheckedBindingCompares | compiler/semantic/src/checker.rs:220-228 | in an accepted requirement a binding can only be a comparison |
| ModelSoundness.SuccessorsEnforced | compiler/ir/src/gen.rs:356-377 | named successors in `&&` positions have their outputs |
| ModelSoundness.AcceptedMatchesModel | compiler/ir/src/application.rs:33-103 | every transaction the compiled spend of a checked contract accepts has the model's exact counts, satisfies every output binding, and has every successor output declared in an `&&` position |
| Gates.Grounding.Collect | compiler/codegen/src/backends/toccata.rs:147-173 | verified passes, gated warns once or fails by target, unsupported fails |
| Gates.Grounding.CollectAll | compiler/codegen/src/backends/toccata.rs:175-186 | all records in turn, stopping at the first refusal |
| Gates.CompileToccata | compiler/codegen/src/backends/toccata.rs:47-73 | proposals first, then each spend through its gate and into the shared bytes |
| Gates.VerifyArtifact | compiler/codegen/src/lib.rs:144-150 | bytes that are not empty and disassemble |
| Gates.StrictestTargetIsEnough | compiler/codegen/src/backends/toccata.rs:147-173 | a program compiles for verified-tn12 if and only if it compiles for any given target without a warning, and then to the same bytes |
| Gates.WarningsNeverRepeat | compiler/codegen/src/backends/toccata.rs:153-158 | no artifact warns twice about one record |
| Gates.ProposalsByTarget | compiler/codegen/src/backends/toccata.rs:147-173 | verified-tn12 and future-mainnet refuse the first of the proposals 16, 17, 20 and 21; tn10-toccata and toccata-preview warn of each once, in order |
| Gates.RecordByInstruction | compiler/codegen/src/grounding.rs:76-150 | the ten unsupported instructions and the names they are refused under; every other one is verified |
| Gates.CompiledByTarget | compiler/codegen/src/backends/toccata.rs:47-73 | the whole outcome for each of the four targets: proposals first, then the first unsupported instruction or oversize value, whatever the target, or else the bytes of every spend in turn |
| Gates.RegistryMatchesEncoder | compiler/codegen/src/grounding.rs:332-378 | the registry refuses exactly the instructions the encoder cannot write |
| Gates.EncoderFailsOnlyOnSize | compiler/codegen/src/backends/toccata.rs:188-256 | once the gates are passed, compilation fails only on a value that is too large |
| Gates.CompiledArtifactsVerify | compiler/codegen/src/lib.rs:144-150 | every compiled artifact disassembles, so every one with bytes passes verification |

## Left out

- Lexing, error positions and error wording: the parser starts from tokens and reports what it expected; the checker reports which problem it found.
- Source positions in the stack code.
- The node library: signing, signature hashes, transaction ids, mass, covenant validity and addresses are parameters, with only the facts used stated (fresh ids, one mass per list of outputs, signatures that do not cover signature scripts).
- The engine's limits on script size, element size, operation count and stack depth, and its signature operation counts.
- Opcodes the encoder never writes; a script with any of them is refused by the modelled machine.
- Lock operands are read from the stack as unsigned little-endian numbers of at most eight bytes, as the engine does; negative lock operands have no source form.
- Arrays outside `multisig`, generic calls and generic fields in the correctness theorems: their code does not leave one value. They are lowered, encoded and parsed as the source does.
- Statements.ItemsAddUp: for a spend that has both arguments and a `let` or `return` it says how many items unlock it, not which.
- Covenant, proof, sequencing, `hash160` and `*`, `/`, `%`: only their refusal matters, through the gates.
- A key on the left of a script comparison stands for its own bytes, as the binding loop leaves it; only the right-hand form stands for a pay-to-key script.
- The disassembler's text form: tokens stand for it. The function of a call in the application model is the displayed callee as tokens, for the same reason.
- ApplicationModel.BuildTransitionModel: constraint kinds, signing requirements, notes and the monetary policy are labels without effect on transactions; sorted lists of indexes are sets.
- Citations, categories and notes of grounding records, and artifact metadata other than bytes and warnings.
- The signing preview, hex decoding of keys, the network reads behind an observation, and looking the two paths of the escrow up by name in its artifact.
- Explicit-fee plans: genesis groups and covenant populating are one parameter that gives tags or refuses; finalizing the transaction is not modelled.
- Fees.BuildFundingDraft: requires destinations that fit 64 bits together; its only caller passes one.
- ContractRun.BuildContractRun: signing is one parameter that accepts or refuses. Sums of selected amounts wrap around at 64 bits, as without overflow checks; with them the builder stops instead.
- Instantiation.InstantiateContract: finding the contract and the spend by name, addresses, parameter hashes and the lock time of the artifact are not modelled.
- Funding.SelectionIsSmallest: says nothing of smaller choices for a minimum of zero, for which the source still selects one coin.
- Printer.ParsingUndoesPrinting: strings are tokens; how their text is quoted is not modelled.
- RPC clients, polling, file writing, proof JSON, command lines, kernels and capability profiles.
