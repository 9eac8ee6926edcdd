/** The fixture UTXO ledger (compatibility/toccata-v2/tests/native.rs) and runs over it. */
module Ledger {
  import opened Wrappers
  import opened ScriptNumbers
  import opened Syntax
  import opened Engine
  import opened Plan

  type Entries = map<Outpoint, UtxoEntry>

  /** What a step takes from the node library: transaction ids, the validity of covenants, and the script
      engine's verdict on one input. */
  datatype Node = Node(id: Tx -> nat, covenantsValid: Tx -> bool, inputValid: (Tx, nat) -> bool)

  datatype ScriptError = MetadataMismatch | BadCovenants | BadScript(index: nat)

  function Outpoints(inputs: seq<TxInput>): (r: seq<Outpoint>)
    ensures |r| == |inputs| && forall i :: 0 <= i < |r| ==> r[i] == inputs[i].outpoint
  {
    if inputs == [] then [] else [inputs[0].outpoint] + Outpoints(inputs[1..])
  }

  /** The entry an output leaves in the ledger. */
  function NewEntry(output: TxOutput): UtxoEntry {
    UtxoEntry(output.value, output.spk, 0, false, output.covenant)
  }

  /** The entries created by the first `n` outputs of the transaction with the given id. */
  function Created(id: nat, outputs: seq<TxOutput>, n: nat): (m: Entries)
    requires n <= |outputs| <= U32_MAX
    ensures m.Keys == set i: u32 | i < n :: Outpoint(id, i)
    ensures forall i: u32 :: i < n ==> m[Outpoint(id, i)] == NewEntry(outputs[i])
  {
    map i: u32 | i < n :: Outpoint(id, i) := NewEntry(outputs[i])
  }

  /** Every input finds the entry the transaction was built with. */
  predicate InputsMatch(ledger: Entries, tx: Tx) {
    forall i :: 0 <= i < |tx.inputs| && i < |tx.entries| ==>
      tx.inputs[i].outpoint in ledger && ledger[tx.inputs[i].outpoint] == tx.entries[i]
  }

  /** The first input from `i` on whose script the engine refuses. */
  function FirstRefused(node: Node, tx: Tx, i: nat): Option<ScriptError>
    decreases |tx.inputs| - i
  {
    if i >= |tx.inputs| then None
    else if !node.inputValid(tx, i) then Some(BadScript(i))
    else FirstRefused(node, tx, i + 1)
  }

  /** Why the scripts of a transaction are refused. */
  function ScriptsError(node: Node, tx: Tx): Option<ScriptError> {
    if |tx.entries| != |tx.inputs| then Some(MetadataMismatch)
    else if !node.covenantsValid(tx) then Some(BadCovenants)
    else FirstRefused(node, tx, 0)
  }

  method ValidateScripts(node: Node, tx: Tx) returns (r: Option<ScriptError>)
    ensures r == ScriptsError(node, tx)
  {
    if |tx.entries| != |tx.inputs| { return Some(MetadataMismatch); }
    if !node.covenantsValid(tx) { return Some(BadCovenants); }
    for i := 0 to |tx.inputs|
      invariant FirstRefused(node, tx, 0) == FirstRefused(node, tx, i)
    {
      if !node.inputValid(tx, i) { return Some(BadScript(i)); }
    }
    return None;
  }

  /** Scripts pass exactly when every input has its entry, covenants are valid and the engine accepts every
      input; the refused input that is named is the first. */
  lemma {:induction false} ScriptsPass(node: Node, tx: Tx, i: nat)
    ensures FirstRefused(node, tx, i).None? <==> forall k :: i <= k < |tx.inputs| ==> node.inputValid(tx, k)
    ensures FirstRefused(node, tx, i).Some? ==>
              exists k :: i <= k < |tx.inputs| && FirstRefused(node, tx, i) == Some(BadScript(k))
                          && !node.inputValid(tx, k) && forall j :: i <= j < k ==> node.inputValid(tx, j)
    decreases |tx.inputs| - i
  {
    if i < |tx.inputs| { ScriptsPass(node, tx, i + 1); }
  }

  /** The ledger after a step, or nothing when the step is refused. */
  function Applied(node: Node, ledger: Entries, native: Native): Option<Entries>
    requires |native.tx.outputs| <= U32_MAX
  {
    var tx := native.tx;
    if !InputsMatch(ledger, tx) || ScriptsError(node, tx).Some? then None
    else Some((ledger - Consumed(tx)) + Created(node.id(tx), tx.outputs, |tx.outputs|))
  }

  function Consumed(tx: Tx): set<Outpoint> { set o | o in Outpoints(tx.inputs) }

  class FixtureLedger {
    var entries: Entries

    constructor (initial: Entries)
      ensures entries == initial
    {
      entries := initial;
    }

    /** Whether every input finds the entry it was built with. */
    method CheckInputs(tx: Tx) returns (ok: bool)
      ensures ok <==> InputsMatch(entries, tx)
    {
      var i := 0;
      while i < |tx.inputs| && i < |tx.entries|
        invariant 0 <= i <= |tx.inputs| && i <= |tx.entries|
        invariant forall j :: 0 <= j < i ==>
                    tx.inputs[j].outpoint in entries && entries[tx.inputs[j].outpoint] == tx.entries[j]
      {
        var outpoint := tx.inputs[i].outpoint;
        if outpoint !in entries || entries[outpoint] != tx.entries[i] { return false; }
        i := i + 1;
      }
      return true;
    }

    method RemoveInputs(tx: Tx)
      modifies this
      ensures entries == old(entries) - Consumed(tx)
    {
      var outpoints := Outpoints(tx.inputs);
      for k := 0 to |outpoints|
        invariant entries == old(entries) - set o | o in outpoints[..k]
      {
        assert outpoints[..k + 1] == outpoints[..k] + [outpoints[k]];
        entries := entries - {outpoints[k]};
      }
      assert outpoints[..|outpoints|] == outpoints;
    }

    method InsertOutputs(id: nat, outputs: seq<TxOutput>)
      requires |outputs| <= U32_MAX
      modifies this
      ensures entries == old(entries) + Created(id, outputs, |outputs|)
    {
      for k := 0 to |outputs|
        invariant entries == old(entries) + Created(id, outputs, k)
      {
        CreatedLast(old(entries), id, outputs, k);
        entries := entries[Outpoint(id, k) := UtxoEntry(outputs[k].value, outputs[k].spk, 0, false, outputs[k].covenant)];
      }
    }

    /** Applies a transaction in place; a refused step changes nothing. */
    method Apply(node: Node, native: Native) returns (ok: bool)
      requires |native.tx.outputs| <= U32_MAX
      modifies this
      ensures ok <==> Applied(node, old(entries), native).Some?
      ensures entries == if ok then Applied(node, old(entries), native).value else old(entries)
    {
      ok := CheckInputs(native.tx);
      if !ok { return false; }
      var refused := ValidateScripts(node, native.tx);
      if refused.Some? { return false; }
      RemoveInputs(native.tx);
      InsertOutputs(node.id(native.tx), native.tx.outputs);
    }
  }

  lemma CreatedLast(m: Entries, id: nat, outputs: seq<TxOutput>, n: nat)
    requires n < |outputs| <= U32_MAX
    ensures m + Created(id, outputs, n + 1) == (m + Created(id, outputs, n))[Outpoint(id, n) := NewEntry(outputs[n])]
  {
    var more, less := Created(id, outputs, n + 1), Created(id, outputs, n);
    assert more.Keys == less.Keys + {Outpoint(id, n)};
    forall o | o in more ensures more[o] == less[Outpoint(id, n) := NewEntry(outputs[n])][o] {}
  }

  // ---- the value of a ledger ----

  ghost function SumOver(keys: set<Outpoint>, m: Entries): nat
    requires keys <= m.Keys
  {
    if keys == {} then 0
    else
      var o :| o in keys;
      m[o].amount + SumOver(keys - {o}, m)
  }

  ghost function Value(m: Entries): nat { SumOver(m.Keys, m) }

  /** The sum does not depend on the order in which entries are counted. */
  lemma {:induction false} SumWithout(keys: set<Outpoint>, m: Entries, o: Outpoint)
    requires keys <= m.Keys && o in keys
    ensures SumOver(keys, m) == m[o].amount + SumOver(keys - {o}, m)
    decreases keys
  {
    var p :| p in keys && SumOver(keys, m) == m[p].amount + SumOver(keys - {p}, m);
    if p != o {
      SumWithout(keys - {p}, m, o);
      SumWithout(keys - {o}, m, p);
      assert keys - {p} - {o} == keys - {o} - {p};
    }
  }

  lemma {:induction false} SumAgrees(keys: set<Outpoint>, m: Entries, n: Entries)
    requires keys <= m.Keys && keys <= n.Keys && forall o :: o in keys ==> m[o] == n[o]
    ensures SumOver(keys, m) == SumOver(keys, n)
    decreases keys
  {
    if keys != {} {
      var o :| o in keys;
      SumWithout(keys, m, o);
      SumWithout(keys, n, o);
      SumAgrees(keys - {o}, m, n);
    }
  }

  lemma {:induction false} SumConsumed(keys: set<Outpoint>, m: Entries, outpoints: seq<Outpoint>, entries: seq<UtxoEntry>)
    requires keys <= m.Keys && |outpoints| == |entries|
    requires forall i, j :: 0 <= i < j < |outpoints| ==> outpoints[i] != outpoints[j]
    requires forall i :: 0 <= i < |outpoints| ==> outpoints[i] in keys && m[outpoints[i]] == entries[i]
    ensures SumOver(keys, m) == SumOver(keys - (set o | o in outpoints), m) + TotalIn(entries)
    decreases outpoints
  {
    if outpoints == [] {
      assert keys - (set o | o in outpoints) == keys;
    } else {
      SumWithout(keys, m, outpoints[0]);
      SumConsumed(keys - {outpoints[0]}, m, outpoints[1..], entries[1..]);
      assert keys - {outpoints[0]} - (set o | o in outpoints[1..]) == keys - (set o | o in outpoints);
    }
  }

  lemma ValueConsumed(m: Entries, outpoints: seq<Outpoint>, entries: seq<UtxoEntry>)
    requires |outpoints| == |entries|
    requires forall i, j :: 0 <= i < j < |outpoints| ==> outpoints[i] != outpoints[j]
    requires forall i :: 0 <= i < |outpoints| ==> outpoints[i] in m && m[outpoints[i]] == entries[i]
    ensures Value(m) == Value(m - (set o | o in outpoints)) + TotalIn(entries)
  {
    var gone := set o | o in outpoints;
    SumConsumed(m.Keys, m, outpoints, entries);
    assert (m - gone).Keys == m.Keys - gone;
    SumAgrees(m.Keys - gone, m, m - gone);
  }

  lemma {:induction false} ValueCreated(m: Entries, id: nat, outputs: seq<TxOutput>, n: nat)
    requires n <= |outputs| <= U32_MAX
    requires forall i: u32 :: Outpoint(id, i) !in m
    ensures Value(m + Created(id, outputs, n)) == Value(m) + TotalOut(outputs[..n])
  {
    if n == 0 {
      assert m + Created(id, outputs, 0) == m;
      assert outputs[..0] == [];
    } else {
      var last := Outpoint(id, n - 1);
      var less := m + Created(id, outputs, n - 1);
      ValueCreated(m, id, outputs, n - 1);
      CreatedLast(m, id, outputs, n - 1);
      assert last !in less;
      ValueAdded(less, last, NewEntry(outputs[n - 1]));
      TotalOutPrefix(outputs, n - 1);
    }
  }

  lemma ValueAdded(m: Entries, o: Outpoint, entry: UtxoEntry)
    requires o !in m
    ensures Value(m[o := entry]) == Value(m) + entry.amount
  {
    var more := m[o := entry];
    SumWithout(more.Keys, more, o);
    assert more.Keys - {o} == m.Keys;
    SumAgrees(m.Keys, m, more);
  }

  lemma {:induction false} TotalOutLast(outputs: seq<TxOutput>)
    requires outputs != []
    ensures TotalOut(outputs) == TotalOut(outputs[..|outputs| - 1]) + outputs[|outputs| - 1].value
  {
    if |outputs| > 1 {
      TotalOutLast(outputs[1..]);
      assert outputs[1..][..|outputs| - 2] == outputs[..|outputs| - 1][1..];
    } else {
      assert outputs[1..] == [] && outputs[..0] == [];
    }
  }

  lemma TotalOutPrefix(outputs: seq<TxOutput>, n: nat)
    requires n < |outputs|
    ensures TotalOut(outputs[..n + 1]) == TotalOut(outputs[..n]) + outputs[n].value
  {
    TotalOutLast(outputs[..n + 1]);
    assert outputs[..n + 1][..n] == outputs[..n];
  }

  predicate FreshId(ledger: Entries, id: nat) {
    forall o :: o in ledger ==> o.txid != id
  }

  /** An accepted step lowers the ledger's value by exactly the declared fee. */
  lemma StepPaysFee(node: Node, ledger: Entries, native: Native)
    requires Balanced(native) && |native.tx.outputs| <= U32_MAX
    requires FreshId(ledger, node.id(native.tx)) && Applied(node, ledger, native).Some?
    ensures Value(Applied(node, ledger, native).value) + native.fee == Value(ledger)
  {
    var tx := native.tx;
    ValueConsumed(ledger, Outpoints(tx.inputs), tx.entries);
    ValueCreated(ledger - Consumed(tx), node.id(tx), tx.outputs, |tx.outputs|);
    assert tx.outputs[..|tx.outputs|] == tx.outputs;
  }

  /** Applying an accepted transaction again is refused. */
  lemma ReplayIsRefused(node: Node, ledger: Entries, native: Native)
    requires Balanced(native) && |native.tx.outputs| <= U32_MAX
    requires FreshId(ledger, node.id(native.tx)) && Applied(node, ledger, native).Some?
    ensures Applied(node, Applied(node, ledger, native).value, native).None?
  {
    var first := native.tx.inputs[0].outpoint;
    assert Outpoints(native.tx.inputs)[0] == first;
    assert first !in Applied(node, ledger, native).value;
  }

  // ---- what a step asks and leaves, spelled out ----

  /** A step is accepted if and only if every input finds the entry it was built with, covenants are valid
      and the engine accepts every input. */
  lemma AcceptedIff(node: Node, ledger: Entries, native: Native)
    requires |native.tx.outputs| <= U32_MAX
    ensures var tx := native.tx;
            Applied(node, ledger, native).Some? <==>
              |tx.entries| == |tx.inputs| && node.covenantsValid(tx)
              && (forall i :: 0 <= i < |tx.inputs| ==> tx.inputs[i].outpoint in ledger && ledger[tx.inputs[i].outpoint] == tx.entries[i])
              && forall i :: 0 <= i < |tx.inputs| ==> node.inputValid(tx, i)
  {
    ScriptsPass(node, native.tx, 0);
  }

  /** The entry of an outpoint after an accepted step: the step's own output with its value, its script and
      its covenant, or what was there and was not consumed. */
  lemma EntryAfter(node: Node, ledger: Entries, native: Native, o: Outpoint)
    requires |native.tx.outputs| <= U32_MAX && Applied(node, ledger, native).Some?
    ensures var (tx, after) := (native.tx, Applied(node, ledger, native).value);
            if o.txid == node.id(tx) && o.index < |tx.outputs| then
              var output := tx.outputs[o.index];
              o in after && after[o] == UtxoEntry(output.value, output.spk, 0, false, output.covenant)
            else
              (o in after <==> o in ledger && forall i :: 0 <= i < |tx.inputs| ==> tx.inputs[i].outpoint != o)
              && (o in after ==> after[o] == ledger[o])
  {
    var tx := native.tx;
    assert o in Consumed(tx) <==> exists i :: 0 <= i < |tx.inputs| && tx.inputs[i].outpoint == o by {
      assert forall i :: 0 <= i < |tx.inputs| ==> Outpoints(tx.inputs)[i] == tx.inputs[i].outpoint;
    }
    assert o in Created(node.id(tx), tx.outputs, |tx.outputs|) <==> o.txid == node.id(tx) && o.index < |tx.outputs|;
  }

  /** Two steps in a row: a transaction built on outputs of an accepted one passes the input check if and
      only if each of its entries carries the value, script and covenant of the output it spends. */
  lemma NextStepFindsOutputs(node: Node, ledger: Entries, first: Native, next: Tx)
    requires |first.tx.outputs| <= U32_MAX && Applied(node, ledger, first).Some? && |next.entries| == |next.inputs|
    requires forall i :: 0 <= i < |next.inputs| ==>
               next.inputs[i].outpoint.txid == node.id(first.tx) && next.inputs[i].outpoint.index < |first.tx.outputs|
    ensures InputsMatch(Applied(node, ledger, first).value, next) <==>
            forall i :: 0 <= i < |next.inputs| ==>
              var output := first.tx.outputs[next.inputs[i].outpoint.index];
              next.entries[i] == UtxoEntry(output.value, output.spk, 0, false, output.covenant)
  {
    forall i | 0 <= i < |next.inputs|
      ensures var (o, after) := (next.inputs[i].outpoint, Applied(node, ledger, first).value);
              o in after && after[o] == UtxoEntry(first.tx.outputs[o.index].value, first.tx.outputs[o.index].spk, 0, false,
                                                  first.tx.outputs[o.index].covenant)
    {
      EntryAfter(node, ledger, first, next.inputs[i].outpoint);
    }
  }

  // ---- runs ----

  /** A run so far: the ledger, the transactions accepted, every outpoint they consumed, and the fees. */
  datatype Run = Run(ledger: Entries, accepted: seq<Native>, spent: seq<Outpoint>, fees: nat)

  function Step(node: Node, run: Run, native: Native): Run
    requires |native.tx.outputs| <= U32_MAX
  {
    match Applied(node, run.ledger, native)
    case None => run
    case Some(ledger) =>
      Run(ledger, run.accepted + [native], run.spent + Outpoints(native.tx.inputs), run.fees + native.fee)
  }

  function RunAll(node: Node, run: Run, natives: seq<Native>): Run
    requires forall i :: 0 <= i < |natives| ==> |natives[i].tx.outputs| <= U32_MAX
    decreases natives
  {
    if natives == [] then run else RunAll(node, Step(node, run, natives[0]), natives[1..])
  }

  predicate NoDuplicates(outpoints: seq<Outpoint>) {
    forall i, j :: 0 <= i < j < |outpoints| ==> outpoints[i] != outpoints[j]
  }

  /** Built transactions whose ids name their inputs and are new to the initial ledger. Replays of the
      same transaction are allowed. */
  ghost predicate WellIdentified(node: Node, initial: Entries, natives: seq<Native>) {
    (forall i :: 0 <= i < |natives| ==>
       Balanced(natives[i]) && |natives[i].tx.outputs| <= U32_MAX && FreshId(initial, node.id(natives[i].tx)))
    && forall i, j :: 0 <= i < |natives| && 0 <= j < |natives| && node.id(natives[i].tx) == node.id(natives[j].tx) ==>
         Outpoints(natives[i].tx.inputs) == Outpoints(natives[j].tx.inputs)
  }

  ghost predicate KnownId(node: Node, initial: Entries, accepted: seq<Native>, id: nat) {
    (exists o :: o in initial && o.txid == id) || exists k :: 0 <= k < |accepted| && node.id(accepted[k].tx) == id
  }

  ghost predicate SpentIsGone(run: Run) {
    forall o :: o in run.spent ==> o !in run.ledger
  }

  ghost predicate IdsKnown(node: Node, initial: Entries, run: Run) {
    forall o :: o in run.spent || o in run.ledger ==> KnownId(node, initial, run.accepted, o.txid)
  }

  ghost predicate AcceptedAmong(run: Run, natives: seq<Native>) {
    forall k :: 0 <= k < |run.accepted| ==> run.accepted[k] in natives
  }

  ghost predicate AcceptedSpent(run: Run) {
    forall k, i :: 0 <= k < |run.accepted| && 0 <= i < |run.accepted[k].tx.inputs| ==>
      run.accepted[k].tx.inputs[i].outpoint in run.spent
  }

  /** What holds all along a run. */
  ghost predicate RunInvariant(node: Node, initial: Entries, natives: seq<Native>, run: Run) {
    Value(run.ledger) + run.fees == Value(initial) && NoDuplicates(run.spent) && SpentIsGone(run)
    && IdsKnown(node, initial, run) && AcceptedAmong(run, natives) && AcceptedSpent(run)
  }

  /** A transaction the ledger accepts is none of those accepted before. */
  lemma AcceptedIsNew(node: Node, initial: Entries, natives: seq<Native>, run: Run, native: Native)
    requires WellIdentified(node, initial, natives) && RunInvariant(node, initial, natives, run)
    requires native in natives && |native.tx.outputs| <= U32_MAX && Applied(node, run.ledger, native).Some?
    ensures !KnownId(node, initial, run.accepted, node.id(native.tx))
  {
    var id := node.id(native.tx);
    forall k | 0 <= k < |run.accepted|
      ensures node.id(run.accepted[k].tx) != id
    {
      var other := run.accepted[k];
      assert other in natives;
      var first := native.tx.inputs[0].outpoint;
      assert first in run.ledger && other.tx.inputs[0].outpoint in run.spent;
      assert Outpoints(native.tx.inputs)[0] == first;
      assert Outpoints(other.tx.inputs)[0] == other.tx.inputs[0].outpoint;
    }
  }

  lemma StepSpendsOnce(node: Node, initial: Entries, natives: seq<Native>, run: Run, native: Native)
    requires RunInvariant(node, initial, natives, run) && Balanced(native)
    requires |native.tx.outputs| <= U32_MAX && Applied(node, run.ledger, native).Some?
    ensures NoDuplicates(run.spent + Outpoints(native.tx.inputs))
  {
    var inputs := Outpoints(native.tx.inputs);
    forall i | 0 <= i < |inputs| ensures inputs[i] !in run.spent {}
    NoDuplicatesConcat(run.spent, inputs);
  }

  lemma NoDuplicatesConcat(a: seq<Outpoint>, b: seq<Outpoint>)
    requires NoDuplicates(a) && NoDuplicates(b) && forall i :: 0 <= i < |b| ==> b[i] !in a
    ensures NoDuplicates(a + b)
  {
  }

  lemma StepKeepsIds(node: Node, initial: Entries, natives: seq<Native>, run: Run, native: Native, o: Outpoint)
    requires RunInvariant(node, initial, natives, run)
    requires |native.tx.outputs| <= U32_MAX && Applied(node, run.ledger, native).Some?
    requires var next := Step(node, run, native); o in next.spent || o in next.ledger
    ensures KnownId(node, initial, run.accepted + [native], o.txid)
  {
    if o in run.spent || o in run.ledger {
      KnownStays(node, initial, run.accepted, native, o.txid);
    } else {
      assert o.txid == node.id(native.tx);
      assert (run.accepted + [native])[|run.accepted|] == native;
    }
  }

  lemma StepKeepsInvariant(node: Node, initial: Entries, natives: seq<Native>, run: Run, native: Native)
    requires WellIdentified(node, initial, natives) && RunInvariant(node, initial, natives, run)
    requires native in natives && |native.tx.outputs| <= U32_MAX
    ensures RunInvariant(node, initial, natives, Step(node, run, native))
  {
    if Applied(node, run.ledger, native).Some? {
      AcceptedIsNew(node, initial, natives, run, native);
      var id := node.id(native.tx);
      var next := Step(node, run, native);
      assert FreshId(run.ledger, id);
      StepPaysFee(node, run.ledger, native);
      StepSpendsOnce(node, initial, natives, run, native);
      forall o | o in next.spent || o in next.ledger
        ensures KnownId(node, initial, next.accepted, o.txid)
      {
        StepKeepsIds(node, initial, natives, run, native, o);
      }
      StepRemovesSpent(node, initial, natives, run, native);
      StepKeepsAccepted(run, native);
      assert AcceptedAmong(next, natives);
    }
  }

  lemma StepRemovesSpent(node: Node, initial: Entries, natives: seq<Native>, run: Run, native: Native)
    requires RunInvariant(node, initial, natives, run)
    requires |native.tx.outputs| <= U32_MAX && Applied(node, run.ledger, native).Some?
    requires !KnownId(node, initial, run.accepted, node.id(native.tx))
    ensures SpentIsGone(Step(node, run, native))
  {
    var id := node.id(native.tx);
    var next := Step(node, run, native);
    forall o | o in next.spent
      ensures o !in next.ledger
    {
      if o in run.spent {
        assert KnownId(node, initial, run.accepted, o.txid);
        assert o !in run.ledger && o.txid != id;
      } else {
        assert o in Consumed(native.tx) && o in run.ledger;
        assert KnownId(node, initial, run.accepted, o.txid);
      }
    }
  }

  lemma StepKeepsAccepted(run: Run, native: Native)
    requires AcceptedSpent(run)
    ensures AcceptedSpent(Run(run.ledger, run.accepted + [native], run.spent + Outpoints(native.tx.inputs), run.fees))
  {
    forall i | 0 <= i < |native.tx.inputs|
      ensures native.tx.inputs[i].outpoint in Outpoints(native.tx.inputs)
    {
      assert Outpoints(native.tx.inputs)[i] == native.tx.inputs[i].outpoint;
    }
  }

  lemma KnownStays(node: Node, initial: Entries, accepted: seq<Native>, native: Native, id: nat)
    requires KnownId(node, initial, accepted, id)
    ensures KnownId(node, initial, accepted + [native], id)
  {
    if k :| 0 <= k < |accepted| && node.id(accepted[k].tx) == id {
      assert (accepted + [native])[k] == accepted[k];
    }
  }

  lemma {:induction false} RunKeepsInvariant(node: Node, initial: Entries, natives: seq<Native>, run: Run, rest: seq<Native>)
    requires WellIdentified(node, initial, natives) && RunInvariant(node, initial, natives, run)
    requires forall i :: 0 <= i < |rest| ==> rest[i] in natives && |rest[i].tx.outputs| <= U32_MAX
    ensures RunInvariant(node, initial, natives, RunAll(node, run, rest))
    decreases rest
  {
    if rest != [] {
      StepKeepsInvariant(node, initial, natives, run, rest[0]);
      RunKeepsInvariant(node, initial, natives, Step(node, run, rest[0]), rest[1..]);
    }
  }

  /** Over any sequence of steps, replays included, the ledger loses exactly the fees of the accepted
      transactions, and no outpoint is consumed twice. */
  lemma RunsConserveValue(node: Node, initial: Entries, natives: seq<Native>)
    requires WellIdentified(node, initial, natives)
    ensures var end := RunAll(node, Run(initial, [], [], 0), natives);
            Value(end.ledger) + end.fees == Value(initial) && NoDuplicates(end.spent)
            && forall o :: o in end.spent ==> o !in end.ledger
  {
    var start := Run(initial, [], [], 0);
    forall o | o in initial ensures KnownId(node, initial, [], o.txid) {}
    RunKeepsInvariant(node, initial, natives, start, natives);
  }
}
