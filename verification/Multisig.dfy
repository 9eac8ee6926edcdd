/** What a multisig requirement demands: signatures of different keys, in the order of the keys. */
module Multisig {
  import opened Wrappers
  import opened ScriptNumbers
  import opened Syntax
  import opened Engine
  import opened Evaluation

  /** Signature `i` is a signature of the key at `at[i]`, and the keys come in ascending order. */
  ghost predicate SignedInOrder(c: Context, keys: seq<Bytes>, sigs: seq<Bytes>, at: seq<nat>) {
    |at| == |sigs|
    && (forall i :: 0 <= i < |at| ==> at[i] < |keys| && sigs[i] != [] && c.CheckSig(sigs[i], keys[at[i]]) == Some(true))
    && forall i, j :: 0 <= i < j < |at| ==> at[i] < at[j]
  }

  ghost predicate Signed(c: Context, keys: seq<Bytes>, sigs: seq<Bytes>) {
    exists at :: SignedInOrder(c, keys, sigs, at)
  }

  /** No check of one of these signatures against one of these keys aborts. */
  ghost predicate ChecksReturn(c: Context, keys: seq<Bytes>, sigs: seq<Bytes>) {
    forall i, j :: 0 <= i < |sigs| && 0 <= j < |keys| && sigs[i] != [] ==> c.CheckSig(sigs[i], keys[j]).Some?
  }

  /** Places among all keys are places among the later ones, shifted by one, when the first is not used. */
  lemma WithoutFirstKey(c: Context, keys: seq<Bytes>, sigs: seq<Bytes>, at: seq<nat>)
    requires SignedInOrder(c, keys, sigs, at) && keys != [] && sigs != [] && at[0] != 0
    ensures Signed(c, keys[1..], sigs)
  {
    var later := seq(|at|, i requires 0 <= i < |at| => if at[i] > 0 then at[i] - 1 else 0);
    assert forall i :: 0 <= i < |at| ==> at[i] > 0;
    assert SignedInOrder(c, keys[1..], sigs, later);
  }

  /** The same for the remaining signatures once the first is taken care of. */
  lemma WithoutFirstPair(c: Context, keys: seq<Bytes>, sigs: seq<Bytes>, at: seq<nat>)
    requires SignedInOrder(c, keys, sigs, at) && keys != [] && sigs != []
    ensures Signed(c, keys[1..], sigs[1..])
  {
    var later := seq(|at| - 1, i requires 0 <= i < |at| - 1 => if at[i + 1] > 0 then at[i + 1] - 1 else 0);
    assert forall i :: 0 < i < |at| ==> at[i] > at[0];
    assert SignedInOrder(c, keys[1..], sigs[1..], later);
  }

  lemma OneKeyEarlier(c: Context, keys: seq<Bytes>, sigs: seq<Bytes>, at: seq<nat>)
    requires keys != [] && SignedInOrder(c, keys[1..], sigs, at)
    ensures Signed(c, keys, sigs)
  {
    var places := seq(|at|, i requires 0 <= i < |at| => at[i] + 1);
    assert SignedInOrder(c, keys, sigs, places);
  }

  lemma OnePairEarlier(c: Context, keys: seq<Bytes>, sigs: seq<Bytes>, at: seq<nat>)
    requires keys != [] && sigs != [] && SignedInOrder(c, keys[1..], sigs[1..], at)
    requires sigs[0] != [] && c.CheckSig(sigs[0], keys[0]) == Some(true)
    ensures Signed(c, keys, sigs)
  {
    var places := seq(|at| + 1, i requires 0 <= i < |at| + 1 => if i == 0 then 0 else at[i - 1] + 1);
    assert forall i :: 0 < i < |sigs| ==> sigs[i] == sigs[1..][i - 1];
    assert SignedInOrder(c, keys, sigs, places);
  }

  lemma {:induction false} EnoughKeys(c: Context, keys: seq<Bytes>, sigs: seq<Bytes>, at: seq<nat>)
    requires SignedInOrder(c, keys, sigs, at)
    ensures |sigs| <= |keys| && forall i :: 0 <= i < |at| ==> at[i] >= i
  {
    var i: nat := 0;
    while i < |at|
      invariant i <= |at| && forall j :: 0 <= j < i ==> at[j] >= j
    {
      assert i > 0 ==> at[i - 1] < at[i];
      i := i + 1;
    }
    if at != [] { assert at[|at| - 1] < |keys|; }
  }

  /** Matching signatures greedily, one key after the other, finds an assignment whenever there is one. */
  lemma {:induction false} GreedyIsExact(c: Context, keys: seq<Bytes>, sigs: seq<Bytes>)
    requires ChecksReturn(c, keys, sigs)
    ensures MatchSignatures(c, keys, sigs).Some?
    ensures MatchSignatures(c, keys, sigs).value <==> Signed(c, keys, sigs)
    decreases keys
  {
    if sigs == [] {
      assert SignedInOrder(c, keys, sigs, []);
    } else if sigs[0] == [] || |keys| < |sigs| {
      if at :| SignedInOrder(c, keys, sigs, at) { EnoughKeys(c, keys, sigs, at); }
    } else if c.CheckSig(sigs[0], keys[0]).value {
      GreedyIsExact(c, keys[1..], sigs[1..]);
      if at :| SignedInOrder(c, keys, sigs, at) { WithoutFirstPair(c, keys, sigs, at); }
      if at :| SignedInOrder(c, keys[1..], sigs[1..], at) { OnePairEarlier(c, keys, sigs, at); }
    } else {
      GreedyIsExact(c, keys[1..], sigs);
      if at :| SignedInOrder(c, keys, sigs, at) { WithoutFirstKey(c, keys, sigs, at); }
      if at :| SignedInOrder(c, keys[1..], sigs, at) { OneKeyEarlier(c, keys, sigs, at); }
    }
  }

  /** A multisig requirement over signatures and keys that have values holds if and only if there are at
      most twenty keys, and the signatures are those of different keys in the order of the keys. */
  lemma MultisigHolds(w: World, e: Expr, sigs: seq<Bytes>, keys: seq<Bytes>)
    requires InFragment(e) && IsMultisig(e)
    requires EvalAll(w, Elsewhere, e.args[2].elements) == Some(sigs) && EvalAll(w, Elsewhere, e.args[1].elements) == Some(keys)
    requires ChecksReturn(w.c, keys, sigs)
    ensures Holds(w, e) <==> |keys| <= 20 && Signed(w.c, keys, sigs)
  {
    GreedyIsExact(w.c, keys, sigs);
    if at :| SignedInOrder(w.c, keys, sigs, at) { EnoughKeys(w.c, keys, sigs, at); }
    assert !IsVerify(e) && !IsHash(e);
    assert Eval(w, Elsewhere, e) == EvalCall(w, Elsewhere, e) == MultiSig(w.c, keys, sigs);
    BoolNum(true);
    BoolNum(false);
  }
}
