/** Contracts with any number of `params` blocks, their entries and the spends in any order, and what
    the parser makes of them (compiler/parser/src/parser.rs). */
module ContractItems {
  import opened Wrappers
  import opened Syntax
  import opened Tokens
  import opened Grammar
  import opened Readings
  import opened Printer
  import opened Programs

  datatype Item = BlockItem(entries: seq<Entry>) | SpendItem(spend: Spend)

  // ---- items as tokens ----

  function PrintEntry(e: Entry): seq<TokenKind> {
    if e.ParamEntry? then PrintParam(e.param) else PrintDepth(Depth(e.blocks))
  }

  function PrintEntries(entries: seq<Entry>): seq<TokenKind> {
    if entries == [] then [] else PrintEntry(entries[0]) + PrintEntries(entries[1..])
  }

  function PrintItem(item: Item): seq<TokenKind> {
    match item
    case BlockItem(entries) => [ParamsWord] + ([LeftBrace] + (PrintEntries(entries) + [RightBrace]))
    case SpendItem(spend) => PrintSpend(spend)
  }

  function PrintItems(items: seq<Item>): seq<TokenKind> {
    if items == [] then [] else PrintItem(items[0]) + PrintItems(items[1..])
  }

  function PrintItemized(name: string, items: seq<Item>): seq<TokenKind> {
    [ContractWord] + ([NameToken(name)] + ([LeftBrace] + (PrintItems(items) + [RightBrace])))
  }

  // ---- what they say ----

  function EntriesOf(item: Item): seq<Entry> { if item.BlockItem? then item.entries else [] }

  /** The entries of all blocks, in order. */
  function AllEntries(items: seq<Item>): seq<Entry> {
    if items == [] then [] else EntriesOf(items[0]) + AllEntries(items[1..])
  }

  function ParamsOf(entries: seq<Entry>): seq<Param> {
    if entries == [] then []
    else if entries[0].ParamEntry? then [entries[0].param] + ParamsOf(entries[1..])
    else ParamsOf(entries[1..])
  }

  function SpendsOf(items: seq<Item>): seq<Spend> {
    if items == [] then []
    else if items[0].SpendItem? then [items[0].spend] + SpendsOf(items[1..])
    else SpendsOf(items[1..])
  }

  /** The depth is that of the last entry that gives one. */
  ghost predicate LastDepth(entries: seq<Entry>, depth: FinalityDepth) {
    match depth
    case NoDepth => forall i :: 0 <= i < |entries| ==> entries[i].ParamEntry?
    case Depth(blocks) =>
      exists i :: 0 <= i < |entries| && entries[i] == DepthEntry(blocks) && forall j :: i < j < |entries| ==> entries[j].ParamEntry?
  }

  predicate WritableEntry(e: Entry) { e.ParamEntry? ==> e.param.name.name != "finality_depth" }

  predicate AllWritableEntries(entries: seq<Entry>) {
    forall i :: 0 <= i < |entries| ==> WritableEntry(entries[i])
  }

  // ---- entries one after the other ----

  function DepthAfter(entries: seq<Entry>, depth: FinalityDepth): FinalityDepth
    decreases entries
  {
    if entries == [] then depth
    else DepthAfter(entries[1..], if entries[0].DepthEntry? then Depth(entries[0].blocks) else depth)
  }

  lemma {:induction false} DepthAfterIsLast(entries: seq<Entry>, depth: FinalityDepth)
    ensures if forall i :: 0 <= i < |entries| ==> entries[i].ParamEntry? then DepthAfter(entries, depth) == depth
            else DepthAfter(entries, depth).Depth? && LastDepth(entries, DepthAfter(entries, depth))
    decreases entries
  {
    if entries != [] {
      var first, rest := entries[0], entries[1..];
      var next := if first.DepthEntry? then Depth(first.blocks) else depth;
      DepthAfterIsLast(rest, next);
      assert forall i :: 0 < i < |entries| ==> entries[i] == rest[i - 1];
      if forall i :: 0 <= i < |rest| ==> rest[i].ParamEntry? {
        assert first.DepthEntry? ==> entries[0] == DepthEntry(first.blocks);
      } else {
        var blocks := DepthAfter(rest, next).blocks;
        var i :| 0 <= i < |rest| && rest[i] == DepthEntry(blocks) && forall j :: i < j < |rest| ==> rest[j].ParamEntry?;
        assert entries[i + 1] == DepthEntry(blocks);
      }
    }
  }

  lemma {:induction false} DepthAfterConcat(a: seq<Entry>, b: seq<Entry>, depth: FinalityDepth)
    ensures DepthAfter(a + b, depth) == DepthAfter(b, DepthAfter(a, depth))
    decreases a
  {
    if a == [] {
      assert a + b == b;
    } else {
      assert (a + b)[0] == a[0] && (a + b)[1..] == a[1..] + b;
      DepthAfterConcat(a[1..], b, if a[0].DepthEntry? then Depth(a[0].blocks) else depth);
    }
  }

  lemma JoinedDepth(before: Block, params: seq<Param>, entries: seq<Entry>)
    ensures before.Join(Block(params, DepthAfter(entries, NoDepth))) == Block(before.params + params, DepthAfter(entries, before.depth))
  {
    DepthAfterIsLast(entries, NoDepth);
    DepthAfterIsLast(entries, before.depth);
    if !forall i :: 0 <= i < |entries| ==> entries[i].ParamEntry? {
      LastDepthIsOne(entries, DepthAfter(entries, NoDepth), DepthAfter(entries, before.depth));
    }
  }

  lemma LastDepthIsOne(entries: seq<Entry>, a: FinalityDepth, b: FinalityDepth)
    requires a.Depth? && b.Depth? && LastDepth(entries, a) && LastDepth(entries, b)
    ensures a == b
  {
    var i :| 0 <= i < |entries| && entries[i] == DepthEntry(a.blocks) && forall j :: i < j < |entries| ==> entries[j].ParamEntry?;
    var k :| 0 <= k < |entries| && entries[k] == DepthEntry(b.blocks) && forall j :: k < j < |entries| ==> entries[j].ParamEntry?;
    assert i == k;
  }

  lemma {:induction false} ParamsConcat(a: seq<Entry>, b: seq<Entry>)
    ensures ParamsOf(a + b) == ParamsOf(a) + ParamsOf(b)
    decreases a
  {
    if a == [] {
      assert a + b == b;
    } else {
      assert (a + b)[0] == a[0] && (a + b)[1..] == a[1..] + b;
      ParamsConcat(a[1..], b);
      if a[0].ParamEntry? { ConcatAssociates([a[0].param], ParamsOf(a[1..]), ParamsOf(b)); }
    }
  }

  lemma {:induction false} AlikeConcat(a1: seq<Param>, a: seq<Param>, b1: seq<Param>, b: seq<Param>)
    requires ParamsAlike(a1, a) && ParamsAlike(b1, b)
    ensures ParamsAlike(a1 + b1, a + b)
  {
    EraseConcat(a1, b1);
    EraseConcat(a, b);
  }

  lemma {:induction false} EraseConcat(a: seq<Param>, b: seq<Param>)
    ensures EraseParams(a + b) == EraseParams(a) + EraseParams(b)
  {
    if a == [] {
      assert a + b == b;
    } else {
      assert (a + b)[0] == a[0] && (a + b)[1..] == a[1..] + b;
      EraseConcat(a[1..], b);
      ConcatAssociates([EraseParam(a[0])], EraseParams(a[1..]), EraseParams(b));
    }
  }

  // ---- parsing them ----

  lemma ParamEntryParses(t: seq<Token>, c: nat, p: Param, k: nat, block: Block) returns (params1: seq<Param>)
    requires k == c + 4 && At(t, c, PrintParam(p)) && p.name.name != "finality_depth"
    ensures c < k <= |t| && ParamsAlike(params1, [p])
    ensures Same(ParseEntries(t, c, block), ParseEntries(t, k, Block(block.params + params1, block.depth)))
  {
    var p1 := EntryStep(t, c, k, p, block);
    params1 := [p1];
    ParamsAlikeCons([p], p1, []);
  }

  lemma DepthEntryParses(t: seq<Token>, c: nat, blocks: u64, k: nat, block: Block)
    requires k == c + 4 && At(t, c, PrintDepth(Depth(blocks)))
    ensures c < k <= |t| && Same(ParseEntries(t, c, block), ParseEntries(t, k, Block(block.params, Depth(blocks))))
  {
    var kinds := PrintDepth(Depth(blocks));
    assert t[c + 0].kind == kinds[0] && t[c + 1].kind == kinds[1] && t[c + 2].kind == kinds[2] && t[c + 3].kind == kinds[3];
    DepthStep(t, c, k, blocks, block);
  }

  lemma OneEntry(e: Entry, depth: FinalityDepth)
    ensures ParamsOf([e]) == if e.ParamEntry? then [e.param] else []
    ensures DepthAfter([e], depth) == if e.DepthEntry? then Depth(e.blocks) else depth
    ensures |PrintEntry(e)| == 4
  {
    assert [e][1..] == [];
  }

  lemma NoneAdded(block: Block)
    ensures block.params + [] == block.params
  {
  }

  lemma EntryParses(t: seq<Token>, c: nat, e: Entry, k: nat, block: Block) returns (params1: seq<Param>)
    requires k == c + |PrintEntry(e)| && At(t, c, PrintEntry(e)) && WritableEntry(e)
    ensures c < k <= |t| && ParamsAlike(params1, ParamsOf([e]))
    ensures Same(ParseEntries(t, c, block), ParseEntries(t, k, Block(block.params + params1, DepthAfter([e], block.depth))))
  {
    OneEntry(e, block.depth);
    if e.ParamEntry? {
      params1 := ParamEntryParses(t, c, e.param, k, block);
    } else {
      params1 := [];
      DepthEntryParses(t, c, e.blocks, k, block);
      NoneAdded(block);
    }
  }

  lemma EntryFirst(t: seq<Token>, c: nat, entries: seq<Entry>, e: Entry, n: nat, block: Block) returns (k: nat, first: seq<Param>, next: Block)
    requires entries != [] && e == entries[0] && At(t, c, PrintEntries(entries)) && n == c + |PrintEntries(entries)|
    requires AllWritableEntries(entries)
    ensures c < k <= |t| && n == k + |PrintEntries(entries[1..])| && At(t, k, PrintEntries(entries[1..]))
    ensures ParamsAlike(first, ParamsOf([e])) && next == Block(block.params + first, DepthAfter([e], block.depth))
    ensures Same(ParseEntries(t, c, block), ParseEntries(t, k, next))
  {
    k := CutTokens(t, c, PrintEntry(e), PrintEntries(entries[1..]), n);
    first := EntryParses(t, c, e, k, block);
    next := Block(block.params + first, DepthAfter([e], block.depth));
  }

  lemma {:induction false} EntriesOfBlockParse(t: seq<Token>, c: nat, entries: seq<Entry>, n: nat, block: Block) returns (params1: seq<Param>)
    requires At(t, c, PrintEntries(entries)) && n == c + |PrintEntries(entries)| && Check(t, n, RightBrace) && AllWritableEntries(entries)
    ensures ParamsAlike(params1, ParamsOf(entries)) && Collects(t, c, block, entries, params1, n)
    decreases entries
  {
    if entries == [] {
      params1 := [];
      NoMoreEntries(t, c, block);
    } else {
      var e, rest := entries[0], entries[1..];
      assert entries == [e] + rest;
      var k, first, next := EntryFirst(t, c, entries, e, n, block);
      var more := EntriesOfBlockParse(t, k, rest, n, next);
      params1 := first + more;
      ParamsMeet([e], rest, first, more);
      CollectsMore(t, c, k, n, block, next, e, rest, first, more);
    }
  }

  /** The entries from `c` on add the given parameters to those before and end at `n`. */
  ghost predicate Collects(t: seq<Token>, c: nat, block: Block, entries: seq<Entry>, params: seq<Param>, n: nat) {
    c <= |t| && Same(ParseEntries(t, c, block), Success((Block(block.params + params, DepthAfter(entries, block.depth)), n)))
  }

  lemma NoMoreEntries(t: seq<Token>, c: nat, block: Block)
    requires Check(t, c, RightBrace)
    ensures Collects(t, c, block, [], [], c)
  {
    NoneAdded(block);
  }

  lemma CollectsMore(t: seq<Token>, c: nat, k: nat, n: nat, block: Block, next: Block, e: Entry, rest: seq<Entry>,
                     first: seq<Param>, more: seq<Param>)
    requires next == Block(block.params + first, DepthAfter([e], block.depth))
    requires c <= |t| && k <= |t| && Same(ParseEntries(t, c, block), ParseEntries(t, k, next))
    requires Collects(t, k, next, rest, more, n)
    ensures Collects(t, c, block, [e] + rest, first + more, n)
  {
    ConcatAssociates(block.params, first, more);
    DepthAfterConcat([e], rest, block.depth);
  }

  lemma BlockItemParses(t: seq<Token>, c: nat, entries: seq<Entry>, k: nat, items: Items) returns (params1: seq<Param>)
    requires At(t, c, PrintItem(BlockItem(entries))) && k == c + |PrintItem(BlockItem(entries))| && AllWritableEntries(entries)
    ensures c < k <= |t| && ParamsAlike(params1, ParamsOf(entries))
    ensures Same(ParseContractItems(t, c, items),
                 ParseContractItems(t, k, Items(Block(items.block.params + params1, DepthAfter(entries, items.block.depth)), items.spends)))
  {
    AtHead(t, c, ParamsWord, [LeftBrace] + (PrintEntries(entries) + [RightBrace]));
    var c1, m := c + 1, k - 1;
    AtList(t, c1, LeftBrace, PrintEntries(entries), RightBrace);
    var c2 := c + 2;
    params1 := EntriesOfBlockParse(t, c2, entries, m, Block([], NoDepth));
    assert [] + params1 == params1;
    var block := Block(params1, DepthAfter(entries, NoDepth));
    BlockStep(t, c1, c2, params1, block.depth, m, k);
    JoinedDepth(items.block, params1, entries);
    JoinStep(t, c, c1, block, k, items);
  }

  lemma JoinStep(t: seq<Token>, c: nat, c1: nat, block: Block, k: nat, items: Items)
    requires c1 == c + 1 && c < k <= |t| && t[c].kind == ParamsWord && Same(ParseParamsBlock(t, c1), Success((block, k)))
    ensures Same(ParseContractItems(t, c, items), ParseContractItems(t, k, Items(items.block.Join(block), items.spends)))
  {
  }

  /** The items from `c` on add the given parameters and spends to those before and end at `n`; a depth
      among the entries replaces the one before. */
  ghost predicate Adds(t: seq<Token>, c: nat, before: Items, entries: seq<Entry>, params: seq<Param>, spends: seq<Spend>, n: nat) {
    c <= |t|
    && Same(ParseContractItems(t, c, before),
            Success((Items(Block(before.block.params + params, DepthAfter(entries, before.block.depth)), before.spends + spends), n)))
  }

  lemma NoMoreItems(t: seq<Token>, c: nat, before: Items)
    requires Check(t, c, RightBrace)
    ensures Adds(t, c, before, [], [], [], c)
  {
    assert before.block.params + [] == before.block.params && before.spends + [] == before.spends;
  }

  lemma AddsBlock(t: seq<Token>, c: nat, k: nat, n: nat, before: Items, block: Block, next: Items, a: seq<Entry>, b: seq<Entry>,
                  first: seq<Param>, more: seq<Param>, spends: seq<Spend>)
    requires block == Block(before.block.params + first, DepthAfter(a, before.block.depth)) && next == Items(block, before.spends)
    requires c <= |t| && k <= |t| && Same(ParseContractItems(t, c, before), ParseContractItems(t, k, next))
    requires Adds(t, k, next, b, more, spends, n)
    ensures Adds(t, c, before, a + b, first + more, spends, n)
  {
    ConcatAssociates(before.block.params, first, more);
    DepthAfterConcat(a, b, before.block.depth);
  }

  lemma AddsSpend(t: seq<Token>, c: nat, k: nat, n: nat, before: Items, next: Items, entries: seq<Entry>, spend: Spend,
                  params: seq<Param>, more: seq<Spend>)
    requires next == Items(before.block, before.spends + [spend])
    requires c <= |t| && k <= |t| && Same(ParseContractItems(t, c, before), ParseContractItems(t, k, next))
    requires Adds(t, k, next, entries, params, more, n)
    ensures Adds(t, c, before, entries, params, [spend] + more, n)
  {
    ConcatAssociates(before.spends, [spend], more);
  }

  lemma WritableParts(a: seq<Entry>, b: seq<Entry>)
    requires AllWritableEntries(a + b)
    ensures AllWritableEntries(a) && AllWritableEntries(b)
  {
    forall i | 0 <= i < |a| ensures WritableEntry(a[i]) { assert a[i] == (a + b)[i]; }
    forall i | 0 <= i < |b| ensures WritableEntry(b[i]) { assert b[i] == (a + b)[|a| + i]; }
  }

  lemma ParamsMeet(a: seq<Entry>, b: seq<Entry>, first: seq<Param>, more: seq<Param>)
    requires ParamsAlike(first, ParamsOf(a)) && ParamsAlike(more, ParamsOf(b))
    ensures ParamsAlike(first + more, ParamsOf(a + b))
  {
    ParamsConcat(a, b);
    AlikeConcat(first, ParamsOf(a), more, ParamsOf(b));
  }

  /** The first item and the entries and spends of the others. */
  lemma FirstItem(items: seq<Item>)
    requires items != []
    ensures AllEntries(items) == EntriesOf(items[0]) + AllEntries(items[1..])
    ensures items[0].SpendItem? ==> AllEntries(items) == AllEntries(items[1..]) && SpendsOf(items) == [items[0].spend] + SpendsOf(items[1..])
    ensures items[0].BlockItem? ==> EntriesOf(items[0]) == items[0].entries && SpendsOf(items) == SpendsOf(items[1..])
  {
    assert [] + AllEntries(items[1..]) == AllEntries(items[1..]);
  }

  lemma SpendFirst(t: seq<Token>, c: nat, spend: Spend, k: nat, before: Items) returns (s1: Spend, next: Items)
    requires At(t, c, PrintItem(SpendItem(spend))) && k == c + |PrintItem(SpendItem(spend))|
    ensures c < k <= |t| && SpendAlike(s1, spend) && next == Items(before.block, before.spends + [s1])
    ensures Same(ParseContractItems(t, c, before), ParseContractItems(t, k, next))
  {
    s1 := NextSpend(t, c, spend, k, before);
    next := Items(before.block, before.spends + [s1]);
  }

  lemma BlockFirst(t: seq<Token>, c: nat, entries: seq<Entry>, k: nat, before: Items) returns (first: seq<Param>, next: Items)
    requires At(t, c, PrintItem(BlockItem(entries))) && k == c + |PrintItem(BlockItem(entries))| && AllWritableEntries(entries)
    ensures c < k <= |t| && ParamsAlike(first, ParamsOf(entries))
    ensures next == Items(Block(before.block.params + first, DepthAfter(entries, before.block.depth)), before.spends)
    ensures Same(ParseContractItems(t, c, before), ParseContractItems(t, k, next))
  {
    first := BlockItemParses(t, c, entries, k, before);
    next := Items(Block(before.block.params + first, DepthAfter(entries, before.block.depth)), before.spends);
  }

  lemma CutItems(t: seq<Token>, c: nat, items: seq<Item>, n: nat) returns (k: nat)
    requires items != [] && At(t, c, PrintItems(items)) && n == c + |PrintItems(items)|
    ensures k == c + |PrintItem(items[0])| && n == k + |PrintItems(items[1..])|
    ensures At(t, c, PrintItem(items[0])) && At(t, k, PrintItems(items[1..]))
  {
    k := CutTokens(t, c, PrintItem(items[0]), PrintItems(items[1..]), n);
  }

  lemma {:induction false} ItemsParse(t: seq<Token>, c: nat, items: seq<Item>, n: nat, before: Items) returns (params1: seq<Param>, spends1: seq<Spend>)
    requires At(t, c, PrintItems(items)) && n == c + |PrintItems(items)| && Check(t, n, RightBrace)
    requires AllWritableEntries(AllEntries(items))
    ensures ParamsAlike(params1, ParamsOf(AllEntries(items))) && SpendsAlike(spends1, SpendsOf(items))
    ensures Adds(t, c, before, AllEntries(items), params1, spends1, n)
    decreases items
  {
    if items == [] {
      params1, spends1 := [], [];
      NoMoreItems(t, c, before);
    } else {
      var rest := items[1..];
      var k := CutItems(t, c, items, n);
      FirstItem(items);
      WritableParts(EntriesOf(items[0]), AllEntries(rest));
      if items[0].BlockItem? {
        var first, next := BlockFirst(t, c, items[0].entries, k, before);
        var more;
        more, spends1 := ItemsParse(t, k, rest, n, next);
        params1 := first + more;
        ParamsMeet(items[0].entries, AllEntries(rest), first, more);
        AddsBlock(t, c, k, n, before, next.block, next, items[0].entries, AllEntries(rest), first, more, spends1);
      } else {
        var s1, next := SpendFirst(t, c, items[0].spend, k, before);
        var more;
        params1, more := ItemsParse(t, k, rest, n, next);
        spends1 := [s1] + more;
        SpendsAlikeCons(SpendsOf(items), s1, more);
        AddsSpend(t, c, k, n, before, next, AllEntries(rest), s1, params1, more);
      }
    }
  }

  lemma WholeContract(t: seq<Token>, c: nat, c1: nat, c3: nat, name: string, params: seq<Param>, depth: FinalityDepth, spends: seq<Spend>,
                      m: nat, n: nat) returns (contract: Contract)
    requires c1 == c + 1 && c3 == c + 3 && c3 <= m && n == m + 1 && n <= |t|
    requires t[c].kind == ContractWord && t[c1].kind == NameToken(name) && t[c + 2].kind == LeftBrace
    requires Same(ParseContractItems(t, c3, Items(Block([], NoDepth), [])), Success((Items(Block(params, depth), spends), m)))
    ensures contract.name.name == name && contract.params == params && contract.finalityDepth == depth && contract.spends == spends
    ensures Same(ParseContract(t, c), Success((contract, n)))
  {
    var id := Ident(name, t[c1].span);
    ContractBodyStep(t, c3, t[c].span.start, id, Block(params, depth), spends, m, n);
    ContractStep(t, c, c3, id);
    contract := Contract(id, params, depth, spends, Span(t[c].span.start, t[m].span.end));
  }

  lemma ItemizedTokens(t: seq<Token>, c: nat, c1: nat, c2: nat, c3: nat, name: string, items: seq<Item>)
    requires c1 == c + 1 && c2 == c + 2 && c3 == c + 3 && At(t, c, PrintItemized(name, items))
    ensures Check(t, c, ContractWord) && Check(t, c1, NameToken(name)) && Check(t, c2, LeftBrace)
    ensures At(t, c3, PrintItems(items)) && Check(t, c3 + |PrintItems(items)|, RightBrace)
  {
    HeaderTokens(t, c, c1, c2, name, PrintItems(items));
  }

  lemma LastOf(entries: seq<Entry>) returns (depth: FinalityDepth)
    ensures depth == DepthAfter(entries, NoDepth) && LastDepth(entries, depth)
  {
    depth := DepthAfter(entries, NoDepth);
    DepthAfterIsLast(entries, NoDepth);
  }

  lemma ItemizedParses(t: seq<Token>, c: nat, c1: nat, c2: nat, c3: nat, name: string, items: seq<Item>, m: nat, n: nat) returns (contract: Contract)
    requires c1 == c + 1 && c2 == c + 2 && c3 == c + 3 && At(t, c, PrintItemized(name, items))
    requires m == c3 + |PrintItems(items)| && n == m + 1 && AllWritableEntries(AllEntries(items))
    ensures n <= |t| && Same(ParseContract(t, c), Success((contract, n)))
    ensures contract.name.name == name && ParamsAlike(contract.params, ParamsOf(AllEntries(items)))
    ensures SpendsAlike(contract.spends, SpendsOf(items)) && LastDepth(AllEntries(items), contract.finalityDepth)
  {
    ItemizedTokens(t, c, c1, c2, c3, name, items);
    var params1, spends1 := BodyItemsParse(t, c3, items, m, Items(Block([], NoDepth), []));
    var depth := LastOf(AllEntries(items));
    contract := WholeContract(t, c, c1, c3, name, params1, depth, spends1, m, n);
  }

  /** A contract written with any number of `params` blocks, in any order with its spends, has the
      parameters of all blocks and all spends in their order, and the depth that was given last. */
  lemma ItemsInAnyOrder(t: seq<Token>, name: string, items: seq<Item>) returns (contract: Contract)
    requires Spells(t, PrintItemized(name, items)) && AllWritableEntries(AllEntries(items))
    ensures Same(ParseProgram(t, 0, []), Success(([contract], |t|)))
    ensures contract.name.name == name && ParamsAlike(contract.params, ParamsOf(AllEntries(items)))
    ensures SpendsAlike(contract.spends, SpendsOf(items)) && LastDepth(AllEntries(items), contract.finalityDepth)
  {
    contract := ItemizedParses(t, 0, 1, 2, 3, name, items, |t| - 1, |t|);
    LastContract(t, 0, |t|, contract, []);
    assert [] + [contract] == [contract];
  }

  lemma LastContract(t: seq<Token>, c: nat, n: nat, contract: Contract, before: seq<Contract>)
    requires c < n == |t| && Same(ParseContract(t, c), Success((contract, n)))
    ensures Same(ParseProgram(t, c, before), Success((before + [contract], n)))
  {
  }

  lemma BodyItemsParse(t: seq<Token>, c: nat, items: seq<Item>, n: nat, start: Items) returns (params1: seq<Param>, spends1: seq<Spend>)
    requires At(t, c, PrintItems(items)) && n == c + |PrintItems(items)| && Check(t, n, RightBrace)
    requires AllWritableEntries(AllEntries(items)) && start == Items(Block([], NoDepth), [])
    ensures ParamsAlike(params1, ParamsOf(AllEntries(items))) && SpendsAlike(spends1, SpendsOf(items))
    ensures Same(ParseContractItems(t, c, start), Success((Items(Block(params1, DepthAfter(AllEntries(items), NoDepth)), spends1), n)))
  {
    params1, spends1 := ItemsParse(t, c, items, n, start);
    NothingBefore(t, c, AllEntries(items), params1, spends1, n);
  }

  lemma HeaderTokens(t: seq<Token>, c: nat, c1: nat, c2: nat, name: string, list: seq<TokenKind>)
    requires c1 == c + 1 && c2 == c + 2 && At(t, c, [ContractWord] + ([NameToken(name)] + ([LeftBrace] + (list + [RightBrace]))))
    ensures Check(t, c, ContractWord) && Check(t, c1, NameToken(name)) && Check(t, c2, LeftBrace)
    ensures At(t, c2 + 1, list) && Check(t, c2 + 1 + |list|, RightBrace)
  {
    AtHead(t, c, ContractWord, [NameToken(name)] + ([LeftBrace] + (list + [RightBrace])));
    AtHead(t, c1, NameToken(name), [LeftBrace] + (list + [RightBrace]));
    AtList(t, c2, LeftBrace, list, RightBrace);
  }

  lemma NothingBefore(t: seq<Token>, c: nat, entries: seq<Entry>, params: seq<Param>, spends: seq<Spend>, n: nat)
    requires Adds(t, c, Items(Block([], NoDepth), []), entries, params, spends, n)
    ensures Same(ParseContractItems(t, c, Items(Block([], NoDepth), [])), Success((Items(Block(params, DepthAfter(entries, NoDepth)), spends), n)))
  {
    assert [] + params == params && [] + spends == spends;
  }
}
