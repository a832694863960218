/** Cutting the result of an MCP call down to a byte budget. */
module McpTruncation {
  datatype Block = Block(kind: nat, text: string, mimeType: string, uri: string, name: string, bytes: nat)

  function Metadata(b: Block): nat {
    |b.mimeType| + |b.uri| + |b.name|
  }

  function Size(b: Block): nat {
    |b.text| + Metadata(b)
  }

  function Total(bs: seq<Block>): nat {
    if bs == [] then 0 else Size(bs[0]) + Total(bs[1..])
  }

  /** What is left of the budget, whether it ran out, and the field as it is kept. */
  datatype Cut = Cut(field: string, remaining: nat, hit: bool)

  function Shrink(field: string, remaining: nat): Cut {
    if |field| <= remaining then Cut(field, remaining - |field|, false) else Cut(field[..remaining], 0, true)
  }

  /** A used-up budget leaves the field alone, uncounted. */
  function ShrinkIfAny(field: string, remaining: nat): Cut {
    if remaining > 0 then Shrink(field, remaining) else Cut(field, 0, false)
  }

  datatype CutBlock = CutBlock(block: Block, remaining: nat, hit: bool)

  function ShrinkBlock(b: Block, remaining: nat): CutBlock {
    var text := Shrink(b.text, remaining);
    var mime := ShrinkIfAny(b.mimeType, text.remaining);
    var uri := ShrinkIfAny(b.uri, mime.remaining);
    var name := ShrinkIfAny(b.name, uri.remaining);
    var kept := Block(b.kind, text.field, mime.field, uri.field, name.field, 0);
    CutBlock(kept.(bytes := Size(kept)), name.remaining, text.hit || mime.hit || uri.hit || name.hit)
  }

  datatype Kept = Kept(blocks: seq<Block>, hit: bool)

  function Truncate(bs: seq<Block>, remaining: nat): Kept {
    if bs == [] then Kept([], false)
    else if remaining == 0 then Kept([], true)
    else
      var b := ShrinkBlock(bs[0], remaining);
      if b.hit then Kept([b.block], true)
      else
        var rest := Truncate(bs[1..], b.remaining);
        Kept([b.block] + rest.blocks, rest.hit)
  }

  // ---------- what is kept ----------

  predicate SameFields(a: Block, b: Block) {
    a.kind == b.kind && a.text == b.text && a.mimeType == b.mimeType && a.uri == b.uri && a.name == b.name
  }

  predicate FieldPrefixes(a: Block, b: Block) {
    a.kind == b.kind && a.text <= b.text && a.mimeType <= b.mimeType && a.uri <= b.uri && a.name <= b.name
  }

  ghost predicate NothingLost(kept: seq<Block>, bs: seq<Block>) {
    |kept| == |bs| && forall i :: 0 <= i < |bs| ==> SameFields(kept[i], bs[i])
  }

  /** One block: what it keeps, what it costs, and when the limit was hit. */
  lemma ShrinkBlockFacts(b: Block, remaining: nat)
    requires remaining > 0
    ensures var c := ShrinkBlock(b, remaining);
            && FieldPrefixes(c.block, b) && c.block.bytes == Size(c.block)
            && (c.hit <==> !SameFields(c.block, b))
            && (c.remaining > 0 ==> Size(c.block) == remaining - c.remaining)
            && (c.hit ==> c.remaining == 0)
            && (c.remaining == 0 ==> remaining <= Size(c.block) <= remaining + Metadata(b))
  {
    var text := Shrink(b.text, remaining);
    var mime := ShrinkIfAny(b.mimeType, text.remaining);
    var uri := ShrinkIfAny(b.uri, mime.remaining);
    SizeIgnoresBytes(Block(b.kind, text.field, mime.field, uri.field, ShrinkIfAny(b.name, uri.remaining).field, 0),
                     ShrinkBlock(b, remaining).block.bytes);
  }

  lemma SizeIgnoresBytes(b: Block, bytes: nat)
    ensures Size(b.(bytes := bytes)) == Size(b)
  {}

  /** The kept blocks are the first ones, unchanged but for the last, which has every
      field a prefix of its original; sizes are recorded as they are. */
  lemma {:induction false} KeptBlocksArePrefixes(bs: seq<Block>, remaining: nat)
    ensures var kept := Truncate(bs, remaining).blocks;
            && |kept| <= |bs|
            && (forall i :: 0 <= i < |kept| ==> FieldPrefixes(kept[i], bs[i]) && kept[i].bytes == Size(kept[i]))
            && (forall i :: 0 <= i < |kept| - 1 ==> SameFields(kept[i], bs[i]))
    decreases |bs|
  {
    hide ShrinkBlock, FieldPrefixes, SameFields;
    if bs == [] || remaining == 0 {
    } else {
      ShrinkBlockFacts(bs[0], remaining);
      var b := ShrinkBlock(bs[0], remaining);
      if !b.hit {
        KeptBlocksArePrefixes(bs[1..], b.remaining);
        var rest, kept := Truncate(bs[1..], b.remaining).blocks, Truncate(bs, remaining).blocks;
        assert forall i :: 0 < i < |kept| ==> kept[i] == rest[i - 1] && bs[i] == bs[1..][i - 1];
      }
    }
  }

  /** The limit flag is raised exactly when a block or a part of one was lost. */
  lemma {:induction false} LimitFlagIsExact(bs: seq<Block>, remaining: nat)
    ensures Truncate(bs, remaining).hit <==> !NothingLost(Truncate(bs, remaining).blocks, bs)
    decreases |bs|
  {
    hide ShrinkBlock, SameFields;
    if bs == [] || remaining == 0 {
    } else {
      ShrinkBlockFacts(bs[0], remaining);
      var b := ShrinkBlock(bs[0], remaining);
      var kept := Truncate(bs, remaining).blocks;
      if b.hit {
        assert kept[0] == b.block;
      } else {
        LimitFlagIsExact(bs[1..], b.remaining);
        NothingLostCons(b.block, Truncate(bs[1..], b.remaining).blocks, bs);
      }
    }
  }

  lemma NothingLostCons(first: Block, rest: seq<Block>, bs: seq<Block>)
    requires bs != [] && SameFields(first, bs[0])
    ensures NothingLost([first] + rest, bs) <==> NothingLost(rest, bs[1..])
  {
    hide SameFields;
    var kept := [first] + rest;
    if NothingLost(rest, bs[1..]) {
      forall i | 0 <= i < |bs|
        ensures SameFields(kept[i], bs[i])
      {
        assert i > 0 ==> SameFields(rest[i - 1], bs[1..][i - 1]);
      }
    }
    if NothingLost(kept, bs) {
      forall i | 0 <= i < |bs[1..]|
        ensures SameFields(rest[i], bs[1..][i])
      {
        assert SameFields(kept[i + 1], bs[i + 1]);
      }
    }
  }

  /** All but the last kept block stay below the budget; the last may exceed it, by at
      most its own metadata; and nothing is cut before the budget is used up. */
  lemma {:induction false} BudgetIsKeptButForMetadata(bs: seq<Block>, budget: nat)
    requires budget > 0
    ensures var kept := Truncate(bs, budget);
            && |kept.blocks| <= |bs|
            && (kept.blocks != [] ==>
                  && Total(kept.blocks[..|kept.blocks| - 1]) < budget
                  && Total(kept.blocks) <= budget + Metadata(bs[|kept.blocks| - 1]))
            && (kept.hit ==> Total(kept.blocks) >= budget)
    decreases |bs|
  {
    hide ShrinkBlock, Size, Metadata;
    if bs == [] {
    } else {
      ShrinkBlockFacts(bs[0], budget);
      var b := ShrinkBlock(bs[0], budget);
      var kept := Truncate(bs, budget).blocks;
      if b.hit || b.remaining == 0 {
        assert Truncate(bs[1..], 0).blocks == [];
        assert kept == [b.block] && kept[1..] == [] && kept[..0] == [];
      } else {
        BudgetIsKeptButForMetadata(bs[1..], b.remaining);
        var rest := Truncate(bs[1..], b.remaining).blocks;
        assert kept[1..] == rest && kept[0] == b.block;
        if rest != [] {
          assert kept[..|kept| - 1] == [b.block] + rest[..|rest| - 1];
          assert ([b.block] + rest[..|rest| - 1])[1..] == rest[..|rest| - 1];
        } else {
          assert kept[..|kept| - 1] == [];
        }
      }
    }
  }

  lemma {:induction false} KeptIsNoLarger(bs: seq<Block>, remaining: nat)
    ensures Total(Truncate(bs, remaining).blocks) <= Total(bs)
    decreases |bs|
  {
    hide ShrinkBlock, SameFields;
    if bs == [] || remaining == 0 {
    } else {
      ShrinkBlockFacts(bs[0], remaining);
      var b := ShrinkBlock(bs[0], remaining);
      var kept := Truncate(bs, remaining).blocks;
      if !b.hit {
        KeptIsNoLarger(bs[1..], b.remaining);
        assert kept[1..] == Truncate(bs[1..], b.remaining).blocks;
      }
    }
  }

  /** A result below the budget is kept whole. */
  lemma SmallResultsAreKeptWhole(bs: seq<Block>, budget: nat)
    requires Total(bs) < budget
    ensures !Truncate(bs, budget).hit && NothingLost(Truncate(bs, budget).blocks, bs)
  {
    BudgetIsKeptButForMetadata(bs, budget);
    KeptIsNoLarger(bs, budget);
    LimitFlagIsExact(bs, budget);
  }

  // ---------- exactly when ----------

  /** What is left of the budget runs out strictly inside a field of the block. */
  predicate Straddles(b: Block, left: nat) {
    var afterText := |b.text|;
    var afterMime := afterText + |b.mimeType|;
    var afterUri := afterMime + |b.uri|;
    || 0 < left < afterText
    || afterText < left < afterMime
    || afterMime < left < afterUri
    || afterUri < left < afterUri + |b.name|
  }

  /** The fields after the one in which the budget runs out: they are kept uncounted. */
  function Spill(b: Block, left: nat): nat {
    if left <= |b.text| then |b.mimeType| + |b.uri| + |b.name|
    else if left <= |b.text| + |b.mimeType| then |b.uri| + |b.name|
    else if left <= |b.text| + |b.mimeType| + |b.uri| then |b.name|
    else 0
  }

  /** The budget is not used up before the last block, and cuts no field of it. */
  predicate Fits(bs: seq<Block>, budget: nat) {
    bs == [] ||
      var before := Total(bs[..|bs| - 1]);
      before < budget && !Straddles(bs[|bs| - 1], budget - before)
  }

  /** Block `i` is the one in which the budget is used up. */
  predicate RunsOutIn(bs: seq<Block>, budget: nat, i: nat) {
    i < |bs| && Total(bs[..i]) < budget <= Total(bs[..i + 1])
  }

  lemma ShrinkBlockExactly(b: Block, left: nat)
    requires left > 0
    ensures var c := ShrinkBlock(b, left);
            && (c.hit <==> Straddles(b, left))
            && (Size(b) < left ==> c.remaining == left - Size(b) && Size(c.block) == Size(b))
            && (Size(b) >= left ==> c.remaining == 0 && Size(c.block) == left + Spill(b, left))
  {
    var text := Shrink(b.text, left);
    var mime := ShrinkIfAny(b.mimeType, text.remaining);
    var uri := ShrinkIfAny(b.uri, mime.remaining);
    var kept := Block(b.kind, text.field, mime.field, uri.field, ShrinkIfAny(b.name, uri.remaining).field, 0);
    SizeIgnoresBytes(kept, ShrinkBlock(b, left).block.bytes);
    FieldExactly(b.text, left);
    FieldExactly(b.mimeType, text.remaining);
    FieldExactly(b.uri, mime.remaining);
    FieldExactly(b.name, uri.remaining);
    hide Shrink, ShrinkIfAny;
  }

  lemma FieldExactly(field: string, left: nat)
    ensures var c := Shrink(field, left);
            && c.hit == (left < |field|)
            && c.remaining == (if |field| <= left then left - |field| else 0)
            && |c.field| == (if |field| <= left then |field| else left)
    ensures var c := ShrinkIfAny(field, left);
            && c.hit == (0 < left < |field|)
            && c.remaining == (if |field| <= left then left - |field| else 0)
            && |c.field| == (if |field| <= left || left == 0 then |field| else left)
  {}

  lemma TotalCons(bs: seq<Block>, n: nat)
    requires 0 < n <= |bs|
    ensures Total(bs[..n]) == Size(bs[0]) + Total(bs[1..][..n - 1])
  {
    assert bs[..n][1..] == bs[1..][..n - 1];
  }

  lemma FitsCons(bs: seq<Block>, budget: nat)
    requires |bs| > 1
    ensures Size(bs[0]) < budget ==> (Fits(bs, budget) <==> Fits(bs[1..], budget - Size(bs[0])))
    ensures Size(bs[0]) >= budget ==> !Fits(bs, budget)
  {
    hide Size, Straddles, Total;
    TotalCons(bs, |bs| - 1);
    assert bs[1..][|bs| - 2] == bs[|bs| - 1];
  }

  /** The limit flag in terms of the input alone. */
  lemma {:induction false} LimitIsHitExactly(bs: seq<Block>, budget: nat)
    ensures Truncate(bs, budget).hit <==> !Fits(bs, budget)
    decreases |bs|
  {
    hide ShrinkBlock, Straddles, Size;
    if bs == [] || budget == 0 {
    } else {
      ShrinkBlockExactly(bs[0], budget);
      var b := ShrinkBlock(bs[0], budget);
      if |bs| == 1 {
        assert bs[..0] == [] && bs[1..] == [];
      } else {
        FitsCons(bs, budget);
        LimitIsHitExactly(bs[1..], b.remaining);
        assert b.hit ==> Size(bs[0]) >= budget by {
          StraddlingRunsOut(bs[0], budget);
        }
        hide Fits;
      }
    }
  }

  lemma StraddlingRunsOut(b: Block, left: nat)
    ensures Straddles(b, left) ==> Size(b) > left
  {}

  /** What is kept when the budget lasts. */
  lemma {:induction false} KeptWhenItLasts(bs: seq<Block>, budget: nat)
    requires Total(bs) < budget
    ensures Total(Truncate(bs, budget).blocks) == Total(bs)
    decreases |bs|
  {
    hide ShrinkBlock, Straddles, Size;
    if bs == [] {
    } else {
      ShrinkBlockExactly(bs[0], budget);
      StraddlingRunsOut(bs[0], budget);
      var b := ShrinkBlock(bs[0], budget);
      KeptWhenItLasts(bs[1..], b.remaining);
      assert Truncate(bs, budget).blocks[1..] == Truncate(bs[1..], b.remaining).blocks;
    }
  }

  /** What is kept when the budget is used up in block `i`. */
  lemma {:induction false} KeptWhenItRunsOut(bs: seq<Block>, budget: nat, i: nat)
    requires RunsOutIn(bs, budget, i)
    ensures var kept := Truncate(bs, budget).blocks;
            |kept| == i + 1 && Total(kept) == budget + Spill(bs[i], budget - Total(bs[..i]))
    decreases |bs|
  {
    hide ShrinkBlock, Straddles, Size, Spill;
    ShrinkBlockExactly(bs[0], budget);
    StraddlingRunsOut(bs[0], budget);
    TotalCons(bs, i + 1);
    var b := ShrinkBlock(bs[0], budget);
    if i == 0 {
      assert bs[..0] == [] && bs[1..][..0] == [];
      assert Truncate(bs[1..], 0).blocks == [];
      assert Truncate(bs, budget).blocks == [b.block] && [b.block][1..] == [];
    } else {
      TotalCons(bs, i);
      KeptWhenItRunsOut(bs[1..], b.remaining, i - 1);
      assert Truncate(bs, budget).blocks[1..] == Truncate(bs[1..], b.remaining).blocks;
    }
  }

  lemma {:induction false} BudgetRunsOutSomewhere(bs: seq<Block>, budget: nat, n: nat) returns (i: nat)
    requires n <= |bs| && 0 < budget <= Total(bs[..n])
    ensures RunsOutIn(bs, budget, i)
  {
    assert n > 0;
    if budget <= Total(bs[..n - 1]) {
      i := BudgetRunsOutSomewhere(bs, budget, n - 1);
    } else {
      i := n - 1;
    }
  }

  /** More is kept than the budget allows exactly when the field in which the budget is
      used up, cut or not, is followed by more fields in its block. */
  lemma BudgetIsExceededExactly(bs: seq<Block>, budget: nat)
    ensures Total(Truncate(bs, budget).blocks) > budget
       <==> exists i: nat :: RunsOutIn(bs, budget, i) && Spill(bs[i], budget - Total(bs[..i])) > 0
  {
    hide Truncate, Spill, Total;
    assert bs[..|bs|] == bs;
    if i: nat :| RunsOutIn(bs, budget, i) && Spill(bs[i], budget - Total(bs[..i])) > 0 {
      KeptWhenItRunsOut(bs, budget, i);
    }
    if budget == 0 {
      NothingIsKeptOfNothing(bs);
    } else if Total(bs) < budget {
      KeptWhenItLasts(bs, budget);
    } else {
      var i := BudgetRunsOutSomewhere(bs, budget, |bs|);
      KeptWhenItRunsOut(bs, budget, i);
    }
  }

  lemma NothingIsKeptOfNothing(bs: seq<Block>)
    ensures Total(Truncate(bs, 0).blocks) == 0
  {}

  /** Three bytes allowed, five kept, and no limit reported. */
  lemma BudgetCanBeExceeded()
    ensures var kept := Truncate([Block(0, "abc", "mm", "", "", 0)], 3);
            kept == Kept([Block(0, "abc", "mm", "", "", 5)], false) && Total(kept.blocks) == 5
  {
    var b := Block(0, "abc", "mm", "", "", 0);
    assert ShrinkBlock(b, 3).block == Block(0, "abc", "mm", "", "", 5);
    assert [b][1..] == [];
  }

  // ---------- as it runs ----------

  method ShrinkString(value: string, remaining: nat) returns (kept: string, left: nat, hit: bool)
    ensures Cut(kept, left, hit) == Shrink(value, remaining)
  {
    if |value| <= remaining {
      return value, remaining - |value|, false;
    }
    return value[..remaining], 0, true;
  }

  class McpToolCall {
    var resultBlocks: seq<Block>
    var resultBytes: nat
    var isTruncated: bool

    constructor (resultBlocks: seq<Block>, resultBytes: nat)
      ensures this.resultBlocks == resultBlocks && this.resultBytes == resultBytes && !isTruncated
    {
      this.resultBlocks, this.resultBytes, isTruncated := resultBlocks, resultBytes, false;
    }

    method TruncateResult(maxBytes: nat)
      modifies `resultBlocks, `isTruncated
      ensures maxBytes == 0 ==> resultBlocks == [] && isTruncated == (resultBytes > 0)
      ensures maxBytes > 0 ==>
                && resultBlocks == Truncate(old(resultBlocks), maxBytes).blocks
                && (isTruncated <==> old(isTruncated) || !NothingLost(resultBlocks, old(resultBlocks)))
    {
      if maxBytes == 0 {
        resultBlocks := [];
        isTruncated := resultBytes > 0;
        return;
      }
      LimitFlagIsExact(resultBlocks, maxBytes);
      var kept, hitLimit := TruncateBlocks(resultBlocks, maxBytes);
      resultBlocks := kept;
      isTruncated := isTruncated || hitLimit;
    }
  }

  method TruncateBlocks(blocks: seq<Block>, maxBytes: nat) returns (truncated: seq<Block>, hitLimit: bool)
    requires maxBytes > 0
    ensures Kept(truncated, hitLimit) == Truncate(blocks, maxBytes)
  {
    hide Shrink, ShrinkIfAny, Size;
    truncated, hitLimit := [], false;
    var remaining := maxBytes;
    var i := 0;
    while i < |blocks|
      invariant i <= |blocks| && !hitLimit
      invariant Truncate(blocks, maxBytes)
             == Kept(truncated + Truncate(blocks[i..], remaining).blocks, Truncate(blocks[i..], remaining).hit)
    {
      assert blocks[i..][1..] == blocks[i + 1..];
      if remaining == 0 {
        hitLimit := true;
        assert truncated + [] == truncated;
        return;
      }
      var block, left, hit := ShrinkOne(blocks[i], remaining);
      hide ShrinkBlock;
      assert truncated + ([block] + Truncate(blocks[i + 1..], left).blocks) == truncated + [block] + Truncate(blocks[i + 1..], left).blocks;
      truncated := truncated + [block];
      remaining := left;
      if hit {
        hitLimit := true;
        return;
      }
      i := i + 1;
    }
    assert truncated + [] == truncated;
  }

  method ShrinkOne(b: Block, budget: nat) returns (block: Block, remaining: nat, hitLimit: bool)
    ensures CutBlock(block, remaining, hitLimit) == ShrinkBlock(b, budget)
  {
    hide Size;
    block := b;
    var text, left, hit := ShrinkString(block.text, budget);
    remaining, hitLimit := left, hit;
    block := block.(text := text);
    if remaining > 0 {
      var mime, left, hit := ShrinkString(block.mimeType, remaining);
      remaining, hitLimit := left, hitLimit || hit;
      block := block.(mimeType := mime);
    }
    if remaining > 0 {
      var uri, left, hit := ShrinkString(block.uri, remaining);
      remaining, hitLimit := left, hitLimit || hit;
      block := block.(uri := uri);
    }
    if remaining > 0 {
      var name, left, hit := ShrinkString(block.name, remaining);
      remaining, hitLimit := left, hitLimit || hit;
      block := block.(name := name);
    }
    SizeIgnoresBytes(block, 0);
    block := block.(bytes := Size(block));
  }

  /** The call is marked truncated because the response is larger than the limit, which
      is measured on the whole response. It is marked although nothing was lost exactly
      when its blocks fit; under a limit of 0 that is when it has none. */
  method InvokeTool(blocks: seq<Block>, resultBytes: nat, maxBytes: nat) returns (call: McpToolCall)
    ensures call.isTruncated <==> resultBytes > maxBytes
    ensures resultBytes <= maxBytes ==> call.resultBlocks == blocks
    ensures call.isTruncated && NothingLost(call.resultBlocks, blocks) <==> resultBytes > maxBytes && Fits(blocks, maxBytes)
    ensures resultBytes > maxBytes == 0 ==> (NothingLost(call.resultBlocks, blocks) <==> blocks == [])
  {
    call := new McpToolCall(blocks, resultBytes);
    LimitIsHitExactly(blocks, maxBytes);
    LimitFlagIsExact(blocks, maxBytes);
    if call.resultBytes > maxBytes {
      call.isTruncated := true;
      call.TruncateResult(maxBytes);
    }
  }
}
