/** Joining a table's caption to its table (joinAdjacentTableCaptions in src/blocks.ts). */
module Captions {
  import opened Text
  import opened Json
  import opened Blocks
  import opened Scan

  /** The block is all of its kind at its place: no neighbour is a chunk of the same run. */
  predicate Alone(blocks: seq<Block>, k: nat) {
    && k < |blocks|
    && !(k > 0 && blocks[k - 1].kind == blocks[k].kind && blocks[k - 1].end == blocks[k].start)
    && !(k + 1 < |blocks| && blocks[k + 1].kind == blocks[k].kind && blocks[k].end == blocks[k + 1].start)
  }

  /**
   * The table that a paragraph is a caption of: the only table next to it, when both stand alone.
   * `caption` says whether a paragraph starts like a caption, `gap` whether only white space follows a block.
   */
  function TableFor(blocks: seq<Block>, caption: nat -> bool, gap: nat -> bool, k: nat): (t: Option<nat>)
    ensures t.Some? ==> t.value < |blocks| && k < |blocks| && (t.value + 1 == k || t.value == k + 1)
                        && blocks[t.value].kind == Table && blocks[k].kind == Paragraph
  {
    if k >= |blocks| || blocks[k].kind != Paragraph || !caption(k) then None
    else
      var before := k > 0 && blocks[k - 1].kind == Table && gap(k - 1);
      var after := k + 1 < |blocks| && blocks[k + 1].kind == Table && gap(k);
      if before == after then None
      else
        var t := if before then k - 1 else k + 1;
        if Alone(blocks, t) && Alone(blocks, k) then Some(t) else None
  }

  function Low(a: nat, b: nat): nat { if a <= b then a else b }
  function High(a: nat, b: nat): nat { if a >= b then a else b }

  /** Captions that were found for each table, in order. */
  function CaptionsOf(blocks: seq<Block>, caption: nat -> bool, gap: nat -> bool, t: nat, upTo: nat): seq<nat> {
    if upTo == 0 then []
    else CaptionsOf(blocks, caption, gap, t, upTo - 1) + if TableFor(blocks, caption, gap, upTo - 1) == Some(t) then [upTo - 1] else []
  }

  lemma {:induction false} CaptionIsFor(blocks: seq<Block>, caption: nat -> bool, gap: nat -> bool, t: nat, upTo: nat, c: nat)
    requires c in CaptionsOf(blocks, caption, gap, t, upTo)
    ensures c < upTo && TableFor(blocks, caption, gap, c) == Some(t)
  {
    hide TableFor;
    if c in CaptionsOf(blocks, caption, gap, t, upTo - 1) { CaptionIsFor(blocks, caption, gap, t, upTo - 1, c); }
  }

  /** The table has exactly one caption, and both fit into one block. */
  predicate Fits(blocks: seq<Block>, caption: nat -> bool, gap: nat -> bool, t: nat, c: nat) {
    && t < |blocks| && c < |blocks| && CaptionsOf(blocks, caption, gap, t, |blocks|) == [c]
    && High(blocks[t].end, blocks[c].end) - Low(blocks[t].start, blocks[c].start) <= MAX_BLOCK
  }

  /** What joining uses: each table has one neighbour as caption, and no paragraph goes to two tables. */
  ghost predicate Pairs(blocks: seq<Block>, joins: map<nat, nat>) {
    && (forall t :: t in joins ==> t < |blocks| && joins[t] < |blocks| && blocks[t].kind == Table && blocks[joins[t]].kind == Paragraph
                                   && (joins[t] + 1 == t || joins[t] == t + 1)
                                   && High(blocks[t].end, blocks[joins[t]].end) - Low(blocks[t].start, blocks[joins[t]].start) <= MAX_BLOCK)
    && (forall t, u :: t in joins && u in joins && joins[t] == joins[u] ==> t == u)
  }

  function StartOf(blocks: seq<Block>, joins: map<nat, nat>, k: nat): nat
    requires k < |blocks|
  {
    if k in joins && joins[k] < |blocks| then Low(blocks[k].start, blocks[joins[k]].start) else blocks[k].start
  }

  function EndOf(blocks: seq<Block>, joins: map<nat, nat>, k: nat): nat
    requires k < |blocks|
  {
    if k in joins && joins[k] < |blocks| then High(blocks[k].end, blocks[joins[k]].end) else blocks[k].end
  }

  function Kept(blocks: seq<Block>, joins: map<nat, nat>, upTo: nat): seq<Block>
    requires upTo <= |blocks|
  {
    if upTo == 0 then []
    else
      var before := Kept(blocks, joins, upTo - 1);
      if upTo - 1 in joins.Values then before
      else before + [blocks[upTo - 1].(id := |before| + 1, start := StartOf(blocks, joins, upTo - 1), end := EndOf(blocks, joins, upTo - 1))]
  }

  // ---------------------------------------------------------------- joining keeps the shape

  lemma {:induction false} InOrder(bytes: seq<Byte>, blocks: seq<Block>, j: nat, k: nat)
    requires Shaped(bytes, blocks) && j < k < |blocks|
    ensures blocks[j].start < blocks[j].end <= blocks[k].start < blocks[k].end
  {
    BlocksApart(bytes, blocks, j, k);
    assert BlockOk(bytes, blocks[j], j + 1) && BlockOk(bytes, blocks[k], k + 1);
  }

  /** The widened ranges of two blocks that stay do not meet. */
  lemma {:induction false} StillApart(bytes: seq<Byte>, blocks: seq<Block>, joins: map<nat, nat>, j: nat, k: nat)
    requires Shaped(bytes, blocks) && Pairs(blocks, joins) && j < k < |blocks| && j !in joins.Values && k !in joins.Values
    ensures EndOf(blocks, joins, j) <= StartOf(blocks, joins, k)
  {
    var jEnd := if j in joins then High(j, joins[j]) else j;
    var kStart := if k in joins then Low(k, joins[k]) else k;
    if j in joins { Partner(blocks, joins, j, k); }
    if k in joins { Partner(blocks, joins, k, j); }
    assert jEnd < kStart by { if j in joins && k in joins { assert joins[j] != joins[k]; } }
    InOrder(bytes, blocks, jEnd, kStart);
    EndIs(bytes, blocks, joins, j);
    StartIs(bytes, blocks, joins, k);
  }

  /** A block that stays is not the caption of another. */
  lemma {:induction false} Partner(blocks: seq<Block>, joins: map<nat, nat>, t: nat, k: nat)
    requires Pairs(blocks, joins) && t in joins && k !in joins.Values
    ensures joins[t] != k && joins[t] < |blocks| && (joins[t] + 1 == t || joins[t] == t + 1)
  {
  }

  lemma {:induction false} EndIs(bytes: seq<Byte>, blocks: seq<Block>, joins: map<nat, nat>, j: nat)
    requires Shaped(bytes, blocks) && Pairs(blocks, joins) && j < |blocks|
    ensures EndOf(blocks, joins, j) == blocks[if j in joins then High(j, joins[j]) else j].end
    ensures j in joins ==> joins[j] < |blocks|
  {
    if j in joins {
      if joins[j] < j { InOrder(bytes, blocks, joins[j], j); } else { InOrder(bytes, blocks, j, joins[j]); }
    }
  }

  lemma {:induction false} StartIs(bytes: seq<Byte>, blocks: seq<Block>, joins: map<nat, nat>, k: nat)
    requires Shaped(bytes, blocks) && Pairs(blocks, joins) && k < |blocks|
    ensures StartOf(blocks, joins, k) == blocks[if k in joins then Low(k, joins[k]) else k].start
    ensures k in joins ==> joins[k] < |blocks|
  {
    if k in joins {
      if joins[k] < k { InOrder(bytes, blocks, joins[k], k); } else { InOrder(bytes, blocks, k, joins[k]); }
    }
  }

  lemma {:induction false} WidenedOk(bytes: seq<Byte>, blocks: seq<Block>, joins: map<nat, nat>, k: nat, id: nat)
    requires Shaped(bytes, blocks) && Pairs(blocks, joins) && k < |blocks|
    ensures BlockOk(bytes, blocks[k].(id := id, start := StartOf(blocks, joins, k), end := EndOf(blocks, joins, k)), id)
  {
    EndIs(bytes, blocks, joins, k);
    StartIs(bytes, blocks, joins, k);
    assert BlockOk(bytes, blocks[k], k + 1);
    if k in joins {
      assert BlockOk(bytes, blocks[joins[k]], joins[k] + 1);
      if joins[k] < k { InOrder(bytes, blocks, joins[k], k); } else { InOrder(bytes, blocks, k, joins[k]); }
    }
  }

  /** The last block that was kept comes from a block that stays. */
  lemma {:induction false} LastKept(blocks: seq<Block>, joins: map<nat, nat>, upTo: nat) returns (k: nat)
    requires upTo <= |blocks| && Kept(blocks, joins, upTo) != []
    ensures k < upTo && k !in joins.Values && Kept(blocks, joins, upTo)[|Kept(blocks, joins, upTo)| - 1].end == EndOf(blocks, joins, k)
    decreases upTo
  {
    hide EndOf, StartOf;
    if upTo - 1 in joins.Values { k := LastKept(blocks, joins, upTo - 1); } else { k := upTo - 1; }
  }

  lemma {:induction false} KeptIsShaped(bytes: seq<Byte>, blocks: seq<Block>, joins: map<nat, nat>, upTo: nat)
    requires Shaped(bytes, blocks) && Pairs(blocks, joins) && upTo <= |blocks|
    ensures Shaped(bytes, Kept(blocks, joins, upTo))
    decreases upTo
  {
    hide EndOf, StartOf, Pairs, BlockOk;
    if upTo > 0 {
      KeptIsShaped(bytes, blocks, joins, upTo - 1);
      if upTo - 1 !in joins.Values {
        var before := Kept(blocks, joins, upTo - 1);
        WidenedOk(bytes, blocks, joins, upTo - 1, |before| + 1);
        if before != [] {
          var k := LastKept(blocks, joins, upTo - 1);
          StillApart(bytes, blocks, joins, k, upTo - 1);
        }
      }
    }
  }

  // ---------------------------------------------------------------- joining uncovers nothing

  lemma {:induction false} KeptHas(blocks: seq<Block>, joins: map<nat, nat>, upTo: nat, k: nat, at: int)
    requires upTo <= |blocks| && k < upTo && k !in joins.Values && StartOf(blocks, joins, k) <= at < EndOf(blocks, joins, k)
    ensures Covered(Kept(blocks, joins, upTo), at)
    decreases upTo
  {
    hide EndOf, StartOf;
    var kept := Kept(blocks, joins, upTo);
    if k == upTo - 1 {
      assert kept[|kept| - 1] in kept && Holds(kept[|kept| - 1], at);
    } else {
      KeptHas(blocks, joins, upTo - 1, k, at);
      var b :| b in Kept(blocks, joins, upTo - 1) && Holds(b, at);
      assert b in kept;
    }
  }

  /** Every byte that a block covered is still covered. */
  lemma {:induction false} JoiningCovers(blocks: seq<Block>, joins: map<nat, nat>, at: int)
    requires Pairs(blocks, joins) && Covered(blocks, at)
    ensures Covered(Kept(blocks, joins, |blocks|), at)
  {
    hide Kept;
    var b :| b in blocks && Holds(b, at);
    var k :| 0 <= k < |blocks| && blocks[k] == b;
    if k in joins.Values {
      var t :| t in joins && joins[t] == k;
      assert t !in joins.Values by { TableStays(blocks, joins, t); }
      KeptHas(blocks, joins, |blocks|, t, at);
    } else {
      KeptHas(blocks, joins, |blocks|, k, at);
    }
  }

  lemma {:induction false} TableStays(blocks: seq<Block>, joins: map<nat, nat>, t: nat)
    requires Pairs(blocks, joins) && t in joins
    ensures t !in joins.Values
  {
  }

  // ---------------------------------------------------------------- the loops

  method FindCaptions(blocks: seq<Block>, caption: nat -> bool, gap: nat -> bool) returns (byTable: map<nat, seq<nat>>)
    ensures forall t: nat :: (t in byTable <==> CaptionsOf(blocks, caption, gap, t, |blocks|) != [])
                              && (t in byTable ==> byTable[t] == CaptionsOf(blocks, caption, gap, t, |blocks|))
  {
    hide TableFor;
    byTable := map[];
    for k := 0 to |blocks|
      invariant forall t: nat :: (t in byTable <==> CaptionsOf(blocks, caption, gap, t, k) != [])
                                  && (t in byTable ==> byTable[t] == CaptionsOf(blocks, caption, gap, t, k))
    {
      var table := TableFor(blocks, caption, gap, k);
      if table.Some? {
        var t := table.value;
        byTable := byTable[t := (if t in byTable then byTable[t] else []) + [k]];
      }
    }
  }

  lemma {:induction false} FitsIsPair(blocks: seq<Block>, caption: nat -> bool, gap: nat -> bool, t: nat, c: nat)
    requires Fits(blocks, caption, gap, t, c)
    ensures TableFor(blocks, caption, gap, c) == Some(t)
    ensures blocks[t].kind == Table && blocks[c].kind == Paragraph && (c + 1 == t || c == t + 1)
  {
    hide TableFor, CaptionsOf;
    assert c in CaptionsOf(blocks, caption, gap, t, |blocks|);
    CaptionIsFor(blocks, caption, gap, t, |blocks|, c);
  }

  lemma {:induction false} FitsArePairs(blocks: seq<Block>, caption: nat -> bool, gap: nat -> bool, joins: map<nat, nat>)
    requires forall t :: t in joins ==> Fits(blocks, caption, gap, t, joins[t])
    ensures Pairs(blocks, joins)
  {
    hide TableFor, CaptionsOf;
    forall t | t in joins ensures TableFor(blocks, caption, gap, joins[t]) == Some(t) && blocks[t].kind == Table && blocks[joins[t]].kind == Paragraph
                                  && (joins[t] + 1 == t || joins[t] == t + 1) {
      FitsIsPair(blocks, caption, gap, t, joins[t]);
    }
  }

  /** The joins: tables with one caption whose joint range fits into one block, and only those. */
  method ChooseJoins(blocks: seq<Block>, caption: nat -> bool, gap: nat -> bool) returns (joins: map<nat, nat>)
    ensures Pairs(blocks, joins)
    ensures forall t :: t in joins ==> Fits(blocks, caption, gap, t, joins[t])
    ensures forall t: nat, c: nat :: Fits(blocks, caption, gap, t, c) ==> t in joins
  {
    hide TableFor, CaptionsOf;
    var byTable := FindCaptions(blocks, caption, gap);
    joins := map[];
    for t := 0 to |blocks|
      invariant forall u :: u in joins ==> u < t && Fits(blocks, caption, gap, u, joins[u])
      invariant forall u: nat, c: nat :: Fits(blocks, caption, gap, u, c) && u < t ==> u in joins
    {
      if t in byTable && |byTable[t]| == 1 {
        var c := byTable[t][0];
        assert c in CaptionsOf(blocks, caption, gap, t, |blocks|);
        CaptionIsFor(blocks, caption, gap, t, |blocks|, c);
        if High(blocks[t].end, blocks[c].end) - Low(blocks[t].start, blocks[c].start) <= MAX_BLOCK {
          assert Fits(blocks, caption, gap, t, c);
          joins := joins[t := c];
        }
      }
    }
    FitsArePairs(blocks, caption, gap, joins);
  }

  /** Joined captions leave the list, their tables take over their bytes, and the ids are counted anew. */
  method JoinCaptions(bytes: seq<Byte>, blocks: seq<Block>, caption: nat -> bool, gap: nat -> bool) returns (result: seq<Block>, ghost joins: map<nat, nat>)
    requires Shaped(bytes, blocks)
    ensures Shaped(bytes, result) && result == Kept(blocks, joins, |blocks|)
    ensures forall at :: Covered(blocks, at) ==> Covered(result, at)
    ensures forall t: nat :: t in joins <==> exists c: nat :: Fits(blocks, caption, gap, t, c)
    ensures forall t :: t in joins ==> Fits(blocks, caption, gap, t, joins[t])
  {
    hide Fits, Covered, StartOf, EndOf, BlockOk, Pairs;
    var chosen := ChooseJoins(blocks, caption, gap);
    joins := chosen;
    var joined := chosen.Values;
    result := [];
    for k := 0 to |blocks|
      invariant result == Kept(blocks, chosen, k)
    {
      if k !in joined {
        result := result + [blocks[k].(id := |result| + 1, start := StartOf(blocks, chosen, k), end := EndOf(blocks, chosen, k))];
      }
    }
    KeptIsShaped(bytes, blocks, chosen, |blocks|);
    forall at | Covered(blocks, at) ensures Covered(result, at) { JoiningCovers(blocks, chosen, at); }
  }

  /**
   * The blocks of a source: those of its runs, with captions joined to their tables; in order, apart, of limited
   * size, between characters, and over every byte of every line that says something.
   */
  method BlocksOf(text: Text, p: Patterns, sentence: (nat, nat) -> nat, caption: nat -> bool, gap: nat -> bool)
    returns (blocks: seq<Block>, lines: seq<Line>, ghost cut: seq<Block>, ghost marks: seq<nat>, ghost joins: map<nat, nat>)
    requires SentenceEnds(Utf8(text), sentence)
    ensures LinesOf(text, lines, |text|) && Shaped(Utf8(text), blocks)
    ensures forall k :: 0 <= k < |lines| ==> p.blank(lines[k].body) || LineCovered(blocks, lines[k])
    ensures Emitted(Utf8(text), lines, sentence, cut, Segments(lines, p, 0, None, None), marks)
    ensures blocks == Kept(cut, joins, |cut|)
    ensures forall t: nat :: t in joins <==> exists c: nat :: Fits(cut, caption, gap, t, c)
    ensures forall t :: t in joins ==> Fits(cut, caption, gap, t, joins[t])
  {
    hide Utf8, LinesOf, Covered, Shaped, Fits, Emitted, Segments;
    var scanned;
    scanned, lines, marks := ScanBlocks(text, p, sentence);
    cut := scanned;
    blocks, joins := JoinCaptions(Utf8(text), scanned, caption, gap);
  }
}
