/** What one reference label names: parsing of label tokens and of groups of them (src/citations.ts). */
module Atoms {
  import opened Text

  datatype Block = Block(id: int, start: nat, end: nat)
  datatype LabelSource = LabelSource(sourceId: Text, revisionId: Text, title: Text, blocks: seq<Block>, alias: Text)

  datatype ScopeMaps = ScopeMaps(aliases: map<Text, seq<nat>>, revisions: map<Text, seq<nat>>, blocks: seq<map<int, Block>>)

  // ---------------------------------------------------------------- the frozen scope

  /** The places of a name, in order. */
  function Positions(names: seq<Text>, name: Text): seq<nat> {
    if names == [] then []
    else
      var k := |names| - 1;
      Positions(names[..k], name) + if names[k] == name then [k] else []
  }

  lemma {:induction false} PositionsExact(names: seq<Text>, name: Text, k: nat)
    ensures k in Positions(names, name) <==> k < |names| && names[k] == name
  {
    if names != [] {
      PositionsExact(names[..|names| - 1], name, k);
    }
  }

  lemma {:induction false} PositionsAscend(names: seq<Text>, name: Text)
    ensures forall i, j :: 0 <= i < j < |Positions(names, name)| ==> Positions(names, name)[i] < Positions(names, name)[j]
  {
    if names != [] {
      var k := |names| - 1;
      PositionsAscend(names[..k], name);
      forall i | 0 <= i < |Positions(names[..k], name)| ensures Positions(names[..k], name)[i] < k {
        PositionsExact(names[..k], name, Positions(names[..k], name)[i]);
      }
    }
  }

  ghost predicate Only(names: seq<Text>, name: Text, i: nat) {
    i < |names| && names[i] == name && forall j :: 0 <= j < |names| && names[j] == name ==> j == i
  }

  lemma SomeTwo(group: seq<nat>, i: nat)
    requires |group| > 1 ==> group[0] < group[1]
    requires |group| > 1 ==> group[0] == i && group[1] == i
    ensures |group| <= 1
  {
  }

  /** A group with one place is the group of a name that stands there and nowhere else. */
  lemma {:induction false} SinglePosition(names: seq<Text>, name: Text, i: nat)
    ensures Positions(names, name) == [i] <==> Only(names, name, i)
  {
    var group := Positions(names, name);
    PositionsAscend(names, name);
    forall k: nat ensures k in group <==> k < |names| && names[k] == name { PositionsExact(names, name, k); }
    if Only(names, name, i) {
      assert i in group;
      forall k | 0 <= k < |group| ensures group[k] == i { assert group[k] in group; }
      assert |group| <= 1 by { SomeTwo(group, i); }
    }
    if group == [i] {
      assert i in group;
      forall j | 0 <= j < |names| && names[j] == name ensures j == i { assert j in group; }
    }
  }

  ghost predicate Groups(groups: map<Text, seq<nat>>, names: seq<Text>) {
    && (forall name :: name in groups <==> name in names)
    && (forall name :: name in groups ==> groups[name] == Positions(names, name))
  }

  function AliasNames(sources: seq<LabelSource>): (r: seq<Text>)
    ensures |r| == |sources| && forall i :: 0 <= i < |r| ==> r[i] == sources[i].alias
  {
    seq(|sources|, i requires 0 <= i < |sources| => sources[i].alias)
  }

  function RevisionNames(sources: seq<LabelSource>): (r: seq<Text>)
    ensures |r| == |sources| && forall i :: 0 <= i < |r| ==> r[i] == sources[i].revisionId
  {
    seq(|sources|, i requires 0 <= i < |sources| => sources[i].revisionId)
  }

  /** The last block of an id stands for it. */
  ghost predicate LastBlock(blocks: seq<Block>, id: int, row: Block) {
    exists k :: 0 <= k < |blocks| && blocks[k] == row && row.id == id
                && forall j :: k < j < |blocks| ==> blocks[j].id != id
  }

  ghost predicate BlocksById(byId: map<int, Block>, blocks: seq<Block>) {
    && (forall id :: id in byId ==> LastBlock(blocks, id, byId[id]))
    && (forall k :: 0 <= k < |blocks| ==> blocks[k].id in byId)
  }

  ghost predicate MapsFor(maps: ScopeMaps, sources: seq<LabelSource>) {
    && Groups(maps.aliases, AliasNames(sources))
    && Groups(maps.revisions, RevisionNames(sources))
    && |maps.blocks| == |sources|
    && forall i :: 0 <= i < |sources| ==> BlocksById(maps.blocks[i], sources[i].blocks)
  }

  method BlockMap(blocks: seq<Block>) returns (byId: map<int, Block>)
    ensures BlocksById(byId, blocks)
  {
    byId := map[];
    for n := 0 to |blocks|
      invariant forall id :: id in byId ==>
                  exists k :: 0 <= k < n && blocks[k] == byId[id] && byId[id].id == id
                              && forall j :: k < j < n ==> blocks[j].id != id
      invariant forall k :: 0 <= k < n ==> blocks[k].id in byId
    {
      byId := byId[blocks[n].id := blocks[n]];
    }
  }

  /** Adds place `k` to the group of its name. */
  lemma GroupsGrow(groups: map<Text, seq<nat>>, names: seq<Text>, k: nat)
    requires k < |names| && Groups(groups, names[..k])
    ensures var name := names[k];
            Groups(groups[name := (if name in groups then groups[name] else []) + [k]], names[..k + 1])
  {
    var name := names[k];
    assert names[..k + 1][..k] == names[..k];
    assert name !in names[..k] ==> Positions(names[..k], name) == [] by {
      if Positions(names[..k], name) != [] {
        PositionsExact(names[..k], name, Positions(names[..k], name)[0]);
        assert Positions(names[..k], name)[0] in Positions(names[..k], name);
      }
    }
    forall other ensures other in names[..k + 1] <==> other in names[..k] || other == name {
      if other == name { assert names[..k + 1][k] == name; }
      if other in names[..k] {
        var j :| 0 <= j < k && names[j] == other;
        assert names[..k + 1][j] == other;
      }
    }
  }

  method BuildScopeMaps(sources: seq<LabelSource>) returns (maps: ScopeMaps)
    ensures MapsFor(maps, sources)
  {
    hide Groups, BlocksById;
    var aliases: map<Text, seq<nat>>, revisions: map<Text, seq<nat>>, blocks := map[], map[], [];
    ghost var an, rn := AliasNames(sources), RevisionNames(sources);
    assert Groups(aliases, an[..0]) && Groups(revisions, rn[..0]) by { NoGroups(an); NoGroups(rn); }
    for i := 0 to |sources|
      invariant Groups(aliases, an[..i]) && Groups(revisions, rn[..i])
      invariant |blocks| == i && forall k :: 0 <= k < i ==> BlocksById(blocks[k], sources[k].blocks)
    {
      var source := sources[i];
      var byId := BlockMap(source.blocks);
      GroupsGrow(aliases, an, i);
      GroupsGrow(revisions, rn, i);
      aliases := aliases[source.alias := (if source.alias in aliases then aliases[source.alias] else []) + [i]];
      revisions := revisions[source.revisionId := (if source.revisionId in revisions then revisions[source.revisionId] else []) + [i]];
      blocks := blocks + [byId];
    }
    assert an[..|sources|] == an && rn[..|sources|] == rn;
    maps := ScopeMaps(aliases, revisions, blocks);
  }

  lemma NoGroups(names: seq<Text>)
    ensures Groups(map[], names[..0])
  {
  }

  // ---------------------------------------------------------------- one label

  const MAX_SAFE: nat := 0x1F_FFFF_FFFF_FFFF

  predicate Digits(s: Text) { s != [] && forall k :: 0 <= k < |s| ==> IsDigit(s[k]) }

  function DecimalValue(s: Text): nat
    requires forall k :: 0 <= k < |s| ==> IsDigit(s[k])
  {
    if s == [] then 0
    else
      var last := s[|s| - 1];
      assert IsDigit(last);
      10 * DecimalValue(s[..|s| - 1]) + (last - 48)
  }

  /** How a number is written. */
  function Decimal(n: nat): (s: Text)
    ensures Digits(s)
  {
    if n < 10 then [ZERO + n] else Decimal(n / 10) + [ZERO + n % 10]
  }

  lemma {:induction false} DecimalReads(n: nat)
    ensures DecimalValue(Decimal(n)) == n
  {
    if n >= 10 {
      DecimalReads(n / 10);
      assert (Decimal(n / 10) + [ZERO + n % 10])[..|Decimal(n / 10)|] == Decimal(n / 10);
    } else {
      assert DecimalValue([]) == 0;
      assert DecimalValue([ZERO + n]) == n;
    }
  }

  predicate Uuid(h: Text) {
    && |h| == 36
    && forall k :: 0 <= k < 36 ==> if k == 8 || k == 13 || k == 18 || k == 23 then h[k] == DASH else IsHex(h[k])
  }

  /** Where the last colon stands, or -1. */
  function LastColon(s: Text): (k: int)
    ensures -1 <= k < |s|
    ensures k >= 0 ==> s[k] == COLON
    ensures forall j :: k < j < |s| ==> s[j] != COLON
  {
    if s == [] then -1
    else if s[|s| - 1] == COLON then |s| - 1
    else LastColon(s[..|s| - 1])
  }

  datatype Parsed = Parsed(source: nat, block: nat, start: nat, end: nat)

  predicate Bracketed(token: Text) {
    |token| >= 2 && token[0] == OPEN_BRACKET && token[|token| - 1] == CLOSE_BRACKET
  }

  function Row(group: Option<seq<nat>>, block: nat, maps: ScopeMaps): Option<Parsed> {
    if group.None? || |group.value| != 1 then None
    else
      var i := group.value[0];
      if i < |maps.blocks| && block in maps.blocks[i]
      then Some(Parsed(i, block, maps.blocks[i][block].start, maps.blocks[i][block].end)) else None
  }

  function Get<K, V>(m: map<K, V>, key: K): Option<V> { if key in m then Some(m[key]) else None }

  function ParseToken(token: Text, maps: ScopeMaps): Option<Parsed>
    requires Bracketed(token)
  {
    var kind := token[1];
    var inner := if |token| > 3 then token[2..|token| - 1] else [];
    var split := LastColon(inner);
    if split < 0 then None
    else
      var head, tail := inner[..split], inner[split + 1..];
      if !Digits(tail) then None
      else
        var block := DecimalValue(tail);
        if block > MAX_SAFE || block < 1 then None
        else if kind == UPPER_S then
          if !Digits(head) then None else Row(Get(maps.aliases, [UPPER_S] + head), block, maps)
        else if kind == UPPER_R then
          if !Uuid(head) then None else Row(Get(maps.revisions, head), block, maps)
        else None
  }

  function Spell(kind: Unit, head: Text, tail: Text): Text {
    [OPEN_BRACKET, kind] + head + [COLON] + tail + [CLOSE_BRACKET]
  }

  /** Head and tail spell a label of this block of source `at.source`, and of no other source. */
  ghost predicate Names(kind: Unit, head: Text, tail: Text, at: Parsed, sources: seq<LabelSource>) {
    && at.source < |sources|
    && Digits(tail) && at.block == DecimalValue(tail) && 1 <= at.block <= MAX_SAFE
    && LastBlock(sources[at.source].blocks, at.block, Block(at.block, at.start, at.end))
    && if kind == UPPER_S then Digits(head) && Only(AliasNames(sources), [UPPER_S] + head, at.source)
       else kind == UPPER_R && Uuid(head) && Only(RevisionNames(sources), head, at.source)
  }

  lemma RowExact(groups: map<Text, seq<nat>>, names: seq<Text>, name: Text, block: nat, maps: ScopeMaps, sources: seq<LabelSource>, at: Parsed)
    requires MapsFor(maps, sources) && Groups(groups, names) && |names| == |sources|
    ensures Row(Get(groups, name), block, maps) == Some(at) <==>
            && at.block == block && at.source < |sources| && Only(names, name, at.source)
            && LastBlock(sources[at.source].blocks, block, Block(block, at.start, at.end))
  {
    hide Only, Positions;
    SinglePosition(names, name, at.source);
    if Only(names, name, at.source) { OnlyIn(names, name, at.source); }
    if at.source < |sources| {
      assert BlocksById(maps.blocks[at.source], sources[at.source].blocks);
    }
  }

  lemma OnlyIn(names: seq<Text>, name: Text, i: nat)
    requires Only(names, name, i)
    ensures name in names
  {
  }

  lemma {:induction false} LastColonUnique(s: Text, k: nat)
    requires k < |s| && s[k] == COLON && forall j :: k < j < |s| ==> s[j] != COLON
    ensures LastColon(s) == k
  {
  }

  lemma SpellParts(kind: Unit, head: Text, tail: Text)
    requires Digits(tail)
    ensures var token := Spell(kind, head, tail);
            && Bracketed(token) && |token| > 3 && token[1] == kind
            && var inner := token[2..|token| - 1];
            && LastColon(inner) == |head| && inner[..|head|] == head && inner[|head| + 1..] == tail
  {
    var token := Spell(kind, head, tail);
    var inner := token[2..|token| - 1];
    assert inner == head + [COLON] + tail;
    forall j | |head| < j < |inner| ensures inner[j] != COLON { assert IsDigit(tail[j - |head| - 1]); }
    LastColonUnique(inner, |head|);
  }

  /** A spelled name is read as the passage it names. */
  lemma SpelledIsParsed(kind: Unit, head: Text, tail: Text, at: Parsed, maps: ScopeMaps, sources: seq<LabelSource>)
    requires MapsFor(maps, sources) && Digits(tail)
    ensures ParseToken(Spell(kind, head, tail), maps) == Some(at) <==> Names(kind, head, tail, at, sources)
  {
    hide LastColon, Row, DecimalValue, Only, Uuid, Groups, BlocksById, LastBlock, Spell;
    SpellParts(kind, head, tail);
    RowExact(maps.aliases, AliasNames(sources), [UPPER_S] + head, DecimalValue(tail), maps, sources, at);
    RowExact(maps.revisions, RevisionNames(sources), head, DecimalValue(tail), maps, sources, at);
  }

  lemma SpellAgain(token: Text, split: nat)
    requires Bracketed(token) && |token| > 3 && split < |token| - 3 && token[2 + split] == COLON
    ensures var inner := token[2..|token| - 1];
            token == Spell(token[1], inner[..split], inner[split + 1..])
  {
    var inner := token[2..|token| - 1];
    assert inner[..split] == token[2..2 + split];
    assert inner[split + 1..] == token[3 + split..|token| - 1];
    assert token == token[..2] + token[2..2 + split] + [token[2 + split]] + token[3 + split..|token| - 1] + [token[|token| - 1]];
    assert token[..2] == [OPEN_BRACKET, token[1]];
  }

  /** Whatever is read is a spelled name. */
  lemma ParsedIsSpelled(token: Text, maps: ScopeMaps) returns (kind: Unit, head: Text, tail: Text)
    requires Bracketed(token) && ParseToken(token, maps).Some?
    ensures token == Spell(kind, head, tail) && Digits(tail)
    ensures (kind == UPPER_S && Digits(head)) || (kind == UPPER_R && Uuid(head))
  {
    hide Row, DecimalValue, Uuid, Digits;
    var inner := token[2..|token| - 1];
    var split := LastColon(inner);
    kind, head, tail := token[1], inner[..split], inner[split + 1..];
    SpellAgain(token, split);
  }

  /**
   * A token names a passage exactly when it spells its block after the alias of the only source
   * with that alias, or after the revision id of the only source with that revision.
   */
  lemma ParseTokenExact(token: Text, at: Parsed, maps: ScopeMaps, sources: seq<LabelSource>)
    requires Bracketed(token) && MapsFor(maps, sources)
    ensures ParseToken(token, maps) == Some(at) <==>
            exists kind, head, tail :: token == Spell(kind, head, tail) && Names(kind, head, tail, at, sources)
  {
    hide LastColon, Row, DecimalValue, Only, Uuid, Groups, BlocksById, LastBlock, Spell, ParseToken, MapsFor;
    if ParseToken(token, maps) == Some(at) {
      var kind, head, tail := ParsedIsSpelled(token, maps);
      SpelledIsParsed(kind, head, tail, at, maps, sources);
    }
    if kind, head, tail :| token == Spell(kind, head, tail) && Names(kind, head, tail, at, sources) {
      SpelledIsParsed(kind, head, tail, at, maps, sources);
    }
  }
}
