/**
 * Reading older turns one row at a time under one memory allowance, and choosing the exchanges that go
 * into a request (src/model-history.ts; planHistory, historyAt and selectHistory in src/context.ts).
 */
module HistoryReader {
  import opened Text
  import opened ModelInput
  import opened Budget
  import opened History

  const MATERIALIZATION: nat := 0x100_0000
  const QUERY: nat := 1024

  datatype Key = Key(createdAt: int, id: int)

  predicate Below(a: Key, b: Key) { a.createdAt < b.createdAt || (a.createdAt == b.createdAt && a.id < b.id) }

  /** A raw row as the reader's queries see it. `bytes` is what loading its fragments may allocate. */
  datatype Row = Row(key: Key, shortId: bool, payload: int, eligible: bool, inScope: bool, kept: bool, bytes: nat, rawLength: nat)

  /** Rows in the order of the index, newest first. */
  ghost predicate Descending(rows: seq<Row>) { forall j, k :: 0 <= j < k < |rows| ==> Below(rows[k].key, rows[j].key) }

  datatype Step = End | Ignored | Omitted | Limited | Unavailable | Candidate(row: Row)

  /** The row is gone, or newer than its key, when its metadata is read. */
  predicate Broke(row: Row, current: int) { row.key.id != current && !row.kept }

  predicate OutOfScope(row: Row, current: int) { row.key.id != current && row.kept && row.eligible && !row.inScope }

  predicate IsCandidate(row: Row, current: int) { row.key.id != current && row.kept && row.eligible && row.inScope }

  /** What a visited row turns out to be. */
  function Fate(row: Row, current: int): Step {
    if Broke(row, current) then Unavailable
    else if OutOfScope(row, current) then Omitted
    else if IsCandidate(row, current) then Candidate(row)
    else Ignored
  }

  function FateCost(row: Row): nat {
    if row.payload < 0 then 0 else if row.kept && row.eligible && row.inScope then 2 * row.payload else row.payload
  }

  /** Reading the metadata of the row would pass an allowance. */
  predicate Overruns(row: Row, used: nat, scanned: nat, scope: nat) {
    || row.payload < 0 || scanned + row.payload > MATERIALIZATION
    || used + scope > MATERIALIZATION || used + scope + QUERY > MATERIALIZATION
    || scanned + FateCost(row) > MATERIALIZATION
  }

  /** An exchange that was planned; `row` is present for one that is read lazily. */
  datatype Item = Item(row: Option<Row>, loaded: bool, rawLength: nat)

  /** Payload that was counted ahead for fragments that are not loaded yet. */
  function Waiting(items: seq<Item>): nat {
    if items == [] then 0
    else
      var last := items[|items| - 1];
      Waiting(items[..|items| - 1]) + if last.row.Some? && !last.loaded && last.row.value.payload >= 0 then last.row.value.payload else 0
  }

  /** The candidates among the first `n` rows, newest first. */
  function Candidates(rows: seq<Row>, current: int, n: nat): seq<Row>
    requires n <= |rows|
  {
    if n == 0 then []
    else Candidates(rows, current, n - 1) + if IsCandidate(rows[n - 1], current) then [rows[n - 1]] else []
  }

  /** The exchanges that came with the call, and then one for each candidate. */
  ghost predicate Plans(items: seq<Item>, history: seq<Item>, candidates: seq<Row>) {
    && |items| == |history| + |candidates|
    && (forall k :: 0 <= k < |history| ==> items[k].row == history[k].row && items[k].rawLength == history[k].rawLength)
    && forall k :: |history| <= k < |items| ==> items[k].row == Some(candidates[k - |history|]) && items[k].rawLength == candidates[k - |history|].rawLength
  }

  ghost predicate SomeOut(rows: seq<Row>, current: int, n: nat) { exists k :: 0 <= k < n && k < |rows| && OutOfScope(rows[k], current) }

  ghost predicate SomeBroke(rows: seq<Row>, current: int, from: nat, n: nat) { exists k :: from <= k < n && k < |rows| && Broke(rows[k], current) }

  /** Why no further exchange is taken. */
  datatype Stop = NoMore | NoMemory | OverBudget | Broken

  /** What is planned and left when exchanges have been selected. */
  datatype Standing = Standing(items: seq<Item>, used: nat, done: bool, limited: bool, omitted: bool)

  /**
   * The first `taken` exchanges are kept, and the next one is not for the reason `why`; an omission, and a newest
   * exchange that does not fit, are reported exactly for these reasons.
   */
  ghost predicate Selects(budget: int, reading: nat -> Option<seq<Turn>>, s: Selected, taken: nat, why: Stop, now: Standing) {
    && taken <= |now.items| && s.messages == Kept(reading, taken) && Whole(Texts(s.messages))
    && (s.messages != [] ==> HistoryTokens(Texts(s.messages)) <= budget)
    && (why == NoMore ==> taken == |now.items| && now.done)
    && (why == NoMemory ==> taken < |now.items| && NoRoom(now.items[taken], now.used))
    && (why == OverBudget ==>
          taken < |now.items| && reading(taken).Some?
          && HistoryTokens(Texts(s.messages)) + HistoryTokens(Texts(reading(taken).value)) > budget)
    && (s.latestUnfit <==> s.messages == [] && (why == NoMemory || why == OverBudget || (why == NoMore && now.limited)))
    && (s.omitted <==> now.omitted || why == NoMemory || why == OverBudget || SomeBlank(reading, taken))
  }

  class Assembly {
    const rows: seq<Row>
    const current: int
    const frozenBytes: nat
    const hasReader: bool
    ghost const start: nat
    ghost const earlier: bool
    ghost const history: seq<Item>
    var used: nat
    var before: Option<Key>
    var scanned: nat
    var scopeReserved: bool
    var done: bool
    var limited: bool
    var omitted: bool
    var items: seq<Item>
    /** How many rows were visited, whether the last of them was turned away unread, and how much payload was read. */
    ghost var place: nat
    ghost var turned: bool
    ghost var read: nat
    /** How many queries were paid for, and what loading exchanges allocated. */
    ghost var asked: nat
    ghost var loaded: nat

    ghost function Seen(): nat
      reads this
    {
      if turned && place > 0 then place - 1 else place
    }

    function Scope(): nat
      reads this
    {
      if scopeReserved then 0 else 128 + frozenBytes
    }

    /** The rows were visited newest first, each at most once, and the last one is remembered. */
    ghost predicate Visited()
      reads this
    {
      && Descending(rows) && place <= |rows| && before == (if place == 0 then None else Some(rows[place - 1].key))
      && (turned ==> place > 0 && done)
      && (!hasReader ==> done && place == 0)
    }

    /** Memory and payload are counted and stay within the allowance. */
    ghost predicate Counted()
      reads this
    {
      && used <= MATERIALIZATION && scanned <= MATERIALIZATION && read + Waiting(items) <= scanned
      && used == start + QUERY * asked + (if scopeReserved then 128 + frozenBytes else 0) + loaded
      && asked <= 2 * place + 1 && (!done ==> asked <= 2 * place)
      && forall k :: 0 <= k < |items| && items[k].row.Some? ==> items[k].row.value.payload >= 0
    }

    /** An allowance is too small for the next query or for the row that was turned away, or the next id is too long. */
    ghost predicate Exhausted()
      reads this
    {
      || used + QUERY > MATERIALIZATION
      || (!turned && place < |rows| && !rows[place].shortId)
      || (turned && 0 < place <= |rows| && var row := rows[place - 1];
          row.payload < 0 || scanned + row.payload > MATERIALIZATION || used + Scope() > MATERIALIZATION)
    }

    /** What is planned, and what is reported as omitted, is exactly what the visited rows say. */
    ghost predicate Told()
      reads this
    {
      && place <= |rows| && Plans(items, history, Candidates(rows, current, Seen()))
      && (omitted <==> earlier || limited || SomeOut(rows, current, Seen()))
      && (limited ==> done && Exhausted())
      && (done && !limited ==> !turned && (hasReader ==> place == |rows|))
    }

    ghost predicate Valid()
      reads this
    {
      Visited() && Counted() && Told()
    }

    constructor (rows: seq<Row>, current: int, frozenBytes: nat, used: nat, history: seq<Item>, earlier: bool, reader: bool)
      requires Descending(rows) && used <= MATERIALIZATION && forall k :: 0 <= k < |history| ==> history[k].row.None?
      ensures Valid() && this.rows == rows && this.current == current && this.frozenBytes == frozenBytes && hasReader == reader
      ensures this.history == history && this.earlier == earlier && start == used
      ensures this.used == used && items == history && place == 0 && read == 0 && scanned == 0 && loaded == 0 && asked == 0
      ensures omitted == earlier && done == !reader && !limited && !scopeReserved && !turned
    {
      this.rows, this.current, this.frozenBytes, this.used := rows, current, frozenBytes, used;
      this.hasReader, this.start, this.earlier, this.history := reader, used, earlier, history;
      before, scanned, scopeReserved, done, limited, omitted := None, 0, false, !reader, false, earlier;
      items := history;
      place, turned, read, asked, loaded := 0, false, 0, 0, 0;
      new;
      NothingWaits(history);
    }

    predicate Allows(bytes: nat)
      reads this
    {
      used <= MATERIALIZATION && bytes <= MATERIALIZATION - used
    }

    /** The first row below the last one that was visited. */
    method Find() returns (at: nat)
      requires Visited()
      ensures at == place
    {
      at := 0;
      while at < |rows| && before.Some? && !Below(rows[at].key, before.value)
        invariant at <= place
      {
        at := at + 1;
      }
    }

    /** The next step of the reader is refused: by memory, by an id that is too long, or by what its row would take. */
    ghost predicate Refuses()
      reads this
    {
      || used + QUERY > MATERIALIZATION
      || (place < |rows| && !rows[place].shortId)
      || (place < |rows| && rows[place].key.id != current && Overruns(rows[place], used + QUERY, scanned, Scope()))
    }

    /**
     * One step of the reader. It ends when it has ended before or no older row is left, is limited exactly when
     * something refuses it, and otherwise visits the next older row and says what that row is.
     */
    method Next() returns (step: Step)
      requires Visited() && Counted()
      modifies this`used, this`before, this`scanned, this`scopeReserved, this`done, this`place, this`turned, this`read, this`asked
      ensures Visited() && Seen() >= old(Seen()) && place >= old(place) && used >= old(used)
      ensures used <= MATERIALIZATION && scanned <= MATERIALIZATION && asked <= 2 * place + 1 && (!done ==> asked <= 2 * place)
      ensures used == start + QUERY * asked + (if scopeReserved then 128 + frozenBytes else 0) + loaded
      ensures read + Waiting(items) + (if step.Candidate? then step.row.payload else 0) <= scanned
      ensures step.Candidate? ==> step.row.payload >= 0
      ensures step == Limited <==> !old(done) && old(Refuses())
      ensures step == End <==> old(done) || (!old(Refuses()) && old(place) == |rows|)
      ensures done <==> step == End || step == Limited
      ensures old(done) ==> used == old(used) && scanned == old(scanned)
      ensures step == End ==> place == old(place) && turned == old(turned)
      ensures step == Limited ==> Exhausted() && Seen() == old(place)
      ensures !done ==> place == old(place) + 1 && step == Fate(rows[old(place)], current) && !turned
    {
      hide Waiting, Below, Descending, Overruns, FateCost;
      if done { return End; }
      if !Allows(QUERY) { done := true; return Limited; }
      used, asked := used + QUERY, asked + 1;
      var at := Find();
      if at == |rows| { done := true; return End; }
      var row := rows[at];
      if !row.shortId { done := true; return Limited; }
      before := Some(row.key);
      place := place + 1;
      if row.key.id == current { return Ignored; }
      step := Inspect(row);
    }

    /** Reads the metadata of a visited row, unless an allowance is too small for it, and says what it is. */
    method Inspect(row: Row) returns (step: Step)
      requires used <= MATERIALIZATION && read + Waiting(items) <= scanned <= MATERIALIZATION && !done && row.key.id != current
      modifies this`used, this`scanned, this`scopeReserved, this`done, this`read, this`turned, this`asked
      ensures step == Limited <==> Overruns(row, old(used), old(scanned), old(Scope()))
      ensures done <==> step == Limited
      ensures step != Limited ==>
                && step == Fate(row, current) && row.payload >= 0 && scopeReserved && turned == old(turned)
                && used == old(used) + old(Scope()) + QUERY && asked == old(asked) + 1
                && scanned == old(scanned) + FateCost(row) && read == old(read) + row.payload
      ensures step == Limited ==>
                && turned && old(asked) <= asked <= old(asked) + 1 && old(scanned) <= scanned && read >= old(read)
                && used == old(used) + QUERY * (asked - old(asked)) + (if scopeReserved then old(Scope()) else 0)
                && (old(scopeReserved) ==> scopeReserved)
                && (row.payload < 0 || scanned + row.payload > MATERIALIZATION || used + Scope() > MATERIALIZATION || used + QUERY > MATERIALIZATION)
      ensures used <= MATERIALIZATION && scanned <= MATERIALIZATION
      ensures read + Waiting(items) + (if step.Candidate? then row.payload else 0) <= scanned
    {
      hide Waiting;
      var paid := Pay(row);
      if !paid { done, turned := true, true; return Limited; }
      if !row.kept { return Unavailable; }
      if !row.eligible { return Ignored; }
      if !row.inScope { return Omitted; }
      if row.payload > MATERIALIZATION - scanned { done, turned := true, true; return Limited; }
      scanned := scanned + row.payload;
      step := Candidate(row);
    }

    /** Pays for the scope, once, and for the metadata of a row; false when an allowance is too small. */
    method Pay(row: Row) returns (paid: bool)
      requires used <= MATERIALIZATION && scanned <= MATERIALIZATION
      modifies this`used, this`scanned, this`scopeReserved, this`read, this`asked
      ensures paid <==> 0 <= row.payload <= MATERIALIZATION - old(scanned) && old(used) + old(Scope()) + QUERY <= MATERIALIZATION
      ensures used <= MATERIALIZATION && used == old(used) + (if scopeReserved then old(Scope()) else 0) + if paid then QUERY else 0
      ensures old(scopeReserved) || paid ==> scopeReserved
      ensures asked == old(asked) + if paid then 1 else 0
      ensures paid ==> scanned == old(scanned) + row.payload && read == old(read) + row.payload
      ensures !paid ==> scanned == old(scanned) && read == old(read)
      ensures !paid ==> row.payload < 0 || scanned + row.payload > MATERIALIZATION || used + Scope() > MATERIALIZATION || used + QUERY > MATERIALIZATION
    {
      if row.payload < 0 || row.payload > MATERIALIZATION - scanned { return false; }
      if !scopeReserved {
        if !Allows(128 + frozenBytes) { return false; }
        used := used + 128 + frozenBytes;
        scopeReserved := true;
      }
      if !Allows(QUERY) { return false; }
      used, asked := used + QUERY, asked + 1;
      scanned := scanned + row.payload;
      read := read + row.payload;
      paid := true;
    }

    /** The exchange at an index, read on demand and no further; it fails exactly at a row that broke. */
    method At(index: nat) returns (found: bool, failed: bool)
      requires Valid() && index <= |items|
      modifies this`used, this`before, this`scanned, this`scopeReserved, this`done, this`place, this`turned, this`read, this`asked,
               this`items, this`omitted, this`limited
      ensures Valid() && used >= old(used) && place >= old(place) && Seen() >= old(Seen())
      ensures |items| >= |old(items)| && items[..|old(items)|] == old(items) && |items| <= (if index < |old(items)| then |old(items)| else index + 1)
      ensures !failed ==> (found <==> index < |items|) && (found || done)
      ensures failed <==> SomeBroke(rows, current, old(Seen()), Seen())
      ensures failed ==> 0 < place <= |rows| && !turned && Broke(rows[place - 1], current) && !SomeBroke(rows, current, old(Seen()), place - 1)
      ensures (place == old(place) ==> items == old(items)) && (old(done) ==> done && items == old(items) && place == old(place))
      ensures index < |old(items)| ==> place == old(place) && used == old(used) && items == old(items)
      ensures (old(omitted) ==> omitted) && (old(done) ==> limited == old(limited))
    {
      hide Visited, Counted, Told, SomeBroke, Broke;
      failed := false;
      NoneBroke(Seen());
      while index >= |items| && !done
        invariant Valid() && used >= old(used) && place >= old(place) && index <= |items| && Seen() >= old(Seen())
        invariant |items| >= |old(items)| && items[..|old(items)|] == old(items) && (old(omitted) ==> omitted)
        invariant |items| <= (if index < |old(items)| then |old(items)| else index + 1)
        invariant !SomeBroke(rows, current, old(Seen()), Seen())
        invariant (place == old(place) ==> items == old(items)) && (old(done) ==> done && items == old(items) && place == old(place))
        invariant index < |old(items)| ==> place == old(place) && used == old(used) && items == old(items)
        invariant old(done) ==> limited == old(limited)
        invariant place <= |rows| || place == old(place)
        decreases |rows| - place, !done
      {
        ghost var seen := Seen();
        failed := Visit();
        BrokeOn(rows, current, old(Seen()), seen, Seen());
        if failed { return false, true; }
      }
      found := index < |items|;
    }

    /** One more row is visited, unless there is none or it is refused, and what it says is planned. */
    method Visit() returns (failed: bool)
      requires Valid() && !done
      modifies this`used, this`before, this`scanned, this`scopeReserved, this`done, this`place, this`turned, this`read, this`asked,
               this`items, this`omitted, this`limited
      ensures Valid() && used >= old(used) && place >= old(place) && place <= |rows| && Seen() >= old(Seen()) && (old(omitted) ==> omitted)
      ensures place > old(place) || done
      ensures |items| >= |old(items)| && items[..|old(items)|] == old(items) && |items| <= |old(items)| + 1
      ensures place == old(place) ==> items == old(items)
      ensures failed <==> SomeBroke(rows, current, old(Seen()), Seen())
      ensures failed ==> place == old(place) + 1 && place <= |rows| && !turned && Broke(rows[place - 1], current) && old(Seen()) == place - 1
      ensures failed ==> items == old(items)
    {
      hide Waiting, Descending, Below, Plans, SomeOut, SomeBroke, Candidates, Broke, OutOfScope, IsCandidate, Fate, Overruns;
      ghost var from := Seen();
      failed := false;
      NoneBroke(from);
      var step := Next();
      if !done { OneRow(rows, current, items, history, from, from); }
      match step {
        case Candidate(row) =>
          WaitingPush(items, Item(Some(row), false, row.rawLength));
          items := items + [Item(Some(row), false, row.rawLength)];
        case Omitted => omitted := true;
        case Limited => limited, omitted := true, true;
        case Unavailable => failed := true;
        case _ =>
      }
    }

    lemma {:induction false} NoneBroke(n: nat)
      ensures !SomeBroke(rows, current, n, n)
    {
    }

    /** Loads a planned exchange once; its memory was found to be there. */
    method Load(index: nat)
      requires Valid() && index < |items| && Allows(LoadCost(items[index]))
      modifies this`used, this`items, this`read, this`loaded
      ensures Valid() && used == old(used) + LoadCost(old(items)[index]) && loaded == old(loaded) + LoadCost(old(items)[index])
      ensures |items| == |old(items)| && items[index] == old(items)[index].(loaded := true)
      ensures forall k :: 0 <= k < |items| && k != index ==> items[k] == old(items[k])
    {
      hide Waiting, Descending, SomeOut, Candidates, Overruns;
      var item := items[index];
      used, loaded := used + LoadCost(item), loaded + LoadCost(item);
      WaitingLoad(items, index);
      if item.row.Some? && !item.loaded { read := read + item.row.value.payload; }
      items := items[index := item.(loaded := true)];
    }

    /** Plans and loads the exchange at an index and sets memory aside for it, or says why not. */
    method Fetch(index: nat) returns (stop: Option<Stop>)
      requires Valid() && index <= |items|
      modifies this
      ensures Valid() && used >= old(used) && place >= old(place) && Seen() >= old(Seen()) && place <= |rows| && (old(omitted) ==> omitted)
      ensures index <= |items| && SameRows(old(items), items) && |items| <= (if index < |old(items)| then |old(items)| else index + 1)
      ensures (place == old(place) ==> |items| == |old(items)|) && (old(done) ==> done && limited == old(limited))
      ensures stop.None? ==> index < |items|
      ensures stop == Some(NoMore) ==> index == |items| && done
      ensures stop == Some(NoMemory) ==> index < |items| && NoRoom(items[index], used)
      ensures stop == Some(Broken) <==> SomeBroke(rows, current, old(Seen()), Seen())
      ensures stop != Some(OverBudget)
      ensures loaded <= old(loaded) + if index < |items| then ItemCost(items[index]) else 0
    {
      hide Visited, Counted, Told, SomeBroke;
      var found, failed := At(index);
      PlaceIsRow();
      if failed { return Some(Broken); }
      if !found { return Some(NoMore); }
      if LoadCost(items[index]) > MATERIALIZATION - used { return Some(NoMemory); }
      Load(index);
      if 4 * items[index].rawLength > MATERIALIZATION - used { return Some(NoMemory); }
      SetAside(4 * items[index].rawLength);
      stop := None;
    }

    method SetAside(bytes: nat)
      requires Valid() && Allows(bytes)
      modifies this`used, this`loaded
      ensures Valid() && used == old(used) + bytes && loaded == old(loaded) + bytes
    {
      hide Waiting, Descending, SomeOut, Candidates, Plans;
      used, loaded := used + bytes, loaded + bytes;
    }

    /**
     * Exchanges are taken newest first, as many as there are, as the budget holds and as memory allows; what
     * does not fit is dropped, and no memory error is raised. `reading` is an exchange as normalized for these
     * sources; `taken` counts the exchanges that were considered, and `why` says what stopped the next one. It
     * fails exactly at a row that broke, and something is omitted exactly for one of the reasons that are given.
     */
    method SelectHistory(budget: int, reading: nat -> Option<seq<Turn>>) returns (s: Selected, failed: bool, ghost taken: nat, ghost why: Stop)
      requires Valid() && Readings(reading)
      modifies this
      ensures Valid() && used >= old(used) && place >= old(place) && Seen() >= old(Seen()) && place <= |rows|
      ensures Selects(budget, reading, s, taken, why, Stands())
      ensures failed <==> why == Broken
      ensures failed <==> SomeBroke(rows, current, old(Seen()), Seen())
      ensures SameRows(old(items), items) && (old(done) ==> done && limited == old(limited))
      ensures |items| <= (if taken < |old(items)| then |old(items)| else taken + 1)
      ensures loaded <= old(loaded) + Costs(items, if taken < |items| then taken + 1 else taken)
    {
      hide Visited, Counted, Told, Whole, HistoryTokens, Texts, Kept, Readings, LoadCost, SomeBroke, SomeBlank, NoRoom, SameRows, Costs, ItemCost;
      var picked: seq<Turn> := [];
      var spent, index := 0, 0;
      var skipped := omitted;
      var stop: Option<Stop> := None;
      StartKept(reading);
      StartCosts(items, reading);
      RowsStart(items);
      NoneBroke(Seen());
      PlaceIsRow();
      while stop.None?
        invariant Valid() && used >= old(used) && place >= old(place) && place <= |rows| && Seen() >= old(Seen())
        invariant index <= |items| && picked == Kept(reading, index) && Whole(Texts(picked)) && spent == HistoryTokens(Texts(picked))
        invariant picked != [] ==> spent <= budget
        invariant skipped <==> omitted || SomeBlank(reading, index)
        invariant |items| <= (if index < |old(items)| then |old(items)| else if stop.None? then index else index + 1)
        invariant SameRows(old(items), items) && (old(done) ==> done && limited == old(limited))
        invariant loaded <= old(loaded) + Costs(items, if stop.Some? && index < |items| then index + 1 else index)
        invariant SomeBroke(rows, current, old(Seen()), Seen()) <==> stop == Some(Broken)
        invariant stop == Some(NoMore) ==> index == |items| && done
        invariant stop == Some(NoMemory) ==> index < |items| && NoRoom(items[index], used)
        invariant stop == Some(OverBudget) ==>
                    index < |items| && reading(index).Some? && spent + HistoryTokens(Texts(reading(index).value)) > budget
        decreases |rows| - place, !done, |items| - index, stop.None?
      {
        ghost var before, seen := items, Seen();
        stop := Fetch(index);
        BrokeOn(rows, current, old(Seen()), seen, Seen());
        RowsKept(before, items);
        RowsOn(old(items), before, items);
        CostsSame(before, items, index);
        if index < |items| { OneCost(items, index); }
        skipped := skipped || omitted;
        if stop.None? {
          var messages := reading(index);
          NextKept(reading, index);
          NextBlank(reading, index);
          if messages.None? {
            skipped, index := true, index + 1;
          } else {
            var tokens := CountTokens(messages.value);
            if spent + tokens > budget {
              stop := Some(OverBudget);
            } else {
              KeptGrows(messages.value, picked, reading, index);
              picked, spent, index := messages.value + picked, spent + tokens, index + 1;
            }
          }
        }
      }
      why, taken, failed := stop.value, index, stop == Some(Broken);
      var unfit := stop == Some(NoMemory) || stop == Some(OverBudget);
      s := Selected(picked, skipped || unfit, picked == [] && (unfit || (stop == Some(NoMore) && limited)));
    }

    function Stands(): Standing
      reads this
    {
      Standing(items, used, done, limited, omitted)
    }

    lemma {:induction false} PlaceIsRow()
      requires Valid()
      ensures place <= |rows|
    {
    }
  }

  // ---------------------------------------------------------------- visited rows

  lemma {:induction false} OneRow(rows: seq<Row>, current: int, items: seq<Item>, history: seq<Item>, from: nat, n: nat)
    requires from <= n < |rows| && Plans(items, history, Candidates(rows, current, n))
    ensures var step, row := Fate(rows[n], current), rows[n];
            && (SomeOut(rows, current, n + 1) <==> SomeOut(rows, current, n) || step == Omitted)
            && (SomeBroke(rows, current, from, n + 1) <==> SomeBroke(rows, current, from, n) || step == Unavailable)
            && (step.Candidate? ==> step.row == row && Plans(items + [Item(Some(row), false, row.rawLength)], history, Candidates(rows, current, n + 1)))
            && (!step.Candidate? ==> Plans(items, history, Candidates(rows, current, n + 1)))
            && (step == Unavailable <==> Broke(row, current))
  {
    OutOn(rows, current, n);
    BrokeNext(rows, current, from, n);
  }

  lemma {:induction false} OutOn(rows: seq<Row>, current: int, n: nat)
    requires n < |rows|
    ensures SomeOut(rows, current, n + 1) <==> SomeOut(rows, current, n) || OutOfScope(rows[n], current)
  {
    hide OutOfScope;
  }

  lemma {:induction false} BrokeNext(rows: seq<Row>, current: int, from: nat, n: nat)
    requires from <= n < |rows|
    ensures SomeBroke(rows, current, from, n + 1) <==> SomeBroke(rows, current, from, n) || Broke(rows[n], current)
  {
    hide Broke;
  }

  lemma {:induction false} BrokeOn(rows: seq<Row>, current: int, from: nat, mid: nat, to: nat)
    requires from <= mid <= to
    ensures SomeBroke(rows, current, from, to) <==> SomeBroke(rows, current, from, mid) || SomeBroke(rows, current, mid, to)
  {
    hide Broke;
  }

  /** The same exchanges, some of them loaded meanwhile, and perhaps more. */
  ghost predicate SameRows(a: seq<Item>, b: seq<Item>) {
    |a| <= |b| && forall k :: 0 <= k < |a| ==> b[k].row == a[k].row && b[k].rawLength == a[k].rawLength
  }

  lemma {:induction false} RowsStart(a: seq<Item>)
    ensures SameRows(a, a)
  {
  }

  lemma {:induction false} RowsOn(a: seq<Item>, b: seq<Item>, c: seq<Item>)
    requires SameRows(a, b) && SameRows(b, c)
    ensures SameRows(a, c)
  {
  }

  lemma {:induction false} RowsKept(a: seq<Item>, b: seq<Item>)
    requires SameRows(a, b)
    ensures |a| <= |b|
  {
  }

  /** There is no memory to load it, or it is loaded and there is none to normalize it. */
  predicate NoRoom(item: Item, used: nat) {
    used + LoadCost(item) > MATERIALIZATION || (LoadCost(item) == 0 && used + 4 * item.rawLength > MATERIALIZATION)
  }

  function ItemCost(item: Item): nat { 4 * item.rawLength + if item.row.Some? then item.row.value.bytes else 0 }

  /** What considering the first `n` exchanges may allocate. */
  function Costs(items: seq<Item>, n: nat): nat
    requires n <= |items|
  {
    if n == 0 then 0 else Costs(items, n - 1) + ItemCost(items[n - 1])
  }

  lemma {:induction false} OneCost(items: seq<Item>, n: nat)
    requires n < |items|
    ensures Costs(items, n + 1) == Costs(items, n) + ItemCost(items[n])
  {
  }

  lemma {:induction false} CostsSame(a: seq<Item>, b: seq<Item>, n: nat)
    requires SameRows(a, b) && n <= |a|
    ensures n <= |b| && Costs(a, n) == Costs(b, n)
  {
    if n > 0 { CostsSame(a, b, n - 1); }
  }

  /** One of the first `n` exchanges has a blank side and drops out. */
  ghost predicate SomeBlank(reading: nat -> Option<seq<Turn>>, n: nat) { exists k: nat :: k < n && reading(k).None? }

  lemma {:induction false} NextBlank(reading: nat -> Option<seq<Turn>>, n: nat)
    ensures SomeBlank(reading, n + 1) <==> SomeBlank(reading, n) || reading(n).None?
  {
  }

  lemma {:induction false} StartCosts(items: seq<Item>, reading: nat -> Option<seq<Turn>>)
    ensures Costs(items, 0) == 0 && !SomeBlank(reading, 0)
  {
  }

  /** A normalized exchange: a user message, alone or with its answer; nothing when a side of it is blank. */
  ghost predicate Readings(reading: nat -> Option<seq<Turn>>) {
    forall k :: reading(k).Some? ==> reading(k).value != [] && Whole(Texts(reading(k).value))
  }

  /** The first `n` exchanges, newest last; blank ones drop out. */
  function Kept(reading: nat -> Option<seq<Turn>>, n: nat): seq<Turn> {
    if n == 0 then []
    else (if reading(n - 1).Some? then reading(n - 1).value else []) + Kept(reading, n - 1)
  }

  lemma {:induction false} StartKept(reading: nat -> Option<seq<Turn>>)
    ensures Kept(reading, 0) == [] && Whole(Texts([])) && HistoryTokens(Texts([])) == 0
  {
    assert Texts([]) == [];
  }

  lemma {:induction false} NextKept(reading: nat -> Option<seq<Turn>>, index: nat)
    requires Readings(reading)
    ensures Kept(reading, index + 1) == (if reading(index).Some? then reading(index).value else []) + Kept(reading, index)
    ensures reading(index).None? ==> Kept(reading, index + 1) == Kept(reading, index)
    ensures reading(index).Some? ==> reading(index).value != [] && Whole(Texts(reading(index).value))
  {
    hide Whole;
    if reading(index).None? { assert [] + Kept(reading, index) == Kept(reading, index); }
  }

  lemma {:induction false} WholeUser(a: seq<Message>, u: Message)
    requires Whole(a) && u.role == User
    ensures Whole(a + [u])
  {
    assert (a + [u])[..|a|] == a;
  }

  lemma {:induction false} WholePair(a: seq<Message>, u: Message, m: Message)
    requires Whole(a) && u.role == User && m.role == Assistant
    ensures Whole(a + [u, m])
  {
    assert (a + [u, m])[..|a|] == a;
  }

  predicate EndsAlone(b: seq<Message>) { b != [] && b[|b| - 1].role == User && Whole(b[..|b| - 1]) }

  predicate EndsInPair(b: seq<Message>) {
    |b| >= 2 && b[|b| - 1].role == Assistant && b[|b| - 2].role == User && Whole(b[..|b| - 2])
  }

  lemma {:induction false} WholeEnds(b: seq<Message>)
    requires Whole(b)
    ensures b == [] || EndsAlone(b) || EndsInPair(b)
  {
  }

  lemma {:induction false} WholeConcat(a: seq<Message>, b: seq<Message>)
    requires Whole(a) && Whole(b)
    ensures Whole(a + b)
    decreases |b|
  {
    hide Whole;
    var n := |b|;
    WholeEnds(b);
    if b == [] {
      assert a + b == a;
    } else if EndsAlone(b) {
      WholeConcat(a, b[..n - 1]);
      WholeUser(a + b[..n - 1], b[n - 1]);
      assert a + b == a + b[..n - 1] + [b[n - 1]];
    } else {
      WholeConcat(a, b[..n - 2]);
      WholePair(a + b[..n - 2], b[n - 2], b[n - 1]);
      assert a + b == a + b[..n - 2] + [b[n - 2], b[n - 1]];
    }
  }

  lemma {:induction false} KeptGrows(messages: seq<Turn>, picked: seq<Turn>, reading: nat -> Option<seq<Turn>>, index: nat)
    requires Whole(Texts(messages)) && Whole(Texts(picked))
    ensures Whole(Texts(messages + picked)) && HistoryTokens(Texts(messages + picked)) == HistoryTokens(Texts(messages)) + HistoryTokens(Texts(picked))
  {
    hide Whole, HistoryTokens;
    assert Texts(messages + picked) == Texts(messages) + Texts(picked);
    WholeConcat(Texts(messages), Texts(picked));
    TokensConcat(Texts(messages), Texts(picked));
  }

  /** What loading an item may still allocate. */
  function LoadCost(item: Item): nat { if item.row.Some? && !item.loaded then item.row.value.bytes else 0 }

  lemma {:induction false} NothingWaits(items: seq<Item>)
    requires forall k :: 0 <= k < |items| ==> items[k].row.None?
    ensures Waiting(items) == 0
  {
    if items != [] { NothingWaits(items[..|items| - 1]); }
  }

  lemma {:induction false} WaitingPush(items: seq<Item>, item: Item)
    ensures Waiting(items + [item]) ==
            Waiting(items) + if item.row.Some? && !item.loaded && item.row.value.payload >= 0 then item.row.value.payload else 0
  {
    assert (items + [item])[..|items|] == items;
  }

  lemma {:induction false} WaitingLoad(items: seq<Item>, index: nat)
    requires index < |items|
    ensures var item := items[index];
            Waiting(items) == Waiting(items[index := item.(loaded := true)])
              + if item.row.Some? && !item.loaded && item.row.value.payload >= 0 then item.row.value.payload else 0
    decreases |items|
  {
    var next := items[index := items[index].(loaded := true)];
    var n := |items| - 1;
    if index == n {
      assert next[..n] == items[..n];
    } else {
      WaitingLoad(items[..n], index);
      assert next[..n] == items[..n][index := items[index].(loaded := true)];
    }
  }
}
