/** When a position was opened: the first execution since nothing was held, in the order in which the executions are
    taken, and what a rebuild makes of it (engine/application/position_service.py). */
module Opening {
  import opened Common
  import opened PositionModel
  import opened PositionLaws
  import opened Ledger
  import opened LedgerLaws

  /** How many executions lie before the position that is held at the end; all of them when nothing is. */
  function LastFlat(symbol: Symbol, fs: seq<Fill>): (k: nat)
    ensures k <= |fs|
    decreases |fs|
  {
    if fs == [] || ApplyAll(EmptyPosition(symbol), fs).qty <= 0.0 then |fs| else LastFlat(symbol, fs[..|fs| - 1])
  }

  function OpenedAt(symbol: Symbol, fs: seq<Fill>): Option<int> {
    if LastFlat(symbol, fs) == |fs| then None else Some(fs[LastFlat(symbol, fs)].time)
  }

  /** No sale delivers less than nothing. */
  ghost predicate SalesDeliver(fs: seq<Fill>) {
    forall f | f in fs :: f.side == Sell ==> Delivered(f) >= 0.0
  }

  lemma OpeningStep(p: PositionRow, f: Fill)
    requires p.qty >= 0.0 && (f.side == Sell ==> Delivered(f) >= 0.0)
    ensures Apply(p, f).qty > 0.0 && p.qty > 0.0 ==> Apply(p, f).openedAt == p.openedAt
    ensures Apply(p, f).qty > 0.0 && p.qty == 0.0 ==> f.side == Buy && Received(f) > 0.0 && Apply(p, f).openedAt == Some(f.time)
    ensures Apply(p, f).qty == 0.0 && (p.qty == 0.0 ==> p.openedAt.None?) ==> Apply(p, f).openedAt.None?
  {
  }

  /** Whatever the history, the opening time of a position is the time of the first execution since nothing was
      held, which is a BUY that received something. */
  lemma {:induction false} OpenedByFirst(symbol: Symbol, fs: seq<Fill>)
    requires SalesDeliver(fs)
    ensures ApplyAll(EmptyPosition(symbol), fs).openedAt == OpenedAt(symbol, fs)
    ensures var k := LastFlat(symbol, fs);
            && (k == |fs| <==> ApplyAll(EmptyPosition(symbol), fs).qty == 0.0)
            && ApplyAll(EmptyPosition(symbol), fs[..k]).qty == 0.0
            && (k < |fs| ==> fs[k].side == Buy && Received(fs[k]) > 0.0)
    decreases |fs|
  {
    if fs != [] {
      var rest, f := fs[..|fs| - 1], fs[|fs| - 1];
      assert f in fs && forall g | g in rest :: g in fs;
      OpenedByFirst(symbol, rest);
      OpeningStep(ApplyAll(EmptyPosition(symbol), rest), f);
      var k := LastFlat(symbol, fs);
      if k == |fs| {
        assert fs[..k] == fs;
      } else {
        assert k == LastFlat(symbol, rest) && fs[..k] == rest[..k];
      }
    }
  }

  // ------------------------------------------------------------------ what does not depend on marks

  lemma {:induction false} MarkMovesNothing(p: PositionRow, q: PositionRow, fs: seq<Fill>)
    requires p.qty >= 0.0 && q.qty == p.qty && q.openedAt == p.openedAt
    ensures ApplyAll(q, fs).qty == ApplyAll(p, fs).qty && ApplyAll(q, fs).openedAt == ApplyAll(p, fs).openedAt
    decreases |fs|
  {
    if fs != [] {
      MarkMovesNothing(p, q, fs[..|fs| - 1]);
    }
  }

  /** The executions of an instrument in order of execution. */
  function Executed(db: Db, symbol: Symbol): seq<Fill> {
    ByTime(FillsOf(db.fills, symbol))
  }

  /** What a rebuild makes of quantity and opening time. */
  lemma RebuildOpens(db: Db, symbol: Symbol)
    requires WellFormed(db) && SalesDeliver(FillsOf(db.fills, symbol))
    ensures var p := PositionOf(PositionRebuilt(db, symbol), symbol);
            && p.qty == ApplyAll(EmptyPosition(symbol), Executed(db, symbol)).qty
            && p.openedAt == OpenedAt(symbol, Executed(db, symbol))
  {
    var existing := PositionOf(db, symbol);
    MarkMovesNothing(EmptyPosition(symbol), EmptyPosition(symbol).(lastMark := existing.lastMark), Executed(db, symbol));
    SameSales(FillsOf(db.fills, symbol));
    OpenedByFirst(symbol, Executed(db, symbol));
  }

  lemma SameSales(fs: seq<Fill>)
    requires SalesDeliver(fs)
    ensures SalesDeliver(ByTime(fs))
  {
    ByTimeKeepsFills(fs);
    forall f | f in ByTime(fs)
      ensures f in fs
    {
      assert f in multiset(ByTime(fs));
    }
  }

  // ------------------------------------------------------------------ the exact condition

  /** The position as the fills were recorded one by one, before any rebuild. */
  ghost predicate KeptAsRecorded(db: Db, symbol: Symbol) {
    var p, q := PositionOf(db, symbol), ApplyAll(EmptyPosition(symbol), FillsOf(db.fills, symbol));
    p.qty == q.qty && p.openedAt == q.openedAt
  }

  lemma FillKeepsAsRecorded(db: Db, f: Fill)
    requires WellFormed(db) && KeptAsRecorded(db, f.symbol)
    ensures KeptAsRecorded(FillRecorded(db, f), f.symbol)
  {
    FillsOfAppend(db.fills, f, f.symbol);
    var fs := FillsOf(db.fills, f.symbol);
    assert (fs + [f])[..|fs + [f]| - 1] == fs;
    MarkMovesNothing(PositionOf(db, f.symbol), ApplyAll(EmptyPosition(f.symbol), fs), [f]);
    OneFill(PositionOf(db, f.symbol), f);
    OneFill(ApplyAll(EmptyPosition(f.symbol), fs), f);
  }

  lemma OneFill(p: PositionRow, f: Fill)
    requires p.qty >= 0.0
    ensures ApplyAll(p, [f]) == Apply(p, f)
  {
    assert [f][..0] == [];
  }

  /** A rebuild keeps the opening time exactly when the first recorded and the first executed fill since nothing was
      held have the same time, or nothing is held either way. */
  lemma RebuildKeepsOpeningExactly(db: Db, symbol: Symbol)
    requires WellFormed(db) && KeptAsRecorded(db, symbol) && SalesDeliver(FillsOf(db.fills, symbol))
    ensures var recorded, executed := FillsOf(db.fills, symbol), Executed(db, symbol);
            var j, k := LastFlat(symbol, recorded), LastFlat(symbol, executed);
            PositionOf(PositionRebuilt(db, symbol), symbol).openedAt == PositionOf(db, symbol).openedAt
            <==> if j < |recorded| then k < |executed| && recorded[j].time == executed[k].time else k == |executed|
  {
    RebuildOpens(db, symbol);
    OpenedByFirst(symbol, FillsOf(db.fills, symbol));
  }

  /** Where both orders agree on which executions belong to the position that is held, that is: exactly when the
      first of them to be recorded is also the earliest. */
  lemma EarliestOpensExactly(db: Db, symbol: Symbol, k: nat)
    requires WellFormed(db) && KeptAsRecorded(db, symbol) && SalesDeliver(FillsOf(db.fills, symbol))
    requires k == LastFlat(symbol, FillsOf(db.fills, symbol)) == LastFlat(symbol, Executed(db, symbol))
    requires k < |FillsOf(db.fills, symbol)| && k < |Executed(db, symbol)|
    requires multiset(FillsOf(db.fills, symbol)[k..]) == multiset(Executed(db, symbol)[k..])
    ensures PositionOf(PositionRebuilt(db, symbol), symbol).openedAt == PositionOf(db, symbol).openedAt
       <==> forall f | f in FillsOf(db.fills, symbol)[k..] :: FillsOf(db.fills, symbol)[k].time <= f.time
  {
    var a, e := FillsOf(db.fills, symbol), Executed(db, symbol);
    RebuildKeepsOpeningExactly(db, symbol);
    ByTimeIsSorted(a);
    assert a[k] in a[k..] && a[k] in multiset(a[k..]) && a[k] in e[k..];
    assert e[k] in e[k..] && e[k] in multiset(e[k..]) && e[k] in a[k..];
    forall f | f in a[k..]
      ensures e[k].time <= f.time
    {
      assert f in multiset(a[k..]) && f in e[k..];
    }
  }

  /** It is not always so: two executions of one entry, recorded the other way round. */
  lemma OpeningMoves(symbol: Symbol)
    ensures var first, second := Unit(Buy, 1.0, symbol).(time := 1), Unit(Buy, 1.0, symbol).(time := 2);
            && ApplyAll(EmptyPosition(symbol), [second] + [first]).openedAt == Some(2)
            && ByTime([second] + [first]) == [first, second]
            && ApplyAll(EmptyPosition(symbol), ByTime([second] + [first])).openedAt == Some(1)
            && ApplyAll(EmptyPosition(symbol), [second] + [first]).qty == ApplyAll(EmptyPosition(symbol), [first, second]).qty == 2.0
  {
    var first, second := Unit(Buy, 1.0, symbol).(time := 1), Unit(Buy, 1.0, symbol).(time := 2);
    SortsTwo(first, second);
    assert [first] + [second] == [first, second];
    TwoBuys(symbol, second, first);
    TwoBuys(symbol, first, second);
  }

  lemma SortsTwo(first: Fill, second: Fill)
    requires first.time < second.time
    ensures ByTime([second] + [first]) == [first, second]
  {
    var fs := [second] + [first];
    assert fs[..1] == [second] && [second][..0] == [];
    assert ByTime([second]) == InsertByTime([], second) == [second];
    assert InsertByTime([second], first) == InsertByTime([], first) + [second];
  }

  lemma TwoBuys(symbol: Symbol, f: Fill, g: Fill)
    requires f.side == Buy && g.side == Buy && Received(f) > 0.0 && Received(g) > 0.0
    ensures var p := ApplyAll(EmptyPosition(symbol), [f] + [g]);
            p.qty == Received(f) + Received(g) && p.openedAt == Some(f.time)
  {
    assert ([f] + [g])[..1] == [f];
    OneFill(EmptyPosition(symbol), f);
  }
}
