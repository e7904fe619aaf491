/** Figures derived from the decision log: who held connectivity when, and what was decided. */
module Analysis {
  import opened Shared

  /** `at` is the parsed timestamp, absent when it does not parse. */
  datatype Entry = Entry(
    run: string,
    operation: string,
    at: Option<int>,
    step: DecisionStep,
    criticality: Option<Criticality>,
    congestion: Option<CongestionLevel>,
    action: Option<NetworkAction>)

  datatype HoldSample = HoldSample(at: int, held: nat)

  // ── Concurrency over time ───────────────────────────────────────────

  predicate IsHoldEvent(r: Entry) { r.at.Some? && (r.step == ALLOCATED || r.step == RELEASED) }

  /** The last allocation or release of a run, so far. */
  function LatestEvent(rs: seq<Entry>, run: string): Option<DecisionStep> {
    if rs == [] then None
    else
      var r := rs[|rs| - 1];
      if IsHoldEvent(r) && r.run == run then Some(r.step) else LatestEvent(rs[..|rs| - 1], run)
  }

  /** The definition: the runs whose latest event is an allocation. */
  ghost function Holders(rs: seq<Entry>): set<string> {
    set k | 0 <= k < |rs| && LatestEvent(rs, rs[k].run) == Some(ALLOCATED) :: rs[k].run
  }

  lemma {:induction false} LatestNeedsARecord(rs: seq<Entry>, run: string)
    ensures LatestEvent(rs, run).Some? ==> exists k :: 0 <= k < |rs| && rs[k].run == run
  {
    if rs != [] {
      LatestNeedsARecord(rs[..|rs| - 1], run);
      if LatestEvent(rs[..|rs| - 1], run).Some? {
        var k :| 0 <= k < |rs| - 1 && rs[..|rs| - 1][k].run == run;
        assert rs[k].run == run;
      }
    }
  }

  lemma HoldersAre(rs: seq<Entry>, run: string)
    ensures run in Holders(rs) <==> LatestEvent(rs, run) == Some(ALLOCATED)
  {
    LatestNeedsARecord(rs, run);
  }

  /** One more record moves at most its own run in or out. */
  lemma HoldersOneMore(rs: seq<Entry>)
    requires rs != []
    ensures var r, before := rs[|rs| - 1], Holders(rs[..|rs| - 1]);
            Holders(rs) == if !IsHoldEvent(r) then before
                           else if r.step == ALLOCATED then before + {r.run} else before - {r.run}
  {
    var r, init := rs[|rs| - 1], rs[..|rs| - 1];
    forall run
      ensures run in Holders(rs) <==>
              run in (if !IsHoldEvent(r) then Holders(init)
                      else if r.step == ALLOCATED then Holders(init) + {r.run} else Holders(init) - {r.run})
    {
      HoldersAre(rs, run);
      HoldersAre(init, run);
    }
  }

  /** A sample each time the set of holders changes, and only then. */
  ghost function Samples(rs: seq<Entry>): (samples: seq<HoldSample>) {
    if rs == [] then []
    else
      var r, init := rs[|rs| - 1], rs[..|rs| - 1];
      Samples(init) + if Holders(rs) == Holders(init) || r.at.None? then [] else [HoldSample(r.at.value, |Holders(rs)|)]
  }

  function LastHeld(samples: seq<HoldSample>): nat { if samples == [] then 0 else samples[|samples| - 1].held }

  /** Starting from nothing held, each sample is one more or one fewer than the last. */
  ghost predicate StepsByOne(samples: seq<HoldSample>) {
    forall k | 0 <= k < |samples| ::
      var before := LastHeld(samples[..k]);
      samples[k].held == before + 1 || samples[k].held + 1 == before
  }

  lemma StepsOneMore(samples: seq<HoldSample>, s: HoldSample)
    requires StepsByOne(samples)
    requires s.held == LastHeld(samples) + 1 || s.held + 1 == LastHeld(samples)
    ensures StepsByOne(samples + [s]) && LastHeld(samples + [s]) == s.held
  {
    var more := samples + [s];
    forall k | 0 <= k < |more|
      ensures var held := LastHeld(more[..k]); more[k].held == held + 1 || more[k].held + 1 == held
    {
      assert more[..k] == samples[..k];
      if k == |samples| { assert samples[..k] == samples; }
    }
  }

  lemma NobodyYet()
    ensures Holders([]) == {} && Samples([]) == [] && StepsByOne([]) && LastHeld([]) == 0
  {
  }

  /** What one more record does to the samples. */
  lemma SamplesOneMore(rs: seq<Entry>)
    requires rs != []
    ensures var init, r := rs[..|rs| - 1], rs[|rs| - 1];
            Samples(rs) == if Holders(rs) == Holders(init) || r.at.None? then Samples(init)
                           else Samples(init) + [HoldSample(r.at.value, |Holders(rs)|)]
  {
    hide Holders;
  }

  /** A record that changes who holds moves the count by one, up or down. */
  lemma {:induction false} HoldsMoveByOne(rs: seq<Entry>)
    ensures StepsByOne(Samples(rs)) && LastHeld(Samples(rs)) == |Holders(rs)|
  {
    hide Holders, Samples, StepsByOne, LastHeld;
    if rs == [] {
      NobodyYet();
    } else {
      var init, r := rs[..|rs| - 1], rs[|rs| - 1];
      HoldsMoveByOne(init);
      HoldersOneMore(rs);
      SamplesOneMore(rs);
      if Holders(rs) != Holders(init) {
        assert |Holders(rs)| == |Holders(init)| + 1 || |Holders(rs)| + 1 == |Holders(init)|;
        StepsOneMore(Samples(init), HoldSample(r.at.value, |Holders(rs)|));
      }
    }
  }

  function ZeroSamples(samples: seq<HoldSample>): nat {
    if samples == [] then 0
    else ZeroSamples(samples[..|samples| - 1]) + if samples[|samples| - 1].held == 0 then 1 else 0
  }

  /** The earliest sample that no other exceeds. */
  ghost predicate IsPeak(samples: seq<HoldSample>, peak: Option<HoldSample>) {
    match peak
    case None => samples == []
    case Some(p) =>
      exists k | 0 <= k < |samples| ::
        && samples[k] == p
        && (forall j | 0 <= j < |samples| :: samples[j].held <= p.held)
        && (forall j | 0 <= j < k :: samples[j].held < p.held)
  }

  lemma PeakOneMore(samples: seq<HoldSample>, peak: Option<HoldSample>, s: HoldSample)
    requires IsPeak(samples, peak)
    ensures IsPeak(samples + [s], if peak.None? || s.held > peak.value.held then Some(s) else peak)
  {
    var more := samples + [s];
    if peak.None? || s.held > peak.value.held {
      assert more[|samples|] == s;
    } else {
      var k :| 0 <= k < |samples| && samples[k] == peak.value
        && (forall j | 0 <= j < |samples| :: samples[j].held <= peak.value.held)
        && (forall j | 0 <= j < k :: samples[j].held < peak.value.held);
      assert more[k] == peak.value;
    }
  }

  lemma ZeroOneMore(samples: seq<HoldSample>, s: HoldSample)
    ensures ZeroSamples(samples + [s]) == ZeroSamples(samples) + if s.held == 0 then 1 else 0
  {
    assert (samples + [s])[..|samples|] == samples;
  }

  method BuildHolds(records: seq<Entry>)
    returns (holds: seq<HoldSample>, returnsToZero: nat, peak: Option<HoldSample>)
    ensures holds == Samples(records)
    ensures StepsByOne(holds) && LastHeld(holds) == |Holders(records)|
    ensures returnsToZero == ZeroSamples(holds)
    ensures IsPeak(holds, peak)
  {
    hide LatestEvent, Holders, Samples, StepsByOne, LastHeld, ZeroSamples, IsPeak;
    assert Holders([]) == {} && Samples([]) == [] && ZeroSamples([]) == 0 && IsPeak([], None) by {
      NothingYet();
    }
    var holding: set<string> := {};
    holds, returnsToZero, peak := [], 0, None;
    assert records[..0] == [];
    for k := 0 to |records|
      invariant holding == Holders(records[..k])
      invariant holds == Samples(records[..k])
      invariant returnsToZero == ZeroSamples(holds)
      invariant IsPeak(holds, peak)
    {
      var record := records[k];
      assert records[..k + 1][..k] == records[..k];
      HoldersOneMore(records[..k + 1]);
      SamplesOneMore(records[..k + 1]);
      if record.at.None? { continue; }
      if record.step == ALLOCATED {
        if record.run in holding { assert holding + {record.run} == holding; continue; }
        holding := holding + {record.run};
      } else if record.step == RELEASED {
        if record.run !in holding { assert holding - {record.run} == holding; continue; }
        holding := holding - {record.run};
      } else {
        continue;
      }
      var sample := HoldSample(record.at.value, |holding|);
      PeakOneMore(holds, peak, sample);
      ZeroOneMore(holds, sample);
      holds := holds + [sample];
      if |holding| == 0 { returnsToZero := returnsToZero + 1; }
      if peak.None? || |holding| > peak.value.held { peak := Some(sample); }
    }
    assert records[..|records|] == records;
    HoldsMoveByOne(records);
  }

  lemma NothingYet()
    ensures Holders([]) == {} && Samples([]) == [] && ZeroSamples([]) == 0 && IsPeak([], None)
  {
  }

  // ── Trails by operation ─────────────────────────────────────────────

  function TrailOf(rs: seq<Entry>, operation: string): seq<Entry> {
    if rs == [] then []
    else
      var r := rs[|rs| - 1];
      TrailOf(rs[..|rs| - 1], operation) + if r.operation == operation then [r] else []
  }

  ghost predicate Distinct(order: seq<string>) { forall j, k | 0 <= j < k < |order| :: order[j] != order[k] }

  /** The operations of the log, in order of first appearance. */
  function Appearing(rs: seq<Entry>): seq<string> {
    if rs == [] then []
    else
      var before, o := Appearing(rs[..|rs| - 1]), rs[|rs| - 1].operation;
      if o in before then before else before + [o]
  }

  /** Every operation seen, once each, with its own records in order. */
  ghost predicate Grouped(rs: seq<Entry>, order: seq<string>, trails: map<string, seq<Entry>>) {
    && Distinct(order) && order == Appearing(rs)
    && (forall o :: o in order <==> o in trails)
    && (forall o :: o in trails <==> TrailOf(rs, o) != [])
    && (forall o | o in trails :: trails[o] == TrailOf(rs, o))
  }

  lemma TrailOneMore(rs: seq<Entry>, o: string)
    requires rs != []
    ensures var r := rs[|rs| - 1];
            TrailOf(rs, o) == TrailOf(rs[..|rs| - 1], o) + if r.operation == o then [r] else []
  {
  }

  lemma GroupedOneMore(rs: seq<Entry>, order: seq<string>, trails: map<string, seq<Entry>>)
    requires rs != [] && Grouped(rs[..|rs| - 1], order, trails)
    ensures var r := rs[|rs| - 1];
            if r.operation in trails
            then Grouped(rs, order, trails[r.operation := trails[r.operation] + [r]])
            else Grouped(rs, order + [r.operation], trails[r.operation := [r]])
  {
    hide TrailOf;
    forall o
      ensures var r := rs[|rs| - 1];
              TrailOf(rs, o) == TrailOf(rs[..|rs| - 1], o) + if r.operation == o then [r] else []
    {
      TrailOneMore(rs, o);
    }
  }

  lemma NoGroups()
    ensures Grouped([], [], map[])
  {
  }

  method GroupByOperation(records: seq<Entry>) returns (order: seq<string>, trails: map<string, seq<Entry>>)
    ensures Grouped(records, order, trails)
  {
    hide TrailOf, Grouped;
    NoGroups();
    order, trails := [], map[];
    assert records[..0] == [];
    for k := 0 to |records|
      invariant Grouped(records[..k], order, trails)
    {
      var record := records[k];
      assert records[..k + 1][..k] == records[..k];
      GroupedOneMore(records[..k + 1], order, trails);
      if record.operation in trails {
        trails := trails[record.operation := trails[record.operation] + [record]];
      } else {
        trails := trails[record.operation := [record]];
        order := order + [record.operation];
      }
    }
    assert records[..|records|] == records;
  }

  // ── The matrix ──────────────────────────────────────────────────────

  function FirstCriticality(t: seq<Entry>): Option<Criticality> {
    if t == [] then None else if t[0].criticality.Some? then t[0].criticality else FirstCriticality(t[1..])
  }

  function FirstCongestion(t: seq<Entry>): Option<CongestionLevel> {
    if t == [] then None else if t[0].congestion.Some? then t[0].congestion else FirstCongestion(t[1..])
  }

  /** The decision is the first one: an operation that halts records another. */
  function FirstDecision(t: seq<Entry>): Option<Entry> {
    if t == [] then None else if t[0].step == DECIDED then Some(t[0]) else FirstDecision(t[1..])
  }

  function DecidedAction(t: seq<Entry>): Option<NetworkAction> {
    if FirstDecision(t).Some? then FirstDecision(t).value.action else None
  }

  datatype Facts = Facts(criticality: Criticality, congestion: CongestionLevel, action: NetworkAction)

  function FactsOf(t: seq<Entry>): Option<Facts> {
    var c, g, a := FirstCriticality(t), FirstCongestion(t), DecidedAction(t);
    if c.Some? && g.Some? && a.Some? then Some(Facts(c.value, g.value, a.value)) else None
  }

  function CountIn(ts: seq<seq<Entry>>, c: Criticality, g: CongestionLevel): nat {
    if ts == [] then 0
    else
      var f := FactsOf(ts[|ts| - 1]);
      CountIn(ts[..|ts| - 1], c, g) + if f.Some? && f.value.criticality == c && f.value.congestion == g then 1 else 0
  }

  function CountWith(ts: seq<seq<Entry>>, c: Criticality, g: CongestionLevel, a: NetworkAction): nat {
    if ts == [] then 0
    else CountWith(ts[..|ts| - 1], c, g, a) + if FactsOf(ts[|ts| - 1]) == Some(Facts(c, g, a)) then 1 else 0
  }

  function CountClassified(ts: seq<seq<Entry>>): nat {
    if ts == [] then 0 else CountClassified(ts[..|ts| - 1]) + if FactsOf(ts[|ts| - 1]).Some? then 1 else 0
  }

  datatype MatrixCell = MatrixCell(
    criticality: Criticality,
    congestion: CongestionLevel,
    count: nat,
    action: Option<NetworkAction>)

  /** `order` lists the tallied actions as they first came: the order a map's entries come back in. */
  datatype Cell = Cell(count: nat, actions: map<NetworkAction, nat>, order: seq<NetworkAction>)

  const EMPTY_CELL := Cell(0, map[], [])
  const ROWS := [HIGH, MEDIUM, LOW]
  const COLUMNS := [Low, Medium, High]

  function Tally(cell: Cell, a: NetworkAction): nat { if a in cell.actions then cell.actions[a] else 0 }

  /** The actions decided for operations of these two facts, in order of first appearance. */
  function Order(ts: seq<seq<Entry>>, c: Criticality, g: CongestionLevel): seq<NetworkAction> {
    if ts == [] then []
    else
      var before, f := Order(ts[..|ts| - 1], c, g), FactsOf(ts[|ts| - 1]);
      if f.Some? && f.value.criticality == c && f.value.congestion == g && f.value.action !in before
      then before + [f.value.action] else before
  }

  /** What the cell shows: the action most often decided, of those the one that came first. */
  ghost predicate Leads(ts: seq<seq<Entry>>, c: Criticality, g: CongestionLevel, action: NetworkAction) {
    var o := Order(ts, c, g);
    exists k | 0 <= k < |o| ::
      && o[k] == action
      && (forall j | 0 <= j < |o| :: CountWith(ts, c, g, o[j]) <= CountWith(ts, c, g, action))
      && (forall j | 0 <= j < k :: CountWith(ts, c, g, o[j]) < CountWith(ts, c, g, action))
  }

  lemma {:induction false} OrderIs(ts: seq<seq<Entry>>, c: Criticality, g: CongestionLevel)
    ensures forall a :: a in Order(ts, c, g) <==> CountWith(ts, c, g, a) > 0
    ensures Order(ts, c, g) == [] <==> CountIn(ts, c, g) == 0
  {
    hide FactsOf;
    if ts != [] { OrderIs(ts[..|ts| - 1], c, g); }
  }

  /** So no action at all outnumbers the one that leads. */
  lemma LeaderIsNotOutnumbered(ts: seq<seq<Entry>>, c: Criticality, g: CongestionLevel, action: NetworkAction)
    requires Leads(ts, c, g, action)
    ensures forall a :: CountWith(ts, c, g, a) <= CountWith(ts, c, g, action)
  {
    hide CountWith, Order;
    OrderIs(ts, c, g);
  }

  ghost predicate Tallies(cell: Cell, ts: seq<seq<Entry>>, c: Criticality, g: CongestionLevel) {
    && cell.count == CountIn(ts, c, g) && cell.order == Order(ts, c, g)
    && (forall a :: a in cell.actions <==> a in cell.order)
    && (forall a :: Tally(cell, a) == CountWith(ts, c, g, a))
  }

  ghost predicate CellsCount(cells: map<(Criticality, CongestionLevel), Cell>, ts: seq<seq<Entry>>) {
    && (forall c, g :: (c, g) in cells <==> CountIn(ts, c, g) > 0)
    && (forall c, g | (c, g) in cells :: Tallies(cells[(c, g)], ts, c, g))
  }

  /** The first of the entries sorted by count, greatest first: the sort keeps equal counts in order. */
  method Dominant(cell: Cell) returns (action: NetworkAction)
    requires cell.order != []
    ensures exists k | 0 <= k < |cell.order| ::
              && cell.order[k] == action
              && (forall j | 0 <= j < |cell.order| :: Tally(cell, cell.order[j]) <= Tally(cell, action))
              && (forall j | 0 <= j < k :: Tally(cell, cell.order[j]) < Tally(cell, action))
  {
    var best := 0;
    for k := 1 to |cell.order|
      invariant 0 <= best < k
      invariant forall j | 0 <= j < k :: Tally(cell, cell.order[j]) <= Tally(cell, cell.order[best])
      invariant forall j | 0 <= j < best :: Tally(cell, cell.order[j]) < Tally(cell, cell.order[best])
    {
      if Tally(cell, cell.order[k]) > Tally(cell, cell.order[best]) { best := k; }
    }
    action := cell.order[best];
  }

  lemma {:induction false} NoneWithoutAny(ts: seq<seq<Entry>>, c: Criticality, g: CongestionLevel, a: NetworkAction)
    ensures CountWith(ts, c, g, a) <= CountIn(ts, c, g)
  {
    if ts != [] { NoneWithoutAny(ts[..|ts| - 1], c, g, a); }
  }

  lemma CellBefore(cells: map<(Criticality, CongestionLevel), Cell>, ts: seq<seq<Entry>>,
                   c: Criticality, g: CongestionLevel, cell: Cell)
    requires CellsCount(cells, ts)
    requires cell == if (c, g) in cells then cells[(c, g)] else EMPTY_CELL
    ensures Tallies(cell, ts, c, g)
  {
    OrderIs(ts, c, g);
    forall a ensures (c, g) !in cells ==> CountWith(ts, c, g, a) == 0 { NoneWithoutAny(ts, c, g, a); }
  }

  /** One more operation in a cell. */
  function Counted(cell: Cell, a: NetworkAction): Cell {
    Cell(cell.count + 1,
         cell.actions[a := Tally(cell, a) + 1],
         if a in cell.actions then cell.order else cell.order + [a])
  }

  lemma TalliesOneMore(cell: Cell, ts: seq<seq<Entry>>, f: Facts)
    requires ts != [] && FactsOf(ts[|ts| - 1]) == Some(f)
    requires Tallies(cell, ts[..|ts| - 1], f.criticality, f.congestion)
    ensures Tallies(Counted(cell, f.action), ts, f.criticality, f.congestion)
  {
    hide FactsOf;
    var more := Counted(cell, f.action);
    forall a
      ensures a in more.actions <==> a in more.order
      ensures Tally(more, a) == CountWith(ts, f.criticality, f.congestion, a)
    {
      assert CountWith(ts, f.criticality, f.congestion, a)
             == CountWith(ts[..|ts| - 1], f.criticality, f.congestion, a) + if a == f.action then 1 else 0;
    }
  }

  lemma OtherCellsTally(cell: Cell, ts: seq<seq<Entry>>, c: Criticality, g: CongestionLevel)
    requires ts != []
    requires var f := FactsOf(ts[|ts| - 1]); f.Some? ==> f.value.criticality != c || f.value.congestion != g
    ensures CountIn(ts, c, g) == CountIn(ts[..|ts| - 1], c, g)
    ensures Tallies(cell, ts[..|ts| - 1], c, g) ==> Tallies(cell, ts, c, g)
  {
    hide FactsOf;
  }

  lemma CellsOneMore(cells: map<(Criticality, CongestionLevel), Cell>, ts: seq<seq<Entry>>,
                     cells': map<(Criticality, CongestionLevel), Cell>)
    requires ts != [] && CellsCount(cells, ts[..|ts| - 1])
    requires var f := FactsOf(ts[|ts| - 1]);
             cells' == if f.None? then cells
                       else
                         var key := (f.value.criticality, f.value.congestion);
                         cells[key := Counted(if key in cells then cells[key] else EMPTY_CELL, f.value.action)]
    ensures CellsCount(cells', ts)
  {
    hide FactsOf, Tallies, Order, CountWith, Counted;
    var f := FactsOf(ts[|ts| - 1]);
    forall c, g
      ensures (c, g) in cells' <==> CountIn(ts, c, g) > 0
      ensures (c, g) in cells' ==> Tallies(cells'[(c, g)], ts, c, g)
    {
      if f.Some? && f.value.criticality == c && f.value.congestion == g {
        var cell := if (c, g) in cells then cells[(c, g)] else EMPTY_CELL;
        CellBefore(cells, ts[..|ts| - 1], c, g, cell);
        TalliesOneMore(cell, ts, f.value);
      } else {
        OtherCellsTally(if (c, g) in cells then cells[(c, g)] else EMPTY_CELL, ts, c, g);
      }
    }
  }

  method CountCells(ts: seq<seq<Entry>>) returns (cells: map<(Criticality, CongestionLevel), Cell>)
    ensures CellsCount(cells, ts)
  {
    hide CellsCount, FactsOf;
    cells := map[];
    NoneCounted();
    assert ts[..0] == [];
    for k := 0 to |ts|
      invariant CellsCount(cells, ts[..k])
    {
      assert ts[..k + 1][..k] == ts[..k];
      ghost var before := cells;
      var facts := FactsOf(ts[k]);
      if facts.Some? {
        var key := (facts.value.criticality, facts.value.congestion);
        var cell := if key in cells then cells[key] else EMPTY_CELL;
        cells := cells[key := Counted(cell, facts.value.action)];
      }
      CellsOneMore(before, ts[..k + 1], cells);
    }
    assert ts[..|ts|] == ts;
  }

  lemma NoneCounted()
    ensures CellsCount(map[], [])
  {
  }

  function Total(cells: seq<MatrixCell>): nat {
    if cells == [] then 0 else Total(cells[..|cells| - 1]) + cells[|cells| - 1].count
  }

  /** One of the nine cells: its count, and the action that leads there if any operation is in it. */
  ghost predicate CellIs(cell: MatrixCell, ts: seq<seq<Entry>>, c: Criticality, g: CongestionLevel) {
    && cell.criticality == c && cell.congestion == g
    && cell.count == CountIn(ts, c, g)
    && (cell.action.Some? <==> cell.count > 0)
    && (cell.action.Some? ==> Leads(ts, c, g, cell.action.value))
  }

  method MakeCell(cells: map<(Criticality, CongestionLevel), Cell>, ghost ts: seq<seq<Entry>>,
                  c: Criticality, g: CongestionLevel) returns (cell: MatrixCell)
    requires CellsCount(cells, ts)
    ensures CellIs(cell, ts, c, g) && cell.count == CountIn(ts, c, g)
  {
    hide Order, CountWith, CountIn, Tally;
    if (c, g) !in cells { return MatrixCell(c, g, 0, None); }
    var tallied := cells[(c, g)];
    OrderIs(ts, c, g);
    var action := Dominant(tallied);
    assert Leads(ts, c, g, action);
    return MatrixCell(c, g, tallied.count, Some(action));
  }

  lemma TotalOneMore(m: seq<MatrixCell>, cell: MatrixCell)
    ensures Total(m + [cell]) == Total(m) + cell.count
  {
    assert (m + [cell])[..|m|] == m;
  }

  lemma NoCells()
    ensures Total([]) == 0
  {
  }

  /** The operations counted in the first `k` cells, row by row. */
  ghost function CountUpTo(ts: seq<seq<Entry>>, k: nat): nat
    requires k <= 9
  {
    if k == 0 then 0 else CountUpTo(ts, k - 1) + CountIn(ts, ROWS[(k - 1) / 3], COLUMNS[(k - 1) % 3])
  }

  /** An operation that has all three facts is counted in exactly one of the nine cells. */
  lemma {:induction false} NineCellsCoverAll(ts: seq<seq<Entry>>)
    ensures CountUpTo(ts, 9) == CountClassified(ts)
  {
    NineIs(ts);
    if ts != [] {
      NineIs(ts[..|ts| - 1]);
      NineCellsCoverAll(ts[..|ts| - 1]);
    }
  }

  lemma NineIs(ts: seq<seq<Entry>>)
    ensures CountUpTo(ts, 9) ==
            CountIn(ts, HIGH, Low) + CountIn(ts, HIGH, Medium) + CountIn(ts, HIGH, High)
            + CountIn(ts, MEDIUM, Low) + CountIn(ts, MEDIUM, Medium) + CountIn(ts, MEDIUM, High)
            + CountIn(ts, LOW, Low) + CountIn(ts, LOW, Medium) + CountIn(ts, LOW, High)
  {
    hide CountIn;
    assert CountUpTo(ts, 3) == CountIn(ts, HIGH, Low) + CountIn(ts, HIGH, Medium) + CountIn(ts, HIGH, High) by {
      assert CountUpTo(ts, 1) == CountIn(ts, HIGH, Low);
      assert CountUpTo(ts, 2) == CountUpTo(ts, 1) + CountIn(ts, HIGH, Medium);
    }
    assert CountUpTo(ts, 6) == CountUpTo(ts, 3)
        + CountIn(ts, MEDIUM, Low) + CountIn(ts, MEDIUM, Medium) + CountIn(ts, MEDIUM, High) by {
      assert CountUpTo(ts, 4) == CountUpTo(ts, 3) + CountIn(ts, MEDIUM, Low);
      assert CountUpTo(ts, 5) == CountUpTo(ts, 4) + CountIn(ts, MEDIUM, Medium);
    }
    assert CountUpTo(ts, 9) == CountUpTo(ts, 6)
        + CountIn(ts, LOW, Low) + CountIn(ts, LOW, Medium) + CountIn(ts, LOW, High) by {
      assert CountUpTo(ts, 7) == CountUpTo(ts, 6) + CountIn(ts, LOW, Low);
      assert CountUpTo(ts, 8) == CountUpTo(ts, 7) + CountIn(ts, LOW, Medium);
    }
  }

  method BuildMatrix(ts: seq<seq<Entry>>) returns (matrix: seq<MatrixCell>)
    ensures |matrix| == 9 && Total(matrix) == CountClassified(ts)
    ensures forall k | 0 <= k < 9 :: CellIs(matrix[k], ts, ROWS[k / 3], COLUMNS[k % 3])
  {
    hide CountIn, CountWith, CountClassified, CellsCount, CellIs, Total;
    var cells := CountCells(ts);
    matrix := [];
    NoCells();
    for k := 0 to 9
      invariant |matrix| == k && Total(matrix) == CountUpTo(ts, k)
      invariant forall m | 0 <= m < k :: CellIs(matrix[m], ts, ROWS[m / 3], COLUMNS[m % 3])
    {
      var cell := MakeCell(cells, ts, ROWS[k / 3], COLUMNS[k % 3]);
      TotalOneMore(matrix, cell);
      matrix := matrix + [cell];
    }
    NineCellsCoverAll(ts);
  }

  /** The operations whose own trail states all three facts. */
  ghost function Classified(rs: seq<Entry>): set<string> {
    set k | 0 <= k < |rs| && FactsOf(TrailOf(rs, rs[k].operation)).Some? :: rs[k].operation
  }

  ghost function Among(rs: seq<Entry>, order: seq<string>): set<string> {
    set o | o in order && FactsOf(TrailOf(rs, o)).Some?
  }

  ghost function TrailsOf(rs: seq<Entry>, order: seq<string>): seq<seq<Entry>> {
    seq(|order|, k requires 0 <= k < |order| => TrailOf(rs, order[k]))
  }

  lemma {:induction false} EachOperationCountsOnce(rs: seq<Entry>, order: seq<string>)
    requires Distinct(order)
    ensures CountClassified(TrailsOf(rs, order)) == |Among(rs, order)|
  {
    hide TrailOf, FactsOf;
    if order == [] {
      assert Among(rs, order) == {};
    } else {
      var n := |order| - 1;
      var init := order[..n];
      EachOperationCountsOnce(rs, init);
      assert TrailsOf(rs, order)[..n] == TrailsOf(rs, init);
      assert order[n] !in Among(rs, init);
      assert Among(rs, order) == Among(rs, init) + if FactsOf(TrailOf(rs, order[n])).Some? then {order[n]} else {};
    }
  }

  lemma {:induction false} OperationHasARecord(rs: seq<Entry>, o: string)
    ensures TrailOf(rs, o) != [] <==> exists k :: 0 <= k < |rs| && rs[k].operation == o
  {
    if rs != [] {
      var init := rs[..|rs| - 1];
      OperationHasARecord(init, o);
      if k :| 0 <= k < |init| && init[k].operation == o { assert rs[k].operation == o; }
      if k :| 0 <= k < |rs| && rs[k].operation == o { assert k < |init| ==> init[k].operation == o; }
    }
  }

  // ── From the log as it came ─────────────────────────────────────────

  ghost predicate Timed(rs: seq<Entry>) { forall k | 0 <= k < |rs| :: rs[k].at.Some? }

  ghost predicate Chronological(rs: seq<Entry>) {
    Timed(rs) && forall j, k | 0 <= j < k < |rs| :: rs[j].at.value <= rs[k].at.value
  }

  function AtTime(rs: seq<Entry>, at: int): seq<Entry> {
    if rs == [] then []
    else AtTime(rs[..|rs| - 1], at) + if rs[|rs| - 1].at == Some(at) then [rs[|rs| - 1]] else []
  }

  lemma AtTimeOneMore(rs: seq<Entry>, r: Entry, at: int)
    ensures AtTime(rs + [r], at) == AtTime(rs, at) + if r.at == Some(at) then [r] else []
  {
    assert (rs + [r])[..|rs|] == rs;
  }

  /** After every record no later than it. */
  function Insert(rs: seq<Entry>, r: Entry): seq<Entry>
    requires Timed(rs) && r.at.Some?
  {
    if rs == [] || rs[|rs| - 1].at.value <= r.at.value then rs + [r]
    else Insert(rs[..|rs| - 1], r) + [rs[|rs| - 1]]
  }

  lemma {:induction false} InsertKeepsOrder(rs: seq<Entry>, r: Entry)
    requires Chronological(rs) && r.at.Some?
    ensures Chronological(Insert(rs, r))
    ensures forall k | 0 <= k < |Insert(rs, r)| :: Insert(rs, r)[k] == r || Insert(rs, r)[k] in rs
    ensures forall at :: AtTime(Insert(rs, r), at) == AtTime(rs, at) + if r.at == Some(at) then [r] else []
  {
    hide AtTime;
    if rs == [] || rs[|rs| - 1].at.value <= r.at.value {
      forall at ensures AtTime(rs + [r], at) == AtTime(rs, at) + if r.at == Some(at) then [r] else [] {
        AtTimeOneMore(rs, r, at);
      }
    } else {
      var init, last := rs[..|rs| - 1], rs[|rs| - 1];
      InsertKeepsOrder(init, r);
      assert rs == init + [last];
      forall at ensures AtTime(Insert(rs, r), at) == AtTime(rs, at) + if r.at == Some(at) then [r] else [] {
        AtTimeOneMore(Insert(init, r), last, at);
        AtTimeOneMore(init, last, at);
        if r.at == Some(at) { assert last.at != Some(at); }
      }
    }
  }

  /** Sorted, with nothing added or dropped, and records of one time in the order they came. */
  method SortByTime(rs: seq<Entry>) returns (sorted: seq<Entry>)
    requires Timed(rs)
    ensures Chronological(sorted)
    ensures forall at :: AtTime(sorted, at) == AtTime(rs, at)
  {
    hide AtTime;
    sorted := [];
    assert rs[..0] == [];
    for k := 0 to |rs|
      invariant Chronological(sorted)
      invariant forall at :: AtTime(sorted, at) == AtTime(rs[..k], at)
    {
      InsertKeepsOrder(sorted, rs[k]);
      assert rs[..k + 1] == rs[..k] + [rs[k]];
      forall at ensures AtTime(rs[..k + 1], at) == AtTime(rs[..k], at) + if rs[k].at == Some(at) then [rs[k]] else [] {
        AtTimeOneMore(rs[..k], rs[k], at);
      }
      sorted := Insert(sorted, rs[k]);
    }
    assert rs[..|rs|] == rs;
  }

  /** Each operation that has all three facts is counted in one cell. */
  method AnalyseTrails(chronological: seq<Entry>) returns (matrix: seq<MatrixCell>)
    ensures |matrix| == 9 && Total(matrix) == |Classified(chronological)|
    ensures forall k | 0 <= k < 9 ::
              CellIs(matrix[k], TrailsOf(chronological, Appearing(chronological)), ROWS[k / 3], COLUMNS[k % 3])
  {
    hide TrailOf, FactsOf, Total, CountClassified, CellIs;
    var order, trails := GroupByOperation(chronological);
    var ts := seq(|order|, k requires 0 <= k < |order| => trails[order[k]]);
    matrix := BuildMatrix(ts);
    EachOperationCountsOnce(chronological, order);
    assert ts == TrailsOf(chronological, order);
    forall o ensures o in Among(chronological, order) <==> o in Classified(chronological) {
      OperationHasARecord(chronological, o);
    }
    assert Among(chronological, order) == Classified(chronological);
  }

  /** From a page of the log, newest first or however it came, to what the page shows. */
  method BuildAnalysis(records: seq<Entry>)
    returns (matrix: seq<MatrixCell>, holds: seq<HoldSample>, returnsToZero: nat, peak: Option<HoldSample>,
             ghost sorted: seq<Entry>)
    requires Timed(records)
    ensures Chronological(sorted) && forall at :: AtTime(sorted, at) == AtTime(records, at)
    ensures |matrix| == 9 && Total(matrix) == |Classified(sorted)|
    ensures forall k | 0 <= k < 9 ::
              CellIs(matrix[k], TrailsOf(sorted, Appearing(sorted)), ROWS[k / 3], COLUMNS[k % 3])
    ensures holds == Samples(sorted) && returnsToZero == ZeroSamples(holds) && IsPeak(holds, peak)
  {
    hide AtTime, CellIs, Total, Classified, Appearing, Samples, IsPeak, ZeroSamples, StepsByOne;
    var chronological := SortByTime(records);
    sorted := chronological;
    matrix := AnalyseTrails(chronological);
    holds, returnsToZero, peak := BuildHolds(chronological);
  }

  // ── Totals ──────────────────────────────────────────────────────────

  function CountDecided(ts: seq<seq<Entry>>): nat {
    if ts == [] then 0 else CountDecided(ts[..|ts| - 1]) + if FirstDecision(ts[|ts| - 1]).Some? then 1 else 0
  }

  /** The matrix never shows more operations than were decided: each counts once, by its first decision. */
  lemma {:induction false} ClassifiedWereDecided(ts: seq<seq<Entry>>)
    ensures CountClassified(ts) <= CountDecided(ts) <= |ts|
  {
    if ts != [] { ClassifiedWereDecided(ts[..|ts| - 1]); }
  }
}
