/** The figures of the analysis page, by the records they come from. */
module Figures {
  import opened Shared
  import opened Analysis

  // ── Of one operation ────────────────────────────────────────────────

  predicate SaysCriticality(e: Entry) { e.criticality.Some? }

  predicate SaysCongestion(e: Entry) { e.congestion.Some? }

  predicate IsDecision(e: Entry) { e.step == DECIDED }

  /** Record `k` is the first of its kind. */
  ghost predicate FirstAt(t: seq<Entry>, k: nat, kind: Entry -> bool) {
    k < |t| && kind(t[k]) && forall j | 0 <= j < k :: !kind(t[j])
  }

  lemma FirstLater(t: seq<Entry>, k: nat, kind: Entry -> bool)
    requires t != [] && !kind(t[0])
    ensures FirstAt(t, k + 1, kind) <==> FirstAt(t[1..], k, kind)
    ensures !FirstAt(t, 0, kind)
  {
    if FirstAt(t[1..], k, kind) { assert forall j | 1 <= j < k + 1 :: t[j] == t[1..][j - 1]; }
  }

  lemma {:induction false} FirstCriticalityIs(t: seq<Entry>) returns (k: nat)
    ensures FirstCriticality(t).Some? ==> FirstAt(t, k, SaysCriticality) && t[k].criticality == FirstCriticality(t)
    ensures FirstCriticality(t).None? ==> forall e | e in t :: !SaysCriticality(e)
  {
    if t == [] || SaysCriticality(t[0]) {
      k := 0;
    } else {
      var later := FirstCriticalityIs(t[1..]);
      FirstLater(t, later, SaysCriticality);
      k := later + 1;
    }
  }

  lemma {:induction false} FirstCongestionIs(t: seq<Entry>) returns (k: nat)
    ensures FirstCongestion(t).Some? ==> FirstAt(t, k, SaysCongestion) && t[k].congestion == FirstCongestion(t)
    ensures FirstCongestion(t).None? ==> forall e | e in t :: !SaysCongestion(e)
  {
    if t == [] || SaysCongestion(t[0]) {
      k := 0;
    } else {
      var later := FirstCongestionIs(t[1..]);
      FirstLater(t, later, SaysCongestion);
      k := later + 1;
    }
  }

  lemma {:induction false} FirstDecisionIs(t: seq<Entry>) returns (k: nat)
    ensures FirstDecision(t).Some? ==> FirstAt(t, k, IsDecision) && t[k] == FirstDecision(t).value
    ensures FirstDecision(t).None? ==> forall e | e in t :: !IsDecision(e)
  {
    if t == [] || IsDecision(t[0]) {
      k := 0;
    } else {
      var later := FirstDecisionIs(t[1..]);
      FirstLater(t, later, IsDecision);
      k := later + 1;
    }
  }

  /** There is only one first. */
  lemma OneFirst(t: seq<Entry>, j: nat, k: nat, kind: Entry -> bool)
    requires FirstAt(t, j, kind) && FirstAt(t, k, kind)
    ensures j == k
  {
  }

  /** What an operation counts as: the first word on each fact, and its earliest decision whatever a later one says. */
  ghost predicate CountsAs(t: seq<Entry>, f: Facts) {
    && (exists k: nat :: FirstAt(t, k, SaysCriticality) && t[k].criticality == Some(f.criticality))
    && (exists k: nat :: FirstAt(t, k, SaysCongestion) && t[k].congestion == Some(f.congestion))
    && (exists k: nat :: FirstAt(t, k, IsDecision) && t[k].action == Some(f.action))
  }

  lemma FactsAreTheEarliest(t: seq<Entry>, f: Facts)
    ensures FactsOf(t) == Some(f) <==> CountsAs(t, f)
  {
    hide FirstCriticality, FirstCongestion, FirstDecision;
    var c := FirstCriticalityIs(t);
    var g := FirstCongestionIs(t);
    var d := FirstDecisionIs(t);
    if k: nat :| FirstAt(t, k, SaysCriticality) && FirstCriticality(t).Some? { OneFirst(t, c, k, SaysCriticality); }
    if k: nat :| FirstAt(t, k, SaysCongestion) && FirstCongestion(t).Some? { OneFirst(t, g, k, SaysCongestion); }
    if k: nat :| FirstAt(t, k, IsDecision) && FirstDecision(t).Some? { OneFirst(t, d, k, IsDecision); }
  }

  // ── Of the log ──────────────────────────────────────────────────────

  /** `t` is the records at these places: all of the operation's, in the order of the log. */
  ghost predicate IsTrailAt(rs: seq<Entry>, o: string, t: seq<Entry>, places: seq<nat>) {
    && |t| == |places|
    && (forall j, k | 0 <= j < k < |places| :: places[j] < places[k])
    && (forall k | 0 <= k < |places| :: places[k] < |rs| && t[k] == rs[places[k]])
    && (forall i | 0 <= i < |rs| :: rs[i].operation == o <==> i in places)
  }

  lemma TrailOneMoreAt(init: seq<Entry>, r: Entry, o: string, t: seq<Entry>, places: seq<nat>)
    requires IsTrailAt(init, o, t, places)
    ensures if r.operation == o then IsTrailAt(init + [r], o, t + [r], places + [|init|])
            else IsTrailAt(init + [r], o, t, places)
  {
    var rs := init + [r];
    assert forall i | 0 <= i < |init| :: rs[i] == init[i];
    assert rs[|init|] == r;
    if r.operation == o {
      var places' := places + [|init|];
      assert places'[|places|] == |init|;
      assert forall k | 0 <= k < |places| :: places'[k] == places[k];
      forall i | 0 <= i < |rs| ensures rs[i].operation == o <==> i in places' {
        assert i in places' <==> i in places || i == |init|;
      }
    }
  }

  lemma {:induction false} TrailIsTheOperations(rs: seq<Entry>, o: string) returns (places: seq<nat>)
    ensures IsTrailAt(rs, o, TrailOf(rs, o), places)
  {
    hide IsTrailAt, TrailOf;
    if rs == [] {
      places := [];
      EmptyTrail(o);
    } else {
      var init, r := rs[..|rs| - 1], rs[|rs| - 1];
      var before := TrailIsTheOperations(init, o);
      TrailOneMoreAt(init, r, o, TrailOf(init, o), before);
      TrailOneMore(rs, o);
      assert init + [r] == rs;
      if r.operation == o {
        places := before + [|init|];
      } else {
        places := before;
        assert TrailOf(rs, o) == TrailOf(init, o);
      }
    }
  }

  lemma EmptyTrail(o: string)
    ensures IsTrailAt([], o, TrailOf([], o), [])
  {
  }

  /** Operations come in the order in which each was first seen. */
  lemma {:induction false} AppearingInOrder(rs: seq<Entry>, j: nat, k: nat) returns (i: nat)
    requires j < k < |Appearing(rs)|
    ensures i < |rs| && rs[i].operation == Appearing(rs)[j]
    ensures forall m | 0 <= m <= i :: rs[m].operation != Appearing(rs)[k]
  {
    var n := |rs| - 1;
    if k < |Appearing(rs[..n])| {
      i := AppearingInOrder(rs[..n], j, k);
      assert forall m | 0 <= m <= i :: rs[..n][m] == rs[m];
    } else {
      i := SeenAt(rs[..n], Appearing(rs)[j]);
      forall m | 0 <= m < n ensures rs[m].operation in Appearing(rs[..n]) { Seen(rs[..n], m); }
    }
  }

  lemma {:induction false} SeenAt(rs: seq<Entry>, o: string) returns (i: nat)
    requires o in Appearing(rs)
    ensures i < |rs| && rs[i].operation == o
  {
    var n := |rs| - 1;
    if o in Appearing(rs[..n]) { i := SeenAt(rs[..n], o); } else { i := n; }
  }

  lemma {:induction false} Seen(rs: seq<Entry>, m: nat)
    requires m < |rs|
    ensures rs[m].operation in Appearing(rs)
  {
    if m < |rs| - 1 { Seen(rs[..|rs| - 1], m); }
  }

  // ── Of one cell ─────────────────────────────────────────────────────

  predicate InCell(t: seq<Entry>, c: Criticality, g: CongestionLevel) {
    FactsOf(t).Some? && FactsOf(t).value.criticality == c && FactsOf(t).value.congestion == g
  }

  /** The operations that belong in a cell. */
  ghost function Belonging(rs: seq<Entry>, order: seq<string>, c: Criticality, g: CongestionLevel): set<string> {
    set o | o in order && InCell(TrailOf(rs, o), c, g)
  }

  lemma CountInOneMore(ts: seq<seq<Entry>>, c: Criticality, g: CongestionLevel)
    requires ts != []
    ensures CountIn(ts, c, g) == CountIn(ts[..|ts| - 1], c, g) + if InCell(ts[|ts| - 1], c, g) then 1 else 0
  {
    hide FactsOf;
  }

  lemma NoOperations(rs: seq<Entry>, c: Criticality, g: CongestionLevel)
    ensures CountIn(TrailsOf(rs, []), c, g) == 0 && Belonging(rs, [], c, g) == {}
  {
  }

  lemma BelongingOneMore(rs: seq<Entry>, order: seq<string>, c: Criticality, g: CongestionLevel)
    requires order != [] && Distinct(order)
    ensures var n := |order| - 1;
            |Belonging(rs, order, c, g)|
            == |Belonging(rs, order[..n], c, g)| + if InCell(TrailOf(rs, order[n]), c, g) then 1 else 0
  {
    hide TrailOf, InCell;
    var n := |order| - 1;
    var before := Belonging(rs, order[..n], c, g);
    assert order[n] !in order[..n];
    assert forall o :: o in order <==> o in order[..n] || o == order[n];
    if InCell(TrailOf(rs, order[n]), c, g) {
      assert Belonging(rs, order, c, g) == before + {order[n]};
    } else {
      assert Belonging(rs, order, c, g) == before;
    }
  }

  lemma {:induction false} CellCountsOperations(rs: seq<Entry>, order: seq<string>, c: Criticality, g: CongestionLevel)
    requires Distinct(order)
    ensures CountIn(TrailsOf(rs, order), c, g) == |Belonging(rs, order, c, g)|
  {
    hide TrailOf, InCell, CountIn, Belonging;
    if order == [] {
      NoOperations(rs, c, g);
    } else {
      var init := order[..|order| - 1];
      CellCountsOperations(rs, init, c, g);
      assert TrailsOf(rs, order)[..|init|] == TrailsOf(rs, init);
      CountInOneMore(TrailsOf(rs, order), c, g);
      BelongingOneMore(rs, order, c, g);
    }
  }

  /** The operations of a cell for which one action was decided. */
  ghost function Deciding(rs: seq<Entry>, order: seq<string>, f: Facts): set<string> {
    set o | o in order && FactsOf(TrailOf(rs, o)) == Some(f)
  }

  lemma {:induction false} TallyCountsOperations(rs: seq<Entry>, order: seq<string>, f: Facts)
    requires Distinct(order)
    ensures CountWith(TrailsOf(rs, order), f.criticality, f.congestion, f.action) == |Deciding(rs, order, f)|
  {
    hide TrailOf, FactsOf;
    if order == [] {
      assert Deciding(rs, order, f) == {};
    } else {
      var n := |order| - 1;
      var init := order[..n];
      TallyCountsOperations(rs, init, f);
      assert TrailsOf(rs, order)[..n] == TrailsOf(rs, init);
      assert order[n] !in Deciding(rs, init, f);
      assert Deciding(rs, order, f)
          == Deciding(rs, init, f) + if FactsOf(TrailOf(rs, order[n])) == Some(f) then {order[n]} else {};
    }
  }

  /** The actions of a cell come in the order in which each was first decided there: what settles a tie. */
  lemma {:induction false} OrderIsOfFirstDecision(ts: seq<seq<Entry>>, c: Criticality, g: CongestionLevel,
                                                  j: nat, k: nat) returns (i: nat)
    requires j < k < |Order(ts, c, g)|
    ensures i < |ts| && FactsOf(ts[i]) == Some(Facts(c, g, Order(ts, c, g)[j]))
    ensures forall m | 0 <= m <= i :: FactsOf(ts[m]) != Some(Facts(c, g, Order(ts, c, g)[k]))
  {
    hide FactsOf;
    var n := |ts| - 1;
    var init := ts[..n];
    if k < |Order(init, c, g)| {
      i := OrderIsOfFirstDecision(init, c, g, j, k);
      assert forall m | 0 <= m <= i :: init[m] == ts[m];
    } else {
      i := DecidedAt(init, c, g, Order(ts, c, g)[j]);
      forall m, a | 0 <= m < n && FactsOf(ts[m]) == Some(Facts(c, g, a)) ensures a in Order(init, c, g) {
        DecidedThere(init, c, g, a, m);
      }
    }
  }

  lemma {:induction false} DecidedAt(ts: seq<seq<Entry>>, c: Criticality, g: CongestionLevel, a: NetworkAction)
    returns (i: nat)
    requires a in Order(ts, c, g)
    ensures i < |ts| && FactsOf(ts[i]) == Some(Facts(c, g, a))
  {
    hide FactsOf;
    var n := |ts| - 1;
    if a in Order(ts[..n], c, g) { i := DecidedAt(ts[..n], c, g, a); } else { i := n; }
  }

  lemma {:induction false} DecidedThere(ts: seq<seq<Entry>>, c: Criticality, g: CongestionLevel, a: NetworkAction,
                                        m: nat)
    requires m < |ts| && FactsOf(ts[m]) == Some(Facts(c, g, a))
    ensures a in Order(ts, c, g)
  {
    hide FactsOf;
    if m < |ts| - 1 { DecidedThere(ts[..|ts| - 1], c, g, a, m); }
  }

  // ── Over time ───────────────────────────────────────────────────────

  /** An allocation or release with a time, after which the run has no other. */
  ghost predicate LastHoldEventAt(rs: seq<Entry>, k: nat, run: string, step: DecisionStep) {
    && k < |rs| && rs[k].run == run && rs[k].step == step && IsHoldEvent(rs[k])
    && forall j | k < j < |rs| && rs[j].run == run :: !IsHoldEvent(rs[j])
  }

  ghost predicate LastHoldEvent(rs: seq<Entry>, run: string, step: DecisionStep) {
    exists k: nat :: LastHoldEventAt(rs, k, run, step)
  }

  lemma LastHoldEventAtOneMore(init: seq<Entry>, r: Entry, k: nat, run: string, step: DecisionStep)
    ensures LastHoldEventAt(init + [r], k, run, step)
            <==> if IsHoldEvent(r) && r.run == run then k == |init| && r.step == step
                 else LastHoldEventAt(init, k, run, step)
  {
    hide IsHoldEvent;
    var rs := init + [r];
    assert rs[|init|] == r;
    assert forall j | 0 <= j < |init| :: rs[j] == init[j];
  }

  lemma LastHoldEventOneMore(init: seq<Entry>, r: Entry, run: string, step: DecisionStep)
    ensures LastHoldEvent(init + [r], run, step)
            <==> if IsHoldEvent(r) && r.run == run then r.step == step else LastHoldEvent(init, run, step)
  {
    hide IsHoldEvent, LastHoldEventAt;
    forall k: nat { LastHoldEventAtOneMore(init, r, k, run, step); }
    LastHoldEventAtOneMore(init, r, |init|, run, step);
  }

  lemma {:induction false} LatestEventIs(rs: seq<Entry>, run: string, step: DecisionStep)
    ensures LatestEvent(rs, run) == Some(step) <==> LastHoldEvent(rs, run, step)
  {
    if rs != [] {
      hide LastHoldEvent;
      var init, r := rs[..|rs| - 1], rs[|rs| - 1];
      LatestEventIs(init, run, step);
      LastHoldEventOneMore(init, r, run, step);
      assert rs == init + [r];
    }
  }

  /**
   * A record is sampled, with its time and the count it leaves, exactly when it is an allocation
   * by a run that held nothing or a release by one that held; a repeat or a stray is not.
   */
  lemma SampledIffItChangesWhoHolds(rs: seq<Entry>, r: Entry)
    ensures var holding := LastHoldEvent(rs, r.run, ALLOCATED);
            var more := Samples(rs + [r]);
            var held := |Holders(rs)|;
            if r.at.Some? && r.step == ALLOCATED && !holding then
              more == Samples(rs) + [HoldSample(r.at.value, held + 1)]
            else if r.at.Some? && r.step == RELEASED && holding then
              held > 0 && more == Samples(rs) + [HoldSample(r.at.value, held - 1)]
            else
              more == Samples(rs)
  {
    hide Holders, LatestEvent, LastHoldEvent, Samples;
    assert (rs + [r])[..|rs|] == rs;
    LatestEventIs(rs, r.run, ALLOCATED);
    HoldersAre(rs, r.run);
    HoldersOneMore(rs + [r]);
    SamplesOneMore(rs + [r]);
  }

  lemma {:induction false} ZeroSamplesCounts(samples: seq<HoldSample>)
    ensures ZeroSamples(samples) == |set k | 0 <= k < |samples| && samples[k].held == 0|
  {
    if samples != [] {
      var n := |samples| - 1;
      var init := samples[..n];
      ZeroSamplesCounts(init);
      var before := set k | 0 <= k < n && init[k].held == 0;
      var all := set k | 0 <= k < |samples| && samples[k].held == 0;
      assert all == before + if samples[n].held == 0 then {n} else {};
    }
  }
}
