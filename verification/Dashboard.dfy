/** What the dashboard shows and hears of an operation, by the records that were delivered. */
module Dashboard {
  import opened Shared
  import opened Policy
  import opened Network
  import opened Activities
  import opened Workflow
  import opened WorkflowSafety
  import opened ReadModel
  import opened DecisionLog

  // ── The last word on each field ─────────────────────────────────────

  /** `v` is the last value given: nothing, if none ever was. */
  ghost predicate IsLatest<T(!new)>(xs: seq<Option<T>>, v: Option<T>) {
    if v.None? then forall k | 0 <= k < |xs| :: xs[k].None?
    else exists k :: 0 <= k < |xs| && xs[k] == v && forall j | k < j < |xs| :: xs[j].None?
  }

  lemma LatestOneMore<T(!new)>(xs: seq<Option<T>>, v: Option<T>, x: Option<T>)
    requires IsLatest(xs, v)
    ensures IsLatest(xs + [x], if x.Some? then x else v)
  {
    var xs' := xs + [x];
    if x.Some? {
      assert xs'[|xs|] == x;
    } else if v.Some? {
      var k :| 0 <= k < |xs| && xs[k] == v && forall j | k < j < |xs| :: xs[j].None?;
      assert xs'[k] == v && forall j | k < j < |xs'| :: xs'[j].None?;
    }
  }

  /** What each item of a trail says in one field. */
  ghost function Said<T>(items: seq<Item>, field: Record -> Option<T>): seq<Option<T>> {
    seq(|items|, k requires 0 <= k < |items| => if items[k].Emitted? then field(items[k].record) else None)
  }

  lemma SaidOneMore<T(!new)>(items: seq<Item>, field: Record -> Option<T>, v: Option<T>)
    requires items != [] && IsLatest(Said(items[..|items| - 1], field), v)
    ensures var last := items[|items| - 1];
            IsLatest(Said(items, field),
                     if last.Emitted? && field(last.record).Some? then field(last.record) else v)
  {
    var init, last := items[..|items| - 1], items[|items| - 1];
    var x := if last.Emitted? then field(last.record) else None;
    LatestOneMore(Said(init, field), v, x);
    assert Said(items, field) == Said(init, field) + [x];
  }

  function CriticalitySaid(r: Record): Option<Criticality> { r.criticality }

  function CongestionSaid(r: Record): Option<CongestionLevel> { r.congestion }

  function ReachableSaid(r: Record): Option<bool> { r.reachable }

  function ActionSaid(r: Record): Option<NetworkAction> { r.action }

  function SessionSaid(r: Record): Option<string> { r.session }

  function QosSaid(r: Record): Option<QosStatus> { r.qos }

  function SliceSaid(r: Record): Option<string> { r.slice }

  /** Every field shows the last word on it, and a later record that says nothing of it does not clear it. */
  lemma {:induction false} ShowsTheLatest(items: seq<Item>)
    ensures var o := View(items);
            && IsLatest(Said(items, CriticalitySaid), o.criticality)
            && IsLatest(Said(items, CongestionSaid), o.congestion)
            && IsLatest(Said(items, ReachableSaid), o.reachable)
            && IsLatest(Said(items, ActionSaid), o.action)
            && IsLatest(Said(items, SessionSaid), o.session)
            && IsLatest(Said(items, QosSaid), o.qos)
            && IsLatest(Said(items, SliceSaid), o.slice)
    decreases |items|
  {
    hide IsLatest, Said;
    if items == [] {
      NothingSaid();
    } else {
      var init := items[..|items| - 1];
      ShowsTheLatest(init);
      var before := View(init);
      SaidOneMore(items, CriticalitySaid, before.criticality);
      SaidOneMore(items, CongestionSaid, before.congestion);
      SaidOneMore(items, ReachableSaid, before.reachable);
      SaidOneMore(items, ActionSaid, before.action);
      SaidOneMore(items, SessionSaid, before.session);
      SaidOneMore(items, QosSaid, before.qos);
      SaidOneMore(items, SliceSaid, before.slice);
    }
  }

  lemma NothingSaid()
    ensures IsLatest(Said([], CriticalitySaid), None) && IsLatest(Said([], CongestionSaid), None)
    ensures IsLatest(Said([], ReachableSaid), None) && IsLatest(Said([], ActionSaid), None)
    ensures IsLatest(Said([], SessionSaid), None) && IsLatest(Said([], QosSaid), None)
    ensures IsLatest(Said([], SliceSaid), None)
  {
  }

  // ── The status ──────────────────────────────────────────────────────

  /** What puts an operation in each status. */
  predicate PutsIn(i: Item, s: OperationStatus) {
    match s
    case PENDING => false
    case ASSESSING =>
      i.Emitted? && (i.record.step in {DEVICE_CHECKED, CONGESTION_CHECKED, CRITICALITY_ASSESSED}
                     || (i.record.step == DECIDED && i.record.action != Some(NONE)))
    case IS_ALLOCATED => i.Emitted? && i.record.step == ALLOCATED
    case MONITORING => i.Emitted? && i.record.step == QOS_STATUS_CHANGED && i.record.qos == Some(AVAILABLE)
    case RELEASING => i.CompletionSignalled?
    case COMPLETED => i.Emitted? && (i.record.step == RELEASED || IsRefusal(i))
    case IS_FAILED => i.Emitted? && i.record.step == FAILED
  }

  /** A session that became anything but AVAILABLE moves the operation nowhere. */
  predicate Moves(i: Item) {
    !(i.Emitted? && i.record.step == QOS_STATUS_CHANGED && i.record.qos != Some(AVAILABLE))
  }

  ghost predicate LastMoved(items: seq<Item>, s: OperationStatus) {
    exists k :: 0 <= k < |items| && PutsIn(items[k], s) && forall j | k < j < |items| :: !Moves(items[j])
  }

  ghost predicate NothingMoved(items: seq<Item>) { forall k | 0 <= k < |items| :: !Moves(items[k]) }

  lemma MovingIs(items: seq<Item>, s: OperationStatus)
    requires items != []
    ensures var before, last := View(items[..|items| - 1]).status, items[|items| - 1];
            && (Moves(last) ==> (View(items).status == s <==> PutsIn(last, s)))
            && (!Moves(last) ==> View(items).status == before && !PutsIn(last, s))
  {
  }

  lemma LastMovedOneMore(init: seq<Item>, last: Item, s: OperationStatus)
    ensures Moves(last) ==> (LastMoved(init + [last], s) <==> PutsIn(last, s))
    ensures !Moves(last) && !PutsIn(last, s) ==> (LastMoved(init + [last], s) <==> LastMoved(init, s))
    ensures NothingMoved(init + [last]) <==> NothingMoved(init) && !Moves(last)
  {
    hide PutsIn, Moves;
    var items := init + [last];
    assert items[|init|] == last;
    if LastMoved(items, s) {
      var k :| 0 <= k < |items| && PutsIn(items[k], s) && forall j | k < j < |items| :: !Moves(items[j]);
      if k < |init| {
        assert PutsIn(init[k], s);
        assert forall j | k < j < |init| :: init[j] == items[j];
      }
    }
    if LastMoved(init, s) {
      var k :| 0 <= k < |init| && PutsIn(init[k], s) && forall j | k < j < |init| :: !Moves(init[j]);
      assert PutsIn(items[k], s);
      assert forall j | k < j < |init| :: items[j] == init[j];
    }
    if NothingMoved(items) { assert forall k | 0 <= k < |init| :: init[k] == items[k]; }
  }

  /** The status is the one the last item that moves an operation puts it in, and the first one before any. */
  lemma {:induction false} StatusIsTheLatest(items: seq<Item>, s: OperationStatus)
    ensures View(items).status == s <==> LastMoved(items, s) || (s == PENDING && NothingMoved(items))
    decreases |items|
  {
    hide View, LastMoved, NothingMoved, PutsIn, Moves;
    if items == [] {
      NothingHappened(s);
    } else {
      var init, last := items[..|items| - 1], items[|items| - 1];
      StatusIsTheLatest(init, s);
      MovingIs(items, s);
      LastMovedOneMore(init, last, s);
      assert items == init + [last];
      NothingPutsInPending(last);
    }
  }

  lemma NothingPutsInPending(i: Item)
    ensures !PutsIn(i, PENDING)
  {
  }

  lemma NothingHappened(s: OperationStatus)
    ensures View([]).status == s <==> LastMoved([], s) || (s == PENDING && NothingMoved([]))
  {
  }

  /** A completion time is stamped by a release or a refusal, and by nothing else. */
  lemma {:induction false} StampedByReleaseOrRefusal(items: seq<Item>)
    ensures View(items).completed <==> exists k :: 0 <= k < |items| && PutsIn(items[k], COMPLETED)
    decreases |items|
  {
    if items != [] {
      var init, last := items[..|items| - 1], items[|items| - 1];
      StampedByReleaseOrRefusal(init);
      if k :| 0 <= k < |init| && PutsIn(init[k], COMPLETED) { assert PutsIn(items[k], COMPLETED); }
      if k :| 0 <= k < |items| && PutsIn(items[k], COMPLETED) {
        if k < |init| { assert PutsIn(init[k], COMPLETED); }
      }
    }
  }

  // ── What a run's trail shows as held ────────────────────────────────

  /** The session and the slice shown are those the workflow has on record. */
  ghost predicate NamesWhatIsHeld(op: Op) {
    var o := View(Delivered(op.trail));
    o.session == op.alloc.session && o.slice == op.alloc.slice
  }

  lemma OneMoreRecord(t: seq<Record>, r: Record)
    ensures View(Delivered(t + [r])) == Apply(View(Delivered(t)), PatchOf(r))
  {
    hide Apply, PatchOf;
    assert Delivered(t + [r])[..|t|] == Delivered(t);
  }

  /** One more record, saying nothing of what is held or naming what now is. */
  lemma EmittingNames(op: Op, op': Op, r: Record)
    requires NamesWhatIsHeld(op) && op'.trail == op.trail + [r]
    requires op'.alloc.session == Or(r.session, op.alloc.session) && op'.alloc.slice == Or(r.slice, op.alloc.slice)
    ensures NamesWhatIsHeld(op')
  {
    OneMoreRecord(op.trail, r);
  }

  lemma EarlyStepNames(op: Op, net: Net, i: Input)
    requires OpInv(op) && NamesWhatIsHeld(op) && Enabled(op, i)
    requires BeforeAllocation(op.pc) && !op.pc.Allocating?
    ensures NamesWhatIsHeld(Step(op, net, i).0)
  {
    hide View, NamesWhatIsHeld;
    var t, t' := op.trail, Step(op, net, i).0.trail;
    if |t'| > |t| { EmittingNames(op, op.(trail := t + [t'[|t|]]), t'[|t|]); }
    if |t'| > |t| + 1 {
      EmittingNames(op.(trail := t + [t'[|t|]]), op.(trail := t'), t'[|t| + 1]);
    }
    SameShown(op.(trail := t'), Step(op, net, i).0);
  }

  lemma SameShown(op: Op, op': Op)
    requires NamesWhatIsHeld(op) && op'.trail == op.trail
    requires op'.alloc.session == op.alloc.session && op'.alloc.slice == op.alloc.slice
    ensures NamesWhatIsHeld(op')
  {
  }

  lemma AllocateNames(op: Op, net: Net, f: AllocateFaults)
    requires OpInv(op) && NamesWhatIsHeld(op) && op.pc.Allocating?
    ensures NamesWhatIsHeld(OnAllocate(op, net, f).0)
  {
    hide View, NamesWhatIsHeld, Allocate;
    var op' := OnAllocate(op, net, f).0;
    if |op'.trail| > |op.trail| { EmittingNames(op, op', op'.trail[|op.trail|]); } else { SameShown(op, op'); }
  }

  lemma EscalationNames(op: Op, net: Net, attachRaises: bool, r: Record)
    requires NamesWhatIsHeld(op) && op.alloc.session.Some?
    ensures NamesWhatIsHeld(TryEscalate(op, net, attachRaises, r).0)
  {
    hide View, NamesWhatIsHeld, Escalate;
    var op' := TryEscalate(op, net, attachRaises, r).0;
    if |op'.trail| > |op.trail| { EmittingNames(op, op', op'.trail[|op.trail|]); } else { SameShown(op, op'); }
  }

  lemma WakeNames(op: Op, net: Net, attachRaises: bool)
    requires NamesWhatIsHeld(op) && op.alloc.session.Some?
    ensures NamesWhatIsHeld(WakeBody(op, net, attachRaises).0)
  {
    hide View, NamesWhatIsHeld, TryEscalate, WantsSlice, SuspensionPolicy;
    if SuspensionDiffers(op) && op.inbox.suspended {
      var halted := op.(loop := op.loop.(wasSuspended := true));
      var policy := SuspensionPolicy(halted);
      var r := Record(DECIDED, action := Some(policy.action), reachable := Some(op.inbox.reachable != Some(false)),
                      rule := Some(policy.rule));
      EmittingNames(op, Emit(halted, r), r);
      EscalationNames(Emit(halted, r), net, attachRaises, Record(ALLOCATED, rule := Some(policy.rule)));
    } else if !SuspensionDiffers(op) && !DeviceDiffers(op) {
      var known := op.(loop := op.loop.(known := op.inbox.congestion));
      SameShown(op, known);
      EscalationNames(known, net, attachRaises, Record(ALLOCATED, congestion := op.inbox.congestion));
    } else {
      var op' := WakeBody(op, net, attachRaises).0;
      if |op'.trail| > |op.trail| { EmittingNames(op, op', op'.trail[|op.trail|]); } else { SameShown(op, op'); }
    }
  }

  lemma LaterStepNames(op: Op, net: Net, i: Input)
    requires OpInv(op) && NamesWhatIsHeld(op) && Enabled(op, i) && !BeforeAllocation(op.pc)
    ensures NamesWhatIsHeld(Step(op, net, i).0)
  {
    hide View, NamesWhatIsHeld, WakeBody, TimeoutBody, Release, PollQod, Judge, Deliver, Awaited, WakeAwaits;
    var op' := Step(op, net, i).0;
    if i.Wake? {
      WakeNames(op, net, i.attachRaises);
      SameShown(if op.inbox.completed then op else WakeBody(op, net, i.attachRaises).0, op');
    } else {
      if i.Timeout? { TimeoutNotes(op, net, i.extendRaises); }
      if |op'.trail| > |op.trail| { EmittingNames(op, op', op'.trail[|op.trail|]); } else { SameShown(op, op'); }
    }
  }

  lemma StepNames(op: Op, net: Net, i: Input)
    requires OpInv(op) && NamesWhatIsHeld(op)
    ensures NamesWhatIsHeld(Step(op, net, i).0)
  {
    hide NamesWhatIsHeld, OpInv, OnAllocate;
    if Enabled(op, i) {
      if !BeforeAllocation(op.pc) {
        LaterStepNames(op, net, i);
      } else if op.pc.Allocating? {
        if i.AllocateTry? { AllocateNames(op, net, i.allocFaults); } else { SameShown(op, Step(op, net, i).0); }
      } else {
        EarlyStepNames(op, net, i);
      }
    }
  }

  lemma {:induction false} RunNames(op: Op, h: seq<Turn>)
    requires OpInv(op) && NamesWhatIsHeld(op)
    ensures NamesWhatIsHeld(Exec(op, h))
    decreases |h|
  {
    hide Step, NamesWhatIsHeld, OpInv;
    if h != [] {
      StepKeepsInv(op, h[0].net, h[0].input);
      StepNames(op, h[0].net, h[0].input);
      RunNames(Step(op, h[0].net, h[0].input).0, h[1..]);
    }
  }

  /** At every point of every run, the dashboard names exactly the session and the slice the workflow has on record. */
  lemma DashboardNamesWhatIsHeld(device: string, profile: string, expected: int, h: seq<Turn>)
    ensures NamesWhatIsHeld(Exec(Started(device, profile, expected), h))
  {
    hide Exec;
    StartHasInv(device, profile, expected);
    assert Delivered([]) == [];
    RunNames(Started(device, profile, expected), h);
  }

  // ── What listeners hear ─────────────────────────────────────────────

  ghost predicate SentBefore(ds: seq<Dto>, d: Dto) { exists k :: 0 <= k < |ds| && SameEmit(ds[k], d) }

  /**
   * A first arrival is announced, after the operation it changed if there is one to change and
   * before the status of a session if it carries that. Nothing else is, and a repeat is not.
   */
  lemma FirstArrivalPublishes(s: Log, ds: seq<Dto>, d: Dto)
    requires s.index == map[]
    ensures var before, after := AllRecorded(s, ds), AllRecorded(s, ds + [d]);
            var target := (d.organization, d.operation);
            && before.published <= after.published
            && var heard, known := after.published[|before.published|..], target in s.operations;
            && (SentBefore(ds, d) ==> heard == [] && after == before)
            && (!SentBefore(ds, d) ==>
                  && |heard| == 1 + (if known then 1 else 0) + (if d.record.step == QOS_STATUS_CHANGED then 1 else 0)
                  && heard[if known then 1 else 0] == DecisionRecorded(d)
                  && (known ==> target in after.operations
                                && heard[0] == OperationUpdated(d.organization, after.operations[target]))
                  && (d.record.step == QOS_STATUS_CHANGED ==>
                        heard[|heard| - 1]
                        == QodStatusAnnounced(d.organization, d.operation, d.record.session, d.record.qos)))
            && (forall other | other in s.operations && other != target ::
                  other in after.operations && other in before.operations
                  && after.operations[other] == before.operations[other])
  {
    hide IdempotencyKey, SameEmit, Apply, PatchOf;
    assert (ds + [d])[..|ds|] == ds;
    assert AllRecorded(s, ds + [d]) == Recorded(AllRecorded(s, ds), d);
    RefusedIffSentBefore(s, ds, d);
    OperationsAreKept(s, ds);
  }

  lemma {:induction false} OperationsAreKept(s: Log, ds: seq<Dto>)
    ensures AllRecorded(s, ds).operations.Keys == s.operations.Keys
  {
    hide IdempotencyKey, Apply, PatchOf;
    if ds != [] { OperationsAreKept(s, ds[..|ds| - 1]); }
  }

  /** The organization on file for an emit is that of its first arrival. */
  lemma {:induction false} HolderIsTheFirst(s: Log, ds: seq<Dto>, k: nat)
    requires s.index == map[] && k < |ds| && forall j | 0 <= j < k :: !SameEmit(ds[j], ds[k])
    ensures IdempotencyKey(ds[k]) in AllRecorded(s, ds).index
    ensures AllRecorded(s, ds).index[IdempotencyKey(ds[k])] == ds[k].organization
  {
    hide IdempotencyKey, SameEmit, Apply, PatchOf;
    var init, last := ds[..|ds| - 1], ds[|ds| - 1];
    IndexIsWhatArrived(s, init);
    if k < |init| {
      HolderIsTheFirst(s, init, k);
    } else {
      forall j | 0 <= j < |init| ensures IdempotencyKey(init[j]) != IdempotencyKey(last) {
        KeyIdentifiesTheEmit(init[j], last);
      }
    }
  }

  /** The decisions announced. */
  function Announced(ns: seq<Notice>): seq<Dto> {
    if ns == [] then []
    else
      var init, last := Announced(ns[..|ns| - 1]), ns[|ns| - 1];
      if last.DecisionRecorded? then init + [last.dto] else init
  }

  lemma AnnouncedOneMore(ns: seq<Notice>, n: Notice)
    ensures Announced(ns + [n]) == Announced(ns) + if n.DecisionRecorded? then [n.dto] else []
  {
    assert (ns + [n])[..|ns|] == ns;
  }

  lemma NothingAnnounced(ns: seq<Notice>, more: seq<Notice>)
    requires |more| <= 1 && (more != [] ==> !more[0].DecisionRecorded?)
    ensures Announced(ns + more) == Announced(ns)
  {
    if more == [] { assert ns + more == ns; } else { AnnouncedOneMore(ns, more[0]); assert more == [more[0]]; }
  }

  lemma RecordingAnnounces(s: Log, d: Dto)
    ensures Announced(Recorded(s, d).published)
            == Announced(s.published) + if IdempotencyKey(d) in s.index then [] else [d]
  {
    hide IdempotencyKey, Apply, PatchOf, Announced;
    if IdempotencyKey(d) !in s.index {
      var target, s' := (d.organization, d.operation), Recorded(s, d);
      var updated := if target in s.operations then [OperationUpdated(d.organization, s'.operations[target])] else [];
      var status := if d.record.step == QOS_STATUS_CHANGED
                    then [QodStatusAnnounced(d.organization, d.operation, d.record.session, d.record.qos)] else [];
      assert s'.published == s.published + updated + [DecisionRecorded(d)] + status;
      NothingAnnounced(s.published, updated);
      AnnouncedOneMore(s.published + updated, DecisionRecorded(d));
      NothingAnnounced(s.published + updated + [DecisionRecorded(d)], status);
    }
  }

  /** Listeners hear of each decision once, in the order in which they first arrived. */
  lemma {:induction false} EachDecisionIsAnnouncedOnce(s: Log, ds: seq<Dto>)
    requires s.index == map[]
    ensures Announced(AllRecorded(s, ds).published) == Announced(s.published) + FirstArrivals(ds)
  {
    hide IdempotencyKey, Recorded, Announced;
    if ds != [] {
      var init, last := ds[..|ds| - 1], ds[|ds| - 1];
      EachDecisionIsAnnouncedOnce(s, init);
      IndexIsWhatArrived(s, init);
      RecordingAnnounces(AllRecorded(s, init), last);
    }
  }
}
