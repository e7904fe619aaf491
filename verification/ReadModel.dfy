/** The dashboard's projection of a trail, and how far it can be trusted. */
module ReadModel {
  import opened Shared
  import opened Policy
  import opened Network
  import opened Workflow
  import opened WorkflowSafety
  import opened WorkflowLapse
  import opened Trail

  datatype OperationStatus = PENDING | ASSESSING | IS_ALLOCATED | MONITORING | RELEASING | COMPLETED | IS_FAILED

  /** `completed` says whether a completion time has been stamped; the stamp is the server's clock. */
  datatype Operation = Operation(
    status: OperationStatus,
    criticality: Option<Criticality>,
    congestion: Option<CongestionLevel>,
    reachable: Option<bool>,
    action: Option<NetworkAction>,
    session: Option<string>,
    qos: Option<QosStatus>,
    slice: Option<string>,
    completed: bool)

  const REGISTERED := Operation(PENDING, None, None, None, None, None, None, None, false)

  datatype Patch = Patch(
    nameonly status: Option<OperationStatus> := None,
    nameonly criticality: Option<Criticality> := None,
    nameonly congestion: Option<CongestionLevel> := None,
    nameonly reachable: Option<bool> := None,
    nameonly action: Option<NetworkAction> := None,
    nameonly session: Option<string> := None,
    nameonly qos: Option<QosStatus> := None,
    nameonly slice: Option<string> := None,
    nameonly completed: bool := false)

  function Or<T>(a: Option<T>, b: Option<T>): Option<T> { if a.Some? then a else b }

  /** `$set`: only the fields the patch carries. */
  function Apply(o: Operation, p: Patch): Operation {
    Operation(if p.status.Some? then p.status.value else o.status,
              Or(p.criticality, o.criticality), Or(p.congestion, o.congestion), Or(p.reachable, o.reachable),
              Or(p.action, o.action), Or(p.session, o.session), Or(p.qos, o.qos), Or(p.slice, o.slice),
              p.completed || o.completed)
  }

  function StepStatus(s: DecisionStep): Option<OperationStatus> {
    match s
    case DEVICE_CHECKED => Some(ASSESSING)
    case CONGESTION_CHECKED => Some(ASSESSING)
    case CRITICALITY_ASSESSED => Some(ASSESSING)
    case ALLOCATED => Some(IS_ALLOCATED)
    case RELEASED => Some(COMPLETED)
    case FAILED => Some(IS_FAILED)
    case DECIDED => None
    case QOS_STATUS_CHANGED => None
  }

  function PatchOf(r: Record): Patch {
    Patch(status :=
            if r.step == DECIDED then Some(if r.action == Some(NONE) then COMPLETED else ASSESSING)
            else if r.step == QOS_STATUS_CHANGED && r.qos == Some(AVAILABLE) then Some(MONITORING)
            else StepStatus(r.step),
          criticality := r.criticality, congestion := r.congestion, reachable := r.reachable,
          action := r.action, session := r.session, qos := r.qos, slice := r.slice,
          completed := r.step == RELEASED || (r.step == DECIDED && r.action == Some(NONE)))
  }

  predicate InFlight(s: OperationStatus) { s != COMPLETED && s != IS_FAILED }

  /** What the dashboard shows as holding a session or a slice. */
  predicate HoldsPremium(o: Operation) { InFlight(o.status) && (o.session.Some? || o.slice.Some?) }

  // ── What reaches the projection, in order ───────────────────────────

  /** A record of the trail, or the server's own note that completion was signalled. */
  datatype Item = Emitted(record: Record) | CompletionSignalled

  function View(items: seq<Item>): Operation {
    if items == [] then REGISTERED
    else
      var before := View(items[..|items| - 1]);
      match items[|items| - 1]
      case Emitted(r) => Apply(before, PatchOf(r))
      case CompletionSignalled => Apply(before, Patch(status := Some(RELEASING)))
  }

  function Records(items: seq<Item>): seq<Record> {
    if items == [] then []
    else match items[|items| - 1]
      case Emitted(r) => Records(items[..|items| - 1]) + [r]
      case CompletionSignalled => Records(items[..|items| - 1])
  }

  predicate IsRefusal(i: Item) { i.Emitted? && i.record.step == DECIDED && i.record.action == Some(NONE) }

  /** Connectivity is out there: allocated, and not yet given back. */
  predicate Holding(p: Phase) { p.Open? || p.Held? }

  /** Exactly what the projection shows, from where the trail stands and what came last. */
  ghost predicate ShownAsHolding(items: seq<Item>, p: Phase) {
    var last := if items == [] then CompletionSignalled else items[|items| - 1];
    (Holding(p) && !IsRefusal(last)) || (p == Closed && last == CompletionSignalled)
  }

  ghost predicate ViewInv(items: seq<Item>, p: Phase) {
    var o := View(items);
    && (o.session.Some? <==> AllocatedSince(p))
    && (!AllocatedSince(p) ==> o.slice.None?)
    && (p.Open? ==> InFlight(o.status))
    && (HoldsPremium(o) <==> ShownAsHolding(items, p))
  }

  function PhaseOf(items: seq<Item>): Option<Phase> { Parse(Records(items)) }

  lemma OneMoreItem(items: seq<Item>, p: Phase, r: Record)
    requires items != [] && items[|items| - 1] == Emitted(r)
    requires ViewInv(items[..|items| - 1], p) && Advance(p, r).Some?
    ensures ViewInv(items, Advance(p, r).value)
  {
  }

  lemma OneMoreSignal(items: seq<Item>, p: Phase)
    requires items != [] && items[|items| - 1] == CompletionSignalled
    requires ViewInv(items[..|items| - 1], p)
    ensures ViewInv(items, p)
  {
  }

  /** The projection, exactly, for any grammatical trail with completion notes anywhere in it. */
  lemma {:induction false} ProjectionIs(items: seq<Item>)
    requires PhaseOf(items).Some?
    ensures ViewInv(items, PhaseOf(items).value)
    decreases |items|
  {
    hide View, Apply, PatchOf, ViewInv, Advance;
    if items == [] {
      EmptyView();
    } else {
      var init := items[..|items| - 1];
      match items[|items| - 1] {
        case Emitted(r) =>
          var t := Records(init);
          ParseOneMore(t, r);
          ProjectionIs(init);
          OneMoreItem(items, Parse(t).value, r);
        case CompletionSignalled =>
          ProjectionIs(init);
          OneMoreSignal(items, PhaseOf(init).value);
      }
    }
  }

  lemma EmptyView()
    ensures ViewInv([], Blank)
  {
  }

  /** When the projection tells the truth, and the two ways it does not. */
  lemma ProjectionAgreesExactlyWhen(items: seq<Item>)
    requires items != [] && PhaseOf(items).Some?
    ensures var p, last := PhaseOf(items).value, items[|items| - 1];
            (HoldsPremium(View(items)) <==> Holding(p))
            <==> !(Holding(p) && IsRefusal(last)) && !(p == Closed && last == CompletionSignalled)
  {
    hide View, Apply, PatchOf, Advance, HoldsPremium;
    ProjectionIs(items);
  }

  // ── For the trails that runs write ──────────────────────────────────

  function Delivered(t: seq<Record>): seq<Item> {
    seq(|t|, k requires 0 <= k < |t| => Emitted(t[k]))
  }

  lemma {:induction false} DeliveredRecords(t: seq<Record>)
    ensures Records(Delivered(t)) == t
    decreases |t|
  {
    if t != [] {
      var init := t[..|t| - 1];
      DeliveredRecords(init);
      assert Delivered(t)[..|t| - 1] == Delivered(init);
      assert t == init + [t[|t| - 1]];
    }
  }

  /** An allocated trail that refuses again, later: what a suspension on an absent device writes. */
  ghost predicate RefusesMidRun(t: seq<Record>) {
    exists k :: 4 < k < |t| && t[k].step == DECIDED && t[k].action == Some(NONE)
  }

  ghost predicate AgreesAt(t: seq<Record>, k: nat)
    requires k <= |t|
  {
    Parse(t[..k]).Some? && (HoldsPremium(View(Delivered(t[..k]))) <==> Holding(Parse(t[..k]).value))
  }

  ghost predicate JustRefused(t: seq<Record>, k: nat)
    requires k <= |t|
  {
    && 4 < k && Parse(t[..k]).Some? && Holding(Parse(t[..k]).value)
    && t[k - 1].step == DECIDED && t[k - 1].action == Some(NONE)
  }

  lemma AgreementAt(t: seq<Record>, k: nat)
    requires Parse(t).Some? && k <= |t|
    ensures AgreesAt(t, k) <==> !JustRefused(t, k)
  {
    hide View, HoldsPremium, Advance;
    PrefixParses(t, k);
    DeliveredRecords(t[..k]);
    TrailsAreOrdered(t[..k]);
    ProjectionIs(Delivered(t[..k]));
    if k > 0 {
      assert Delivered(t[..k])[k - 1] == Emitted(t[k - 1]);
    }
  }

  lemma HoldingMidRun(t: seq<Record>, k: nat)
    requires Parse(t).Some? && 4 < k < |t| && t[k].step == DECIDED
    ensures Parse(t[..k + 1]).Some? && Holding(Parse(t[..k + 1]).value)
  {
    PrefixParses(t, k + 1);
    PrefixParses(t, k);
    assert t[..k + 1][..k] == t[..k];
    TrailsAreOrdered(t[..k]);
  }

  /**
   * Delivered in order, a grammatical trail is shown correctly at every point
   * if and only if no decision of NONE was recorded after the allocation.
   */
  lemma ReadModelAgreesIff(t: seq<Record>)
    requires Parse(t).Some?
    ensures (forall k | 0 <= k <= |t| :: AgreesAt(t, k)) <==> !RefusesMidRun(t)
  {
    hide View, HoldsPremium, Advance, AgreesAt;
    forall k | 0 <= k <= |t|
      ensures AgreesAt(t, k) <==> !JustRefused(t, k)
    {
      AgreementAt(t, k);
    }
    if RefusesMidRun(t) {
      var k :| 4 < k < |t| && t[k].step == DECIDED && t[k].action == Some(NONE);
      HoldingMidRun(t, k);
      assert !AgreesAt(t, k + 1);
    } else {
      forall k | 0 <= k <= |t| ensures AgreesAt(t, k) {
        if 4 < k && t[k - 1].step == DECIDED && t[k - 1].action == Some(NONE) {
          MidRunIsLater(t, k);
        }
      }
    }
  }

  lemma MidRunIsLater(t: seq<Record>, k: nat)
    requires Parse(t).Some? && 4 < k <= |t| && t[k - 1].step == DECIDED && t[k - 1].action == Some(NONE)
    ensures JustRefused(t, k) ==> RefusesMidRun(t)
  {
    PrefixParses(t, k);
    TrailsAreOrdered(t[..k]);
    if JustRefused(t, k) {
      assert t[..k][4].step == ALLOCATED;
      assert 4 < k - 1 < |t|;
    }
  }

  /** A run that gave back is shown as completed, with its completion stamped. */
  lemma CompleteTrailEndsCompleted(device: string, profile: string, expected: int, h: seq<Turn>)
    requires Exec(Started(device, profile, expected), h).pc == Done(GaveBack)
    ensures var o := View(Delivered(Exec(Started(device, profile, expected), h).trail));
            o.status == COMPLETED && o.completed && !HoldsPremium(o)
  {
    hide Exec, Advance;
    EveryTrailIsGrammatical(device, profile, expected, h);
    var t := Exec(Started(device, profile, expected), h).trail;
    assert Delivered(t)[|t| - 1] == Emitted(t[|t| - 1]);
  }

  /** Which branch writes that record: a halt handled while the device is reported absent. */
  lemma RefusalMidRunIsAHaltWithoutDevice(op: Op, net: Net, attachRaises: bool)
    requires OpInv(op) && op.pc.Waiting? && Awaited(op) && !op.inbox.completed
    ensures var t := WakeBody(op, net, attachRaises).0.trail;
            (|t| > |op.trail| && t[|op.trail|].step == DECIDED && t[|op.trail|].action == Some(NONE))
            <==> (SuspensionDiffers(op) && op.inbox.suspended && op.inbox.reachable == Some(false))
  {
  }

  // ── Over whole runs ─────────────────────────────────────────────────

  /** A halt that is handled while the device is reported unreachable. */
  predicate HaltsWithoutDevice(op: Op, i: Input) {
    && Enabled(op, i) && i.Wake? && !op.inbox.completed
    && op.inbox.suspended && !op.loop.wasSuspended && op.inbox.reachable == Some(false)
  }

  predicate EverHaltsWithoutDevice(op: Op, h: seq<Turn>)
    decreases |h|
  {
    h != [] && (HaltsWithoutDevice(op, h[0].input)
                || EverHaltsWithoutDevice(Step(op, h[0].net, h[0].input).0, h[1..]))
  }

  /** After the one record a wake opens with, only an allocation can follow. */
  lemma WakeWrites(op: Op, net: Net, attachRaises: bool)
    ensures var t := WakeBody(op, net, attachRaises).0.trail;
            && op.trail <= t && |t| <= |op.trail| + 2
            && (|t| == |op.trail| + 2 ==> t[|op.trail| + 1].step == ALLOCATED)
  {
    hide Decide, Judge, JudgeSuspended;
    assert op.trail <= WakeBody(op, net, attachRaises).0.trail;
  }

  lemma WakeRefusesIff(op: Op, net: Net, i: Input)
    requires OpInv(op) && TrailInv(op) && Enabled(op, i) && i.Wake? && !op.inbox.completed
    ensures RefusesMidRun(Step(op, net, i).0.trail) <==> RefusesMidRun(op.trail) || HaltsWithoutDevice(op, i)
  {
    hide WakeBody, WakeAwaits, Parse;
    var t, t' := op.trail, Step(op, net, i).0.trail;
    assert t' == WakeBody(op, net, i.attachRaises).0.trail;
    WakeWrites(op, net, i.attachRaises);
    TrailsAreOrdered(t);
    RefusalMidRunIsAHaltWithoutDevice(op, net, i.attachRaises);
    assert forall k | 0 <= k < |t| :: t'[k] == t[k];
    if HaltsWithoutDevice(op, i) { assert 4 < |t| < |t'| && t'[|t|].step == DECIDED; }
  }

  /** Steps up to the verdict write a trail too short to refuse mid-run. */
  predicate Early(i: Input) { i.DeviceRead? || i.CongestionRead? || i.Assessed? || i.AssessmentFailed? }

  lemma EarlyStepIsShort(op: Op, net: Net, i: Input)
    requires OpInv(op) && TrailInv(op) && Enabled(op, i) && Early(i)
    ensures |op.trail| <= |Step(op, net, i).0.trail| <= 4
  {
    hide Parse, Judge, Decide;
    var op' := Step(op, net, i).0;
    StepKeepsInv(op, net, i);
    StepKeepsTrail(op, net, i);
    StepIsLater(op, net, i);
    assert !AllocatedSince(Parse(op'.trail).value);
    TrailsAreOrdered(op'.trail);
  }

  lemma LaterStepDecidesNothing(op: Op, net: Net, i: Input)
    requires OpInv(op)
    requires Enabled(op, i) ==> !Early(i) && !(i.Wake? && !op.inbox.completed)
    ensures var t, t' := op.trail, Step(op, net, i).0.trail;
            t <= t' && forall k | |t| <= k < |t'| :: t'[k].step != DECIDED
  {
    hide Decide, Judge, Create, Deliver;
  }

  lemma StepRefusesIff(op: Op, net: Net, i: Input)
    requires OpInv(op) && TrailInv(op)
    ensures RefusesMidRun(Step(op, net, i).0.trail) <==> RefusesMidRun(op.trail) || HaltsWithoutDevice(op, i)
  {
    hide Step, Enabled, Parse, TrailInv, OpInv;
    if Enabled(op, i) && i.Wake? && !op.inbox.completed {
      WakeRefusesIff(op, net, i);
    } else if Enabled(op, i) && Early(i) {
      EarlyStepIsShort(op, net, i);
    } else {
      LaterStepDecidesNothing(op, net, i);
      var t, t' := op.trail, Step(op, net, i).0.trail;
      assert forall k | 0 <= k < |t| :: t'[k] == t[k];
    }
  }

  lemma {:induction false} RunRefusesIff(op: Op, h: seq<Turn>)
    requires OpInv(op) && TrailInv(op)
    ensures RefusesMidRun(Exec(op, h).trail) <==> RefusesMidRun(op.trail) || EverHaltsWithoutDevice(op, h)
    decreases |h|
  {
    hide Step, HaltsWithoutDevice, RefusesMidRun, TrailInv, OpInv;
    if h != [] {
      StepKeepsInv(op, h[0].net, h[0].input);
      StepKeepsTrail(op, h[0].net, h[0].input);
      StepRefusesIff(op, h[0].net, h[0].input);
      RunRefusesIff(Step(op, h[0].net, h[0].input).0, h[1..]);
    }
  }

  /**
   * The dashboard is right at every point of a run, delivered in order, if and only if
   * no wake of that run handled a halt while the device was reported unreachable.
   */
  lemma RunIsShownRightlyIff(device: string, profile: string, expected: int, h: seq<Turn>)
    ensures var start := Started(device, profile, expected);
            var t := Exec(start, h).trail;
            (forall k | 0 <= k <= |t| :: AgreesAt(t, k)) <==> !EverHaltsWithoutDevice(start, h)
  {
    hide Exec, AgreesAt, Parse, RefusesMidRun, EverHaltsWithoutDevice;
    var start := Started(device, profile, expected);
    NothingWritten();
    StartHasInv(device, profile, expected);
    RunKeepsTrail(start, h);
    ReadModelAgreesIff(Exec(start, h).trail);
    RunRefusesIff(start, h);
    NothingRefused();
  }

  lemma NothingRefused()
    ensures !RefusesMidRun([])
  {
  }

  /** And then the dashboard shows nothing held while the session is still out. */
  lemma HaltWithoutDeviceReadsAsOver(device: string, profile: string, expected: int, h: seq<Turn>, net: Net)
    requires var op := Exec(Started(device, profile, expected), h);
             op.pc.Waiting? && !op.inbox.completed && op.inbox.suspended && !op.loop.wasSuspended
             && op.inbox.reachable == Some(false)
    ensures var op := Exec(Started(device, profile, expected), h);
            var op' := Step(op, net, Wake(0, false, [])).0;
            && op'.pc.Waiting? && op'.alloc.session.Some?
            && !HoldsPremium(View(Delivered(op'.trail)))
  {
    var start := Started(device, profile, expected);
    var op := Exec(start, h);
    EveryRunKeepsInv(start, h);
    HaltWithoutDeviceKeepsWaiting(op, net);
    var t := Step(op, net, Wake(0, false, [])).0.trail;
    assert Delivered(t)[|t| - 1] == Emitted(t[|t| - 1]);
  }

  lemma HaltWithoutDeviceKeepsWaiting(op: Op, net: Net)
    requires OpInv(op) && op.pc.Waiting? && !op.inbox.completed && op.inbox.suspended && !op.loop.wasSuspended
    requires op.inbox.reachable == Some(false)
    ensures var op' := Step(op, net, Wake(0, false, [])).0;
            && op'.pc.Waiting? && op'.alloc == op.alloc && |op'.trail| == |op.trail| + 1
            && op'.trail[|op.trail|].step == DECIDED && op'.trail[|op.trail|].action == Some(NONE)
  {
  }

  /** And a run gets there: it is under way, then reported halted and its device unreachable. */
  lemma HaltWithoutDeviceIsReachable(device: string, profile: string, expected: int, net: Net, net': Net)
    returns (h: seq<Turn>)
    requires expected >= 1
    ensures var op := Exec(Started(device, profile, expected), h);
            && op.pc.Waiting? && !op.inbox.completed && op.inbox.suspended && !op.loop.wasSuspended
            && op.inbox.reachable == Some(false)
  {
    hide Exec, Step;
    var start, pre := Started(device, profile, expected), Deciding(net) + Granting(net, net');
    CalmIsReachable(device, profile, expected, net, net');
    UneventfulIsUnsuspended(device, profile, expected, net, net');
    var halted, lost := OperationSuspended, DeviceStatusChanged(Some(false));
    var calm := Exec(start, pre);
    h := pre + [Turn(net', Arrives(halted))];
    ExecOneMore(start, pre, Turn(net', Arrives(halted)));
    ArrivalIs(calm, net', halted);
    ExecOneMore(start, h, Turn(net', Arrives(lost)));
    ArrivalIs(Exec(start, h), net', lost);
    h := h + [Turn(net', Arrives(lost))];
  }

  lemma UneventfulIsUnsuspended(device: string, profile: string, expected: int, net: Net, net': Net)
    ensures var op := Exec(Started(device, profile, expected), Deciding(net) + Granting(net, net'));
            !op.inbox.suspended && !op.loop.wasSuspended
  {
    hide Exec;
    RunStaysUnsuspended(Started(device, profile, expected), Deciding(net) + Granting(net, net'));
  }

  /** So some run holds a session that the dashboard does not show. */
  lemma HeldSessionCanGoUnshown(device: string, profile: string, expected: int, net: Net, net': Net)
    requires expected >= 1
    ensures exists h :: var op := Exec(Started(device, profile, expected), h);
              op.pc.Waiting? && op.alloc.session.Some? && !HoldsPremium(View(Delivered(op.trail)))
  {
    hide Exec, HoldsPremium, View, Step;
    var start := Started(device, profile, expected);
    var h := HaltWithoutDeviceIsReachable(device, profile, expected, net, net');
    HaltWithoutDeviceReadsAsOver(device, profile, expected, h, net');
    var woken := Turn(net', Wake(0, false, []));
    ExecOneMore(start, h, woken);
    assert Exec(start, h + [woken]).pc.Waiting?;
  }
}
