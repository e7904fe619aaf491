/** The deduplicating decision log: at-least-once delivery made exactly-once. */
module DecisionLog {
  import opened Shared
  import opened Text
  import opened ReadModel

  // ── The idempotency key ─────────────────────────────────────────────

  /** A UTC instant as the workflow reports it, to the microsecond. */
  datatype Instant = Instant(year: nat, month: nat, day: nat, hour: nat, minute: nat, second: nat, micros: nat)

  /** What a `Date` keeps of it. */
  function Truncated(t: Instant): Instant { t.(micros := t.micros / 1000) }

  /** `new Date(t).toISOString()` */
  function IsoString(t: Instant): string {
    Padded(t.year, 4) + ['-'] + (Padded(t.month, 2) + ['-'] + (Padded(t.day, 2) + ['T']
    + (Padded(t.hour, 2) + [':'] + (Padded(t.minute, 2) + [':'] + (Padded(t.second, 2) + ['.']
    + (Padded(t.micros / 1000, 3) + ['Z'] + ""))))))
  }

  function StepName(s: DecisionStep): string {
    match s
    case DEVICE_CHECKED => "DEVICE_CHECKED"
    case CONGESTION_CHECKED => "CONGESTION_CHECKED"
    case CRITICALITY_ASSESSED => "CRITICALITY_ASSESSED"
    case DECIDED => "DECIDED"
    case ALLOCATED => "ALLOCATED"
    case QOS_STATUS_CHANGED => "QOS_STATUS_CHANGED"
    case RELEASED => "RELEASED"
    case FAILED => "FAILED"
  }

  datatype Dto = Dto(organization: string, operation: string, run: string, occurredAt: Option<Instant>, record: Record)

  function IdempotencyKey(d: Dto): string {
    d.run + [':'] + (StepName(d.record.step)
                     + if d.occurredAt.Some? then [':'] + IsoString(d.occurredAt.value) else "")
  }

  lemma DigitsSplit(m: nat, x: string, n: nat, y: string, width: nat, c: char)
    requires !IsDigit(c) && Padded(m, width) + [c] + x == Padded(n, width) + [c] + y
    ensures m == n && x == y
  {
    SplitFirst(Padded(m, width), x, Padded(n, width), y, c);
    PaddedInjective(m, n, width);
  }

  lemma IsoIsInjective(a: Instant, b: Instant)
    requires IsoString(a) == IsoString(b)
    ensures Truncated(a) == Truncated(b)
  {
    var a6, b6 := Padded(a.micros / 1000, 3) + ['Z'] + "", Padded(b.micros / 1000, 3) + ['Z'] + "";
    var a5, b5 := Padded(a.second, 2) + ['.'] + a6, Padded(b.second, 2) + ['.'] + b6;
    var a4, b4 := Padded(a.minute, 2) + [':'] + a5, Padded(b.minute, 2) + [':'] + b5;
    var a3, b3 := Padded(a.hour, 2) + [':'] + a4, Padded(b.hour, 2) + [':'] + b4;
    var a2, b2 := Padded(a.day, 2) + ['T'] + a3, Padded(b.day, 2) + ['T'] + b3;
    var a1, b1 := Padded(a.month, 2) + ['-'] + a2, Padded(b.month, 2) + ['-'] + b2;
    DigitsSplit(a.year, a1, b.year, b1, 4, '-');
    DigitsSplit(a.month, a2, b.month, b2, 2, '-');
    DigitsSplit(a.day, a3, b.day, b3, 2, 'T');
    DigitsSplit(a.hour, a4, b.hour, b4, 2, ':');
    DigitsSplit(a.minute, a5, b.minute, b5, 2, ':');
    DigitsSplit(a.second, a6, b.second, b6, 2, '.');
    DigitsSplit(a.micros / 1000, "", b.micros / 1000, "", 3, 'Z');
  }

  lemma StepNameIsFree(s: DecisionStep)
    ensures Free(StepName(s), ':')
  {
  }

  function StepNameLength(s: DecisionStep): nat {
    match s
    case DEVICE_CHECKED => 14
    case CONGESTION_CHECKED => 18
    case CRITICALITY_ASSESSED => 20
    case DECIDED => 7
    case ALLOCATED => 9
    case QOS_STATUS_CHANGED => 18
    case RELEASED => 8
    case FAILED => 6
  }

  lemma StepNameIs(s: DecisionStep)
    ensures |StepName(s)| == StepNameLength(s)
    ensures s == QOS_STATUS_CHANGED <==> StepName(s)[0] == 'Q'
  {
  }

  lemma StepNamesDiffer(s: DecisionStep, t: DecisionStep)
    requires StepName(s) == StepName(t)
    ensures s == t
  {
    hide StepName;
    StepNameIs(s);
    StepNameIs(t);
  }

  /** What makes two emits the same emit: run, step and the millisecond they happened. */
  predicate SameEmit(a: Dto, b: Dto) {
    && a.run == b.run && a.record.step == b.record.step
    && (match (a.occurredAt, b.occurredAt)
        case (None, None) => true
        case (Some(s), Some(t)) => Truncated(s) == Truncated(t)
        case _ => false)
  }

  lemma IsoOfTruncated(a: Instant, b: Instant)
    requires Truncated(a) == Truncated(b)
    ensures IsoString(a) == IsoString(b)
  {
    assert a.micros / 1000 == Truncated(a).micros;
    assert b.micros / 1000 == Truncated(b).micros;
  }

  // What stands between the colons of an ISO string.

  function ToHour(t: Instant): string {
    Padded(t.year, 4) + ['-'] + (Padded(t.month, 2) + ['-'] + (Padded(t.day, 2) + ['T'] + Padded(t.hour, 2)))
  }

  function ToMinute(t: Instant): string { Padded(t.minute, 2) }

  function FromSecond(t: Instant): string { Padded(t.second, 2) + ['.'] + (Padded(t.micros / 1000, 3) + ['Z']) }

  lemma IsoBetweenColons(t: Instant)
    ensures IsoString(t) == ToHour(t) + [':'] + ToMinute(t) + [':'] + FromSecond(t)
    ensures Free(ToHour(t), ':') && Free(ToMinute(t), ':') && Free(FromSecond(t), ':')
    ensures FromSecond(t) != "" && FromSecond(t)[|FromSecond(t)| - 1] == 'Z'
  {
    hide Padded;
  }

  lemma ThreeFromTheEnd(p: string, a: string, b: string, c: string, q: string, x: string, y: string, z: string)
    requires Free(a, ':') && Free(b, ':') && Free(c, ':') && Free(x, ':') && Free(y, ':') && Free(z, ':')
    requires p + [':'] + a + [':'] + b + [':'] + c == q + [':'] + x + [':'] + y + [':'] + z
    ensures p == q && a == x && b == y && c == z
  {
    SplitLast(p + [':'] + a + [':'] + b, c, q + [':'] + x + [':'] + y, z, ':');
    SplitLast(p + [':'] + a, b, q + [':'] + x, y, ':');
    SplitLast(p, a, q, x, ':');
  }

  function Untimed(d: Dto): string { d.run + [':'] + StepName(d.record.step) }

  lemma UntimedIs(a: Dto, b: Dto)
    requires Untimed(a) == Untimed(b)
    ensures a.run == b.run && a.record.step == b.record.step
  {
    StepNameIsFree(a.record.step);
    StepNameIsFree(b.record.step);
    SplitLast(a.run, StepName(a.record.step), b.run, StepName(b.record.step), ':');
    StepNamesDiffer(a.record.step, b.record.step);
  }

  lemma TimedKeyIs(d: Dto)
    requires d.occurredAt.Some?
    ensures var t := d.occurredAt.value;
            IdempotencyKey(d) == Untimed(d) + [':'] + ToHour(t) + [':'] + ToMinute(t) + [':'] + FromSecond(t)
  {
    hide IsoString, ToHour, ToMinute, FromSecond, StepName;
    var t := d.occurredAt.value;
    IsoBetweenColons(t);
    assert IdempotencyKey(d) == Untimed(d) + [':'] + IsoString(t);
  }

  lemma TimedKeysAgree(a: Dto, b: Dto)
    requires a.occurredAt.Some? && b.occurredAt.Some? && IdempotencyKey(a) == IdempotencyKey(b)
    ensures SameEmit(a, b)
  {
    hide IsoString, ToHour, ToMinute, FromSecond, IdempotencyKey, Untimed, Free, Truncated;
    var s, t := a.occurredAt.value, b.occurredAt.value;
    IsoBetweenColons(s);
    IsoBetweenColons(t);
    TimedKeyIs(a);
    TimedKeyIs(b);
    ThreeFromTheEnd(Untimed(a), ToHour(s), ToMinute(s), FromSecond(s),
                    Untimed(b), ToHour(t), ToMinute(t), FromSecond(t));
    UntimedIs(a, b);
    IsoIsInjective(s, t);
  }

  /** A key with a time ends in Z, one without in the D of a step's name. */
  lemma TimedEndsInZ(d: Dto)
    ensures var key := IdempotencyKey(d);
            key != "" && (key[|key| - 1] == 'Z' <==> d.occurredAt.Some?)
  {
    if d.occurredAt.Some? { IsoBetweenColons(d.occurredAt.value); }
  }

  /** The printed key confuses nothing, whatever the run ids look like. */
  lemma KeyIdentifiesTheEmit(a: Dto, b: Dto)
    ensures IdempotencyKey(a) == IdempotencyKey(b) <==> SameEmit(a, b)
  {
    hide IsoString, StepName;
    if IdempotencyKey(a) == IdempotencyKey(b) {
      TimedEndsInZ(a);
      TimedEndsInZ(b);
      if a.occurredAt.Some? {
        TimedKeysAgree(a, b);
      } else {
        assert IdempotencyKey(a) == Untimed(a) && IdempotencyKey(b) == Untimed(b);
        UntimedIs(a, b);
      }
    }
    if SameEmit(a, b) && a.occurredAt.Some? {
      IsoOfTruncated(a.occurredAt.value, b.occurredAt.value);
    }
  }

  // ── The log ─────────────────────────────────────────────────────────

  datatype Notice =
    | OperationUpdated(organization: string, operation: Operation)
    | DecisionRecorded(dto: Dto)
    | QodStatusAnnounced(organization: string, operationId: string, session: Option<string>, status: Option<QosStatus>)

  /** `index` is the store's unique constraint on keys, across organizations: key to the holder's organization. */
  datatype Log = Log(
    entries: seq<Dto>,
    index: map<string, string>,
    operations: map<(string, string), Operation>,
    published: seq<Notice>)

  function Recorded(s: Log, d: Dto): Log {
    if IdempotencyKey(d) in s.index then s
    else
      var target := (d.organization, d.operation);
      var known := target in s.operations;
      var operations := if known then s.operations[target := Apply(s.operations[target], PatchOf(d.record))]
                        else s.operations;
      Log(s.entries + [d],
          s.index[IdempotencyKey(d) := d.organization],
          operations,
          s.published
          + (if known then [OperationUpdated(d.organization, operations[target])] else [])
          + [DecisionRecorded(d)]
          + (if d.record.step == QOS_STATUS_CHANGED
             then [QodStatusAnnounced(d.organization, d.operation, d.record.session, d.record.qos)] else []))
  }

  function AllRecorded(s: Log, ds: seq<Dto>): Log {
    if ds == [] then s else Recorded(AllRecorded(s, ds[..|ds| - 1]), ds[|ds| - 1])
  }

  ghost function KeysOf(ds: seq<Dto>): set<string> { set k | 0 <= k < |ds| :: IdempotencyKey(ds[k]) }

  /** Each emit once, where it first arrived. */
  ghost function FirstArrivals(ds: seq<Dto>): seq<Dto> {
    if ds == [] then []
    else
      var init, last := ds[..|ds| - 1], ds[|ds| - 1];
      if IdempotencyKey(last) in KeysOf(init) then FirstArrivals(init) else FirstArrivals(init) + [last]
  }

  lemma KeysOfOneMore(ds: seq<Dto>)
    requires ds != []
    ensures KeysOf(ds) == KeysOf(ds[..|ds| - 1]) + {IdempotencyKey(ds[|ds| - 1])}
  {
    var init := ds[..|ds| - 1];
    forall k | k in KeysOf(ds) ensures k in KeysOf(init) + {IdempotencyKey(ds[|ds| - 1])} {
      var j :| 0 <= j < |ds| && IdempotencyKey(ds[j]) == k;
      if j < |init| { assert init[j] == ds[j]; }
    }
    forall k | k in KeysOf(init) ensures k in KeysOf(ds) {
      var j :| 0 <= j < |init| && IdempotencyKey(init[j]) == k;
      assert ds[j] == init[j];
    }
    assert ds[|ds| - 1] == ds[|init|];
  }

  lemma {:induction false} IndexIsWhatArrived(s: Log, ds: seq<Dto>)
    ensures AllRecorded(s, ds).index.Keys == s.index.Keys + KeysOf(ds)
  {
    if ds != [] {
      IndexIsWhatArrived(s, ds[..|ds| - 1]);
      KeysOfOneMore(ds);
    }
  }

  /** A delivery is refused exactly when the same emit, of the same run, step and millisecond, has arrived before. */
  lemma RefusedIffSentBefore(s: Log, ds: seq<Dto>, d: Dto)
    requires s.index == map[]
    ensures Recorded(AllRecorded(s, ds), d) == AllRecorded(s, ds) <==> exists k :: 0 <= k < |ds| && SameEmit(ds[k], d)
  {
    hide IdempotencyKey, SameEmit, AllRecorded;
    IndexIsWhatArrived(s, ds);
    forall k | 0 <= k < |ds| ensures IdempotencyKey(ds[k]) == IdempotencyKey(d) <==> SameEmit(ds[k], d) {
      KeyIdentifiesTheEmit(ds[k], d);
    }
    var after := Recorded(AllRecorded(s, ds), d);
    if IdempotencyKey(d) !in AllRecorded(s, ds).index { assert |after.entries| == |AllRecorded(s, ds).entries| + 1; }
  }

  /**
   * At least once equals exactly once: the log, every projected operation and
   * everything published are those of the first arrivals alone.
   */
  lemma {:induction false} AtLeastOnceIsExactlyOnce(s: Log, ds: seq<Dto>)
    requires s.index == map[]
    ensures AllRecorded(s, ds) == AllRecorded(s, FirstArrivals(ds))
  {
    if ds != [] {
      var init, last := ds[..|ds| - 1], ds[|ds| - 1];
      AtLeastOnceIsExactlyOnce(s, init);
      IndexIsWhatArrived(s, init);
      if IdempotencyKey(last) !in KeysOf(init) {
        assert (FirstArrivals(init) + [last])[..|FirstArrivals(init)|] == FirstArrivals(init);
      }
    }
  }

  // ── End to end ──────────────────────────────────────────────────────

  /** Emits of one run of one operation. */
  ghost predicate FromOneRun(ds: seq<Dto>, organization: string, operation: string) {
    forall k | 0 <= k < |ds| :: ds[k].organization == organization && ds[k].operation == operation
  }

  ghost function RecordsOf(ds: seq<Dto>): seq<Record> { seq(|ds|, k requires 0 <= k < |ds| => ds[k].record) }

  ghost predicate DistinctKeys(ds: seq<Dto>) {
    forall j, k | 0 <= j < k < |ds| :: IdempotencyKey(ds[j]) != IdempotencyKey(ds[k])
  }

  lemma RecordedNew(s: Log, d: Dto)
    requires IdempotencyKey(d) !in s.index && (d.organization, d.operation) in s.operations
    ensures var target, s' := (d.organization, d.operation), Recorded(s, d);
            && s'.entries == s.entries + [d]
            && s'.operations == s.operations[target := Apply(s.operations[target], PatchOf(d.record))]
  {
    hide IdempotencyKey, Apply, PatchOf;
  }

  /** Delivered once each, a run's emits leave exactly the view of its trail. */
  lemma {:induction false} ProjectionIsTheView(s: Log, ds: seq<Dto>, organization: string, operation: string)
    requires s.index == map[] && (organization, operation) in s.operations
    requires s.operations[(organization, operation)] == REGISTERED
    requires FromOneRun(ds, organization, operation) && DistinctKeys(ds)
    ensures (organization, operation) in AllRecorded(s, ds).operations
    ensures AllRecorded(s, ds).operations[(organization, operation)] == View(Delivered(RecordsOf(ds)))
    ensures AllRecorded(s, ds).entries == s.entries + ds
  {
    hide Apply, PatchOf, IdempotencyKey, Recorded;
    if ds == [] {
      assert RecordsOf(ds) == [];
    } else {
      var init, last := ds[..|ds| - 1], ds[|ds| - 1];
      assert forall k | 0 <= k < |init| :: init[k] == ds[k];
      ProjectionIsTheView(s, init, organization, operation);
      IndexIsWhatArrived(s, init);
      assert IdempotencyKey(last) !in KeysOf(init);
      RecordedNew(AllRecorded(s, init), last);
      assert Delivered(RecordsOf(ds))[..|ds| - 1] == Delivered(RecordsOf(init));
      assert s.entries + ds == (s.entries + init) + [last];
    }
  }

  /** First arrivals have distinct keys, so the two results compose. */
  lemma {:induction false} FirstArrivalsAreDistinct(ds: seq<Dto>)
    ensures DistinctKeys(FirstArrivals(ds))
    ensures forall k | 0 <= k < |FirstArrivals(ds)| :: IdempotencyKey(FirstArrivals(ds)[k]) in KeysOf(ds)
    ensures forall d | d in FirstArrivals(ds) :: d in ds
  {
    hide IdempotencyKey;
    if ds != [] {
      FirstArrivalsAreDistinct(ds[..|ds| - 1]);
      KeysOfOneMore(ds);
    }
  }

  /** Retries included, the dashboard shows the view of the trail that was emitted. */
  lemma RetriesDoNotShow(s: Log, ds: seq<Dto>, organization: string, operation: string)
    requires s.index == map[] && s.entries == [] && (organization, operation) in s.operations
    requires s.operations[(organization, operation)] == REGISTERED
    requires FromOneRun(ds, organization, operation)
    ensures AllRecorded(s, ds).entries == FirstArrivals(ds)
    ensures (organization, operation) in AllRecorded(s, ds).operations
    ensures AllRecorded(s, ds).operations[(organization, operation)] == View(Delivered(RecordsOf(FirstArrivals(ds))))
  {
    AtLeastOnceIsExactlyOnce(s, ds);
    FirstArrivalsAreDistinct(ds);
    var first := FirstArrivals(ds);
    forall k | 0 <= k < |first| ensures first[k].organization == organization && first[k].operation == operation {
      assert first[k] in ds;
    }
    ProjectionIsTheView(s, first, organization, operation);
  }

  // ── A workflow's own trail ──────────────────────────────────────────

  /** What a run hands the emit activity for its trail, each record with the run's clock at that moment. */
  function Emits(organization: string, operation: string, run: string, t: seq<Record>, stamps: seq<Instant>): seq<Dto>
    requires |stamps| == |t|
  {
    seq(|t|, k requires 0 <= k < |t| => Dto(organization, operation, run, Some(stamps[k]), t[k]))
  }

  /** No two records of one step in one millisecond. */
  ghost predicate DistinctStamps(t: seq<Record>, stamps: seq<Instant>)
    requires |stamps| == |t|
  {
    forall j, k | 0 <= j < k < |t| && t[j].step == t[k].step :: Truncated(stamps[j]) != Truncated(stamps[k])
  }

  lemma KeysDistinctIffStampsAre(organization: string, operation: string, run: string,
                                 t: seq<Record>, stamps: seq<Instant>)
    requires |stamps| == |t|
    ensures DistinctKeys(Emits(organization, operation, run, t, stamps)) <==> DistinctStamps(t, stamps)
  {
    hide IdempotencyKey, Truncated;
    var ds := Emits(organization, operation, run, t, stamps);
    forall j, k | 0 <= j < k < |ds|
      ensures IdempotencyKey(ds[j]) == IdempotencyKey(ds[k])
              <==> t[j].step == t[k].step && Truncated(stamps[j]) == Truncated(stamps[k])
    {
      KeyIdentifiesTheEmit(ds[j], ds[k]);
    }
  }

  /**
   * Deliveries of the first `n` emits, by index: each comes for the first time in its turn,
   * and any that has come may come again.
   */
  predicate InTurn(js: seq<nat>, n: nat) {
    if js == [] then n == 0
    else
      var last, before := js[|js| - 1], js[..|js| - 1];
      (last < n && InTurn(before, n)) || (n > 0 && last == n - 1 && InTurn(before, n - 1))
  }

  lemma {:induction false} InTurnBounds(js: seq<nat>, n: nat)
    requires InTurn(js, n)
    ensures forall k | 0 <= k < |js| :: js[k] < n
    ensures forall m | 0 <= m < n :: m in js
  {
    if js != [] {
      var last, before := js[|js| - 1], js[..|js| - 1];
      if last < n && InTurn(before, n) { InTurnBounds(before, n); } else { InTurnBounds(before, n - 1); }
      assert js == before + [last];
    }
  }

  function Arriving(ds: seq<Dto>, js: seq<nat>): seq<Dto>
    requires forall k | 0 <= k < |js| :: js[k] < |ds|
  {
    seq(|js|, k requires 0 <= k < |js| => ds[js[k]])
  }

  lemma {:induction false} FirstArrivalsInTurn(ds: seq<Dto>, js: seq<nat>, n: nat)
    requires DistinctKeys(ds) && n <= |ds| && InTurn(js, n)
    requires forall k | 0 <= k < |js| :: js[k] < |ds|
    ensures FirstArrivals(Arriving(ds, js)) == ds[..n]
  {
    hide IdempotencyKey;
    if js != [] {
      var last, before := js[|js| - 1], js[..|js| - 1];
      assert Arriving(ds, js)[..|js| - 1] == Arriving(ds, before);
      if last < n && InTurn(before, n) {
        FirstArrivalsInTurn(ds, before, n);
        InTurnBounds(before, n);
        assert last in before;
        var m :| 0 <= m < |before| && before[m] == last;
        assert Arriving(ds, before)[m] == ds[last];
      } else {
        FirstArrivalsInTurn(ds, before, n - 1);
        InTurnBounds(before, n - 1);
        assert ds[..n] == ds[..n - 1] + [ds[n - 1]];
      }
    }
  }

  /**
   * From the workflow to the dashboard. Whatever a run has written, delivered in turn with any
   * retries, is what the log holds and what the dashboard shows the view of.
   */
  lemma DashboardShowsTheRun(s: Log, organization: string, operation: string, run: string, op: Workflow.Op,
                             h: seq<Workflow.Turn>, stamps: seq<Instant>, js: seq<nat>)
    requires s.index == map[] && s.entries == [] && (organization, operation) in s.operations
    requires s.operations[(organization, operation)] == REGISTERED
    requires var t := Workflow.Exec(op, h).trail; |stamps| == |t| && DistinctStamps(t, stamps) && InTurn(js, |t|)
    requires forall k | 0 <= k < |js| :: js[k] < |stamps|
    ensures var t := Workflow.Exec(op, h).trail;
            var emits := Emits(organization, operation, run, t, stamps);
            var after := AllRecorded(s, Arriving(emits, js));
            && after.entries == emits
            && (organization, operation) in after.operations
            && after.operations[(organization, operation)] == View(Delivered(t))
  {
    hide Workflow.Exec, IdempotencyKey, View, AllRecorded;
    var t := Workflow.Exec(op, h).trail;
    var emits := Emits(organization, operation, run, t, stamps);
    KeysDistinctIffStampsAre(organization, operation, run, t, stamps);
    FirstArrivalsInTurn(emits, js, |t|);
    assert emits[..|t|] == emits;
    RetriesDoNotShow(s, Arriving(emits, js), organization, operation);
    assert RecordsOf(emits) == t;
  }

  /** Delivered once each, a trail is logged whole if and only if no step's records share a millisecond. */
  lemma LoggedWholeIff(s: Log, organization: string, operation: string, run: string,
                       t: seq<Record>, stamps: seq<Instant>)
    requires s.index == map[] && s.entries == [] && |stamps| == |t|
    ensures var emits := Emits(organization, operation, run, t, stamps);
            AllRecorded(s, emits).entries == emits <==> DistinctStamps(t, stamps)
  {
    hide IdempotencyKey, AllRecorded;
    var emits := Emits(organization, operation, run, t, stamps);
    KeysDistinctIffStampsAre(organization, operation, run, t, stamps);
    EntriesAreFirstArrivals(s, emits);
    FirstArrivalsAreDistinct(emits);
    if DistinctKeys(emits) { AllAreFirstArrivals(emits); }
  }

  lemma {:induction false} EntriesAreFirstArrivals(s: Log, ds: seq<Dto>)
    requires s.index == map[]
    ensures AllRecorded(s, ds).entries == s.entries + FirstArrivals(ds)
  {
    hide IdempotencyKey;
    if ds != [] {
      EntriesAreFirstArrivals(s, ds[..|ds| - 1]);
      IndexIsWhatArrived(s, ds[..|ds| - 1]);
    }
  }

  lemma {:induction false} AllAreFirstArrivals(ds: seq<Dto>)
    requires DistinctKeys(ds)
    ensures FirstArrivals(ds) == ds
  {
    hide IdempotencyKey;
    if ds != [] {
      var init := ds[..|ds| - 1];
      AllAreFirstArrivals(init);
      assert ds == init + [ds[|ds| - 1]];
    }
  }

  // ── The service ─────────────────────────────────────────────────────

  datatype Appended = Inserted | Duplicate | Clash

  class DecisionLogService {
    var entries: seq<Dto>
    var index: map<string, string>
    var operations: map<(string, string), Operation>
    var published: seq<Notice>

    constructor ()
      ensures View() == Log([], map[], map[], [])
    {
      entries, index, operations, published := [], map[], map[], [];
    }

    ghost function View(): Log reads this { Log(entries, index, operations, published) }

    /** A key held by another organization's record is found by nobody: the lookup after the refusal raises. */
    method Append(d: Dto) returns (result: Appended)
      modifies this`entries, this`index
      ensures result == (if IdempotencyKey(d) !in old(index) then Inserted
                         else if old(index)[IdempotencyKey(d)] == d.organization then Duplicate else Clash)
      ensures entries == (if result.Inserted? then old(entries) + [d] else old(entries))
      ensures index == (if result.Inserted? then old(index)[IdempotencyKey(d) := d.organization] else old(index))
    {
      var key := IdempotencyKey(d);
      if key in index {
        result := if index[key] == d.organization then Duplicate else Clash;
        return;
      }
      entries := entries + [d];
      index := index[key := d.organization];
      result := Inserted;
    }

    /** Only sets what the event carries; the status and the completion time come last. */
    method ToOperationPatch(r: Record) returns (patch: Patch)
      ensures patch == PatchOf(r)
    {
      patch := Patch();
      if r.criticality.Some? { patch := patch.(criticality := r.criticality); }
      if r.congestion.Some? { patch := patch.(congestion := r.congestion); }
      if r.reachable.Some? { patch := patch.(reachable := r.reachable); }
      if r.action.Some? { patch := patch.(action := r.action); }
      if r.session.Some? { patch := patch.(session := r.session); }
      if r.qos.Some? { patch := patch.(qos := r.qos); }
      if r.slice.Some? { patch := patch.(slice := r.slice); }
      var status, completed := StatusOf(r);
      if status.Some? { patch := patch.(status := status); }
      if completed { patch := patch.(completed := true); }
    }

    method StatusOf(r: Record) returns (status: Option<OperationStatus>, completed: bool)
      ensures status == PatchOf(r).status && completed == PatchOf(r).completed
    {
      status, completed := StepStatus(r.step), false;
      if r.step == DECIDED {
        status := Some(if r.action == Some(NONE) then COMPLETED else ASSESSING);
        if r.action == Some(NONE) { completed := true; }
      }
      if r.step == QOS_STATUS_CHANGED && r.qos == Some(AVAILABLE) { status := Some(MONITORING); }
      if r.step == RELEASED { completed := true; }
    }

    method Record(d: Dto) returns (result: Appended)
      modifies this
      ensures result.Inserted? <==> IdempotencyKey(d) !in old(index)
      ensures View() == Recorded(old(View()), d)
    {
      result := Append(d);
      if !result.Inserted? { return; }
      var patch := ToOperationPatch(d.record);
      var target := (d.organization, d.operation);
      if target in operations {
        operations := operations[target := Apply(operations[target], patch)];
        published := published + [OperationUpdated(d.organization, operations[target])];
      }
      published := published + [DecisionRecorded(d)];
      if d.record.step == QOS_STATUS_CHANGED {
        published := published + [QodStatusAnnounced(d.organization, d.operation, d.record.session, d.record.qos)];
      }
    }
  }
}
