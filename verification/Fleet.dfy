/** Any number of operations sharing one network, interleaved in any order. */
module Fleet {
  import opened Shared
  import opened Policy
  import opened Network
  import opened Activities
  import opened Workflow
  import opened WorkflowSafety
  import opened WorkflowTime
  import opened Accounts

  function AccountOf(op: Op): Account {
    Account(op.books.orphans, op.alloc.session, op.books.sessionGone, op.alloc.attachment, op.books.attachmentGone,
            Granted(op), Session(REQUESTED, op.profile, op.expected + GRACE_SECONDS, None, None))
  }

  // ── What a step does to the account ─────────────────────────────────

  lemma BlankBeforeAllocation(op: Op)
    requires OpInv(op) && op.pc.Allocating?
    ensures Blank(AccountOf(op))
  {
  }

  lemma AllocateShape(op: Op, net: Net, f: AllocateFaults)
    requires OpInv(op) && op.pc.Allocating?
    ensures var (op', net') := OnAllocate(op, net, f);
            var (net1, outcome) :=
              Allocate(net, op.device, op.profile, op.facts.action, op.expected + GRACE_SECONDS, f);
            AccountOf(op') == AfterAllocate(AccountOf(op), outcome) && net' == net1
  {
    hide Allocate, AllocInv, OrphanInv, Judge, Decide;
    assert op.books.orphans + {} == op.books.orphans;
    match Allocate(net, op.device, op.profile, op.facts.action, op.expected + GRACE_SECONDS, f).1
    case Allocated(a) => assert Granted(op) == op.expected + GRACE_SECONDS;
    case Refused =>
    case Raised(orphan) =>
  }

  lemma EscalateShape(op: Op, net: Net, attachRaises: bool, r: Record)
    requires op.alloc.slice.None?
    ensures var (op', net') := TryEscalate(op, net, attachRaises, r);
            || (AccountOf(op') == AccountOf(op) && net' == net)
            || (net.slice.Some?
                && var (attached, t) := Network.Attach(net, op.device, net.slice.value);
                AccountOf(op') == AccountOf(op).(attachment := Some(t)) && net' == attached)
  {
    hide Network.Attach;
  }

  lemma WakeShape(op: Op, net: Net, attachRaises: bool)
    requires BodyInv(op)
    ensures var (op', net') := WakeBody(op, net, attachRaises);
            || (AccountOf(op') == AccountOf(op) && net' == net)
            || (op.alloc.attachment.None? && net.slice.Some?
                && var (attached, t) := Network.Attach(net, op.device, net.slice.value);
                AccountOf(op') == AccountOf(op).(attachment := Some(t)) && net' == attached)
  {
    hide TryEscalate, Judge, SuspensionPolicy, Network.Attach;
    if SuspensionDiffers(op) && op.inbox.suspended {
      var halted := op.(loop := op.loop.(wasSuspended := true));
      var policy := SuspensionPolicy(halted);
      var decided := Emit(halted, Record(DECIDED, action := Some(policy.action),
                                         reachable := Some(halted.inbox.reachable != Some(false)),
                                         rule := Some(policy.rule)));
      if op.alloc.slice.None? {
        EscalateShape(decided, net, attachRaises, Record(ALLOCATED, rule := Some(policy.rule)));
      }
    } else if !SuspensionDiffers(op) && !DeviceDiffers(op) && op.alloc.slice.None? {
      EscalateShape(op.(loop := op.loop.(known := op.inbox.congestion)), net, attachRaises,
                    Record(ALLOCATED, congestion := op.inbox.congestion));
    }
  }

  lemma PollShape(op: Op, net: Net, now: int, raises: bool)
    requires op.alloc.session.Some?
    ensures var (op', net') := OnQosTimedOut(op, net, now, raises);
            && AccountOf(op') == AccountOf(op)
            && (net' == net
                || (op.alloc.session.value in net.sessions && net' == Poll(net, op.alloc.session.value, now)))
  {
  }

  lemma TimeoutShape(op: Op, net: Net, extendRaises: bool)
    requires op.alloc.session.Some?
    ensures var (op', net') := TimeoutBody(op, net, extendRaises);
            || (AccountOf(op') == AccountOf(op) && net' == net)
            || (op.alloc.session.value in net.sessions
                && AccountOf(op') == AccountOf(op).(granted := Granted(op) + Chunk(op))
                && net' == Extend(net, op.alloc.session.value, Chunk(op)))
  {
  }

  lemma ReleaseShape(op: Op, net: Net, f: ReleaseFaults)
    requires op.pc.Releasing?
    ensures var (op', net') := OnRelease(op, net, f);
            var (net1, freed) := Release(net, op.alloc, f);
            && AccountOf(op') == AccountOf(op).(sessionGone := op.books.sessionGone || freed.qod,
                                                attachmentGone := op.books.attachmentGone || freed.slice)
            && net' == net1
  {
  }

  /** Inputs whose handler does not touch the network. */
  lemma QuietShape(op: Op, net: Net, i: Input)
    requires OpInv(op)
    requires Enabled(op, i) ==> !i.AllocateTry? && !i.QosTimedOut? && !i.Wake? && !i.Timeout? && !i.ReleaseTry?
    ensures var (op', net') := Step(op, net, i); AccountOf(op') == AccountOf(op) && net' == net
  {
  }

  lemma NextIterationSameAccount(op: Op, during: seq<Signal>)
    ensures AccountOf(NextIteration(op, during)) == AccountOf(op)
  {
  }

  // ── So a step keeps it ──────────────────────────────────────────────

  lemma WakeKeeps(op: Op, net: Net, attachRaises: bool)
    requires BodyInv(op) && !op.books.attachmentGone && Holds(AccountOf(op), net) && AllIssued(net)
    ensures var (op', net') := WakeBody(op, net, attachRaises); Keeps(AccountOf(op), net, AccountOf(op'), net')
  {
    WakeShape(op, net, attachRaises);
    var a := AccountOf(op);
    NothingKeeps(a, net);
    if a.attachment.None? && net.slice.Some? { AttachKeeps(a, net, op.device, net.slice.value); }
  }

  lemma PollingKeeps(op: Op, net: Net, now: int, raises: bool)
    requires op.alloc.session.Some? && Holds(AccountOf(op), net) && AllIssued(net)
    ensures var (op', net') := OnQosTimedOut(op, net, now, raises); Keeps(AccountOf(op), net, AccountOf(op'), net')
  {
    PollShape(op, net, now, raises);
    NothingKeeps(AccountOf(op), net);
    if op.alloc.session.value in net.sessions { PollKeeps(AccountOf(op), net, now); }
  }

  lemma TimeoutKeeps(op: Op, net: Net, extendRaises: bool)
    requires op.alloc.session.Some? && Holds(AccountOf(op), net) && AllIssued(net)
    ensures var (op', net') := TimeoutBody(op, net, extendRaises); Keeps(AccountOf(op), net, AccountOf(op'), net')
  {
    TimeoutShape(op, net, extendRaises);
    NothingKeeps(AccountOf(op), net);
    if op.alloc.session.value in net.sessions { ExtendKeeps(AccountOf(op), net, Chunk(op)); }
  }

  lemma MonitorStepKeeps(op: Op, net: Net, i: Input)
    requires OpInv(op) && Holds(AccountOf(op), net) && AllIssued(net)
    requires Enabled(op, i) && (i.QosTimedOut? || i.Wake? || i.Timeout?)
    ensures var (op', net') := Step(op, net, i); Keeps(AccountOf(op), net, AccountOf(op'), net')
  {
    MonitorHasBodyInv(op);
    match i
    case QosTimedOut(now, raises, during) =>
      PollingKeeps(op, net, now, raises);
      NextIterationSameAccount(OnQosTimedOut(op, net, now, raises).0, during);
    case Wake(_, attachRaises, during) =>
      if op.inbox.completed {
        NothingKeeps(AccountOf(op), net);
        assert AccountOf(StartRelease(op)) == AccountOf(op);
      } else {
        WakeKeeps(op, net, attachRaises);
        NextIterationSameAccount(WakeBody(op, net, attachRaises).0, during);
      }
    case Timeout(extendRaises, during) =>
      TimeoutKeeps(op, net, extendRaises);
      NextIterationSameAccount(TimeoutBody(op, net, extendRaises).0, during);
  }

  lemma AllocateStepKeeps(op: Op, net: Net, f: AllocateFaults)
    requires OpInv(op) && op.pc.Allocating? && Holds(AccountOf(op), net) && AllIssued(net)
    ensures var (op', net') := OnAllocate(op, net, f); Keeps(AccountOf(op), net, AccountOf(op'), net')
  {
    hide OnAllocate, Allocate, Keeps, Holds, AllIssued;
    AllocateShape(op, net, f);
    BlankBeforeAllocation(op);
    AllocateKeeps(AccountOf(op), net, op.device, op.facts.action, f);
  }

  lemma ReleaseStepKeeps(op: Op, net: Net, f: ReleaseFaults)
    requires op.pc.Releasing? && Holds(AccountOf(op), net) && AllIssued(net)
    ensures var (op', net') := OnRelease(op, net, f); Keeps(AccountOf(op), net, AccountOf(op'), net')
  {
    ReleaseShape(op, net, f);
    ReleaseKeeps(AccountOf(op), net, op.alloc, f);
  }

  lemma StepKeeps(op: Op, net: Net, i: Input)
    requires OpInv(op) && Holds(AccountOf(op), net) && AllIssued(net)
    ensures var (op', net') := Step(op, net, i); Keeps(AccountOf(op), net, AccountOf(op'), net')
  {
    if Enabled(op, i) && i.AllocateTry? {
      AllocateStepKeeps(op, net, i.allocFaults);
    } else if Enabled(op, i) && i.ReleaseTry? {
      ReleaseStepKeeps(op, net, i.releaseFaults);
    } else if Enabled(op, i) && (i.QosTimedOut? || i.Wake? || i.Timeout?) {
      MonitorStepKeeps(op, net, i);
    } else {
      QuietShape(op, net, i);
      NothingKeeps(AccountOf(op), net);
    }
  }

  // ── The fleet ───────────────────────────────────────────────────────

  datatype Fleet = Fleet(net: Net, ops: map<nat, Op>)

  const EMPTY := Fleet(Net(map[], map[], None, 0), map[])

  datatype Move =
    | Bootstrap(slice: string)
    | Begin(id: nat, device: string, profile: string, expected: int)
    | Drive(id: nat, input: Input)

  function Next(f: Fleet, m: Move): Fleet {
    match m
    case Bootstrap(slice) => f.(net := f.net.(slice := Some(slice)))
    case Begin(id, device, profile, expected) =>
      if id in f.ops || expected < 1 then f else f.(ops := f.ops[id := Started(device, profile, expected)])
    case Drive(id, i) =>
      if id !in f.ops then f
      else var (op', net') := Step(f.ops[id], f.net, i); Fleet(net', f.ops[id := op'])
  }

  function Play(f: Fleet, ms: seq<Move>): Fleet
    decreases |ms|
  {
    if ms == [] then f else Play(Next(f, ms[0]), ms[1..])
  }

  ghost function AllLiveSessions(ops: map<nat, Op>): set<string> {
    set id, s | id in ops && s in LiveSessions(AccountOf(ops[id])) :: s
  }

  ghost function AllLiveAttachments(ops: map<nat, Op>): set<string> {
    set id, t | id in ops && t in LiveAttachments(AccountOf(ops[id])) :: t
  }

  predicate Disjoint(a: Account, b: Account) {
    ClaimedSessions(a) !! ClaimedSessions(b) && ClaimedAttachments(a) !! ClaimedAttachments(b)
  }

  predicate Sound(op: Op) { OpInv(op) && GrantInv(op) && op.expected >= 1 }

  ghost predicate EachIsSound(f: Fleet) {
    forall id | id in f.ops :: Sound(f.ops[id]) && Holds(AccountOf(f.ops[id]), f.net)
  }

  ghost predicate NoSharing(f: Fleet) {
    forall i, j | i in f.ops && j in f.ops && i != j :: Disjoint(AccountOf(f.ops[i]), AccountOf(f.ops[j]))
  }

  /** The network holds the disjoint union of what its operations account for, and nothing else. */
  ghost predicate NoLeaks(f: Fleet) {
    && f.net.sessions.Keys == AllLiveSessions(f.ops)
    && f.net.attachments.Keys == AllLiveAttachments(f.ops)
  }

  ghost predicate FleetInv(f: Fleet) {
    EachIsSound(f) && NoSharing(f) && NoLeaks(f) && AllIssued(f.net)
  }

  /** What another operation claims as a session is out of reach of a step that kept this one's account. */
  lemma OthersSessions(a: Account, net: Net, a': Account, net': Net, b: Account)
    requires Moved(a, net, a', net') && ClaimsIssued(b, net.counter)
    requires ClaimedSessions(a) !! ClaimedSessions(b)
    ensures ClaimedSessions(a') !! ClaimedSessions(b)
    ensures net'.sessions.Keys * ClaimedSessions(b) == net.sessions.Keys * ClaimedSessions(b)
    ensures forall s | s in ClaimedSessions(b) && s in net.sessions :: net'.sessions[s] == net.sessions[s]
  {
    hide IssuedSession, IssuedAttachment;
    assert LiveSessions(a) <= ClaimedSessions(a) && LiveSessions(a') <= ClaimedSessions(a');
    forall s | s in ClaimedSessions(b) ensures s !in ClaimedSessions(a') {
      assert IssuedSession(s, net.counter);
    }
  }

  lemma OthersAttachments(a: Account, net: Net, a': Account, net': Net, b: Account)
    requires Moved(a, net, a', net') && ClaimsIssued(b, net.counter)
    requires ClaimedAttachments(a) !! ClaimedAttachments(b)
    ensures ClaimedAttachments(a') !! ClaimedAttachments(b)
    ensures net'.attachments.Keys * ClaimedAttachments(b) == net.attachments.Keys * ClaimedAttachments(b)
  {
    hide IssuedSession, IssuedAttachment;
    assert LiveAttachments(a) <= ClaimedAttachments(a) && LiveAttachments(a') <= ClaimedAttachments(a');
    forall t | t in ClaimedAttachments(b) ensures t !in ClaimedAttachments(a') {
      assert IssuedAttachment(t, net.counter);
    }
  }

  /** Another operation's account is untouched by a step that kept this one's. */
  lemma OthersHold(a: Account, net: Net, a': Account, net': Net, b: Account)
    requires Keeps(a, net, a', net') && Holds(b, net) && Disjoint(a, b)
    ensures Holds(b, net') && Disjoint(a', b)
    ensures forall s | s in LiveSessions(b) ::
              s in net.sessions && s in net'.sessions && net'.sessions[s] == net.sessions[s]
    ensures LiveAttachments(b) <= net'.attachments.Keys
  {
    hide IssuedSession, IssuedAttachment, ClaimsIssued, AllIssued, Consistent;
    OthersSessions(a, net, a', net', b);
    OthersAttachments(a, net, a', net', b);
    assert Moved(a, net, a', net');
    hide Moved;
    ClaimsIssuedLater(b, net.counter, net'.counter);
    forall s | s in ClaimedSessions(b)
      ensures s in net.sessions <==> s in net'.sessions
      ensures s in net.sessions ==> net'.sessions[s] == net.sessions[s]
    {
      assert s in net.sessions.Keys * ClaimedSessions(b) <==> s in net'.sessions.Keys * ClaimedSessions(b);
    }
    assert b.session.Some? ==> b.session.value in ClaimedSessions(b);
    assert b.orphans <= ClaimedSessions(b);
  }

  /** One operation and the network move on together; the rest of the fleet still adds up. */
  lemma ReplaceKeepsSound(f: Fleet, id: nat, op': Op, net': Net)
    requires FleetInv(f) && id in f.ops && Sound(op')
    requires Keeps(AccountOf(f.ops[id]), f.net, AccountOf(op'), net')
    ensures EachIsSound(Fleet(net', f.ops[id := op'])) && NoSharing(Fleet(net', f.ops[id := op']))
  {
    hide AccountOf, Holds, Sound, Moved, AllIssued;
    forall j | j in f.ops && j != id
      ensures Holds(AccountOf(f.ops[j]), net') && Disjoint(AccountOf(op'), AccountOf(f.ops[j]))
    {
      OthersHold(AccountOf(f.ops[id]), f.net, AccountOf(op'), net', AccountOf(f.ops[j]));
    }
  }

  lemma ReplaceInUnion(ops: map<nat, Op>, id: nat, op': Op)
    requires id in ops
    requires forall j | j in ops && j != id :: Disjoint(AccountOf(ops[id]), AccountOf(ops[j]))
    ensures AllLiveSessions(ops[id := op'])
            == (AllLiveSessions(ops) - LiveSessions(AccountOf(ops[id]))) + LiveSessions(AccountOf(op'))
    ensures AllLiveAttachments(ops[id := op'])
            == (AllLiveAttachments(ops) - LiveAttachments(AccountOf(ops[id]))) + LiveAttachments(AccountOf(op'))
  {
    var a, ops' := AccountOf(ops[id]), ops[id := op'];
    forall s | s in AllLiveSessions(ops) - LiveSessions(a) ensures s in AllLiveSessions(ops') {
      var j :| j in ops && s in LiveSessions(AccountOf(ops[j]));
      assert ops'[j] == ops[j];
    }
    forall s | s in AllLiveSessions(ops') && s !in LiveSessions(AccountOf(op'))
      ensures s in AllLiveSessions(ops) && s !in LiveSessions(a)
    {
      var j :| j in ops' && s in LiveSessions(AccountOf(ops'[j]));
      assert j != id && ops'[j] == ops[j] && s in ClaimedSessions(AccountOf(ops[j]));
    }
    forall t | t in AllLiveAttachments(ops) - LiveAttachments(a) ensures t in AllLiveAttachments(ops') {
      var j :| j in ops && t in LiveAttachments(AccountOf(ops[j]));
      assert ops'[j] == ops[j];
    }
    forall t | t in AllLiveAttachments(ops') && t !in LiveAttachments(AccountOf(op'))
      ensures t in AllLiveAttachments(ops) && t !in LiveAttachments(a)
    {
      var j :| j in ops' && t in LiveAttachments(AccountOf(ops'[j]));
      assert j != id && ops'[j] == ops[j] && t in ClaimedAttachments(AccountOf(ops[j]));
    }
    assert ops'[id] == op';
  }

  lemma ReplaceKeepsFleet(f: Fleet, id: nat, op': Op, net': Net)
    requires FleetInv(f) && id in f.ops && Sound(op')
    requires Keeps(AccountOf(f.ops[id]), f.net, AccountOf(op'), net')
    ensures FleetInv(Fleet(net', f.ops[id := op']))
  {
    ReplaceKeepsSound(f, id, op', net');
    ReplaceInUnion(f.ops, id, op');
  }

  lemma StepKeepsSound(op: Op, net: Net, i: Input)
    requires Sound(op)
    ensures Sound(Step(op, net, i).0)
  {
    StepKeepsInv(op, net, i);
    StepKeepsGrants(op, net, i);
    StepIsLater(op, net, i);
  }

  lemma StartHolds(device: string, profile: string, expected: int, net: Net)
    ensures var a := AccountOf(Started(device, profile, expected));
            && Holds(a, net) && ClaimedSessions(a) == {} && ClaimedAttachments(a) == {}
  {
  }

  lemma AddToUnion(ops: map<nat, Op>, id: nat, op: Op)
    requires id !in ops && LiveSessions(AccountOf(op)) == {} && LiveAttachments(AccountOf(op)) == {}
    ensures AllLiveSessions(ops[id := op]) == AllLiveSessions(ops)
    ensures AllLiveAttachments(ops[id := op]) == AllLiveAttachments(ops)
  {
    var ops' := ops[id := op];
    forall s | s in AllLiveSessions(ops) ensures s in AllLiveSessions(ops') {
      var j :| j in ops && s in LiveSessions(AccountOf(ops[j]));
      assert ops'[j] == ops[j];
    }
    forall t | t in AllLiveAttachments(ops) ensures t in AllLiveAttachments(ops') {
      var j :| j in ops && t in LiveAttachments(AccountOf(ops[j]));
      assert ops'[j] == ops[j];
    }
    forall s | s in AllLiveSessions(ops') ensures s in AllLiveSessions(ops) {
      var j :| j in ops' && s in LiveSessions(AccountOf(ops'[j]));
      assert j in ops && ops'[j] == ops[j];
    }
    forall t | t in AllLiveAttachments(ops') ensures t in AllLiveAttachments(ops) {
      var j :| j in ops' && t in LiveAttachments(AccountOf(ops'[j]));
      assert j in ops && ops'[j] == ops[j];
    }
  }

  lemma BeginKeepsFleet(f: Fleet, id: nat, op: Op)
    requires FleetInv(f) && id !in f.ops && Sound(op) && Holds(AccountOf(op), f.net)
    requires ClaimedSessions(AccountOf(op)) == {} && ClaimedAttachments(AccountOf(op)) == {}
    ensures FleetInv(Fleet(f.net, f.ops[id := op]))
  {
    hide AccountOf, Holds, Sound, AllIssued;
    AddToUnion(f.ops, id, op);
    assert forall j | j in f.ops :: Disjoint(AccountOf(op), AccountOf(f.ops[j]));
  }

  lemma BootstrapKeepsFleet(f: Fleet, slice: string)
    requires FleetInv(f)
    ensures FleetInv(f.(net := f.net.(slice := Some(slice))))
  {
    var net' := f.net.(slice := Some(slice));
    forall id | id in f.ops ensures Holds(AccountOf(f.ops[id]), net') {
      assert Holds(AccountOf(f.ops[id]), f.net);
    }
  }

  lemma NextKeepsFleet(f: Fleet, m: Move)
    requires FleetInv(f)
    ensures FleetInv(Next(f, m))
  {
    match m
    case Bootstrap(slice) => BootstrapKeepsFleet(f, slice);
    case Begin(id, device, profile, expected) =>
      if id !in f.ops && expected >= 1 {
        StartHolds(device, profile, expected, f.net);
        StartHasInv(device, profile, expected);
        StartHasGrants(device, profile, expected);
        BeginKeepsFleet(f, id, Started(device, profile, expected));
      }
    case Drive(id, i) =>
      if id in f.ops {
        StepKeeps(f.ops[id], f.net, i);
        StepKeepsSound(f.ops[id], f.net, i);
        var (op', net') := Step(f.ops[id], f.net, i);
        ReplaceKeepsFleet(f, id, op', net');
      }
  }

  lemma {:induction false} PlayKeepsFleet(f: Fleet, ms: seq<Move>)
    requires FleetInv(f)
    ensures FleetInv(Play(f, ms))
    decreases |ms|
  {
    if ms != [] {
      NextKeepsFleet(f, ms[0]);
      PlayKeepsFleet(Next(f, ms[0]), ms[1..]);
    }
  }

  // ── What that means ─────────────────────────────────────────────────

  /** Every interleaving, from an empty network: nothing leaks and nothing is shared. */
  lemma NothingLeaks(ms: seq<Move>)
    ensures FleetInv(Play(EMPTY, ms))
  {
    assert AllLiveSessions(EMPTY.ops) == {} && AllLiveAttachments(EMPTY.ops) == {};
    PlayKeepsFleet(EMPTY, ms);
  }

  lemma SoundAt(f: Fleet, id: nat)
    requires FleetInv(f) && id in f.ops
    ensures Sound(f.ops[id]) && Holds(AccountOf(f.ops[id]), f.net)
  {
  }

  lemma EndedHolds(op: Op, net: Net)
    requires OpInv(op) && Holds(AccountOf(op), net)
    ensures op.pc == Done(GaveBack) ==>
              && LiveSessions(AccountOf(op)) == op.books.orphans && LiveAttachments(AccountOf(op)) == {}
              && |op.books.orphans| <= 2
    ensures op.pc == Done(NothingHeld) ==>
              LiveSessions(AccountOf(op)) == op.books.orphans && LiveAttachments(AccountOf(op)) == {}
  {
  }

  /** An operation that gave back holds no attachment, and at most two sessions it never received. */
  lemma EndedOperationHoldsOnlyOrphans(ms: seq<Move>, id: nat)
    requires id in Play(EMPTY, ms).ops && Play(EMPTY, ms).ops[id].pc == Done(GaveBack)
    ensures var f := Play(EMPTY, ms); var a, op := AccountOf(f.ops[id]), f.ops[id];
            && f.net.attachments.Keys * ClaimedAttachments(a) == {}
            && f.net.sessions.Keys * ClaimedSessions(a) == op.books.orphans
            && |op.books.orphans| <= 2
            && forall o | o in op.books.orphans ::
                 o in f.net.sessions
                 && f.net.sessions[o] == Session(REQUESTED, op.profile, op.expected + 60, None, None)
  {
    NothingLeaks(ms);
    var f := Play(EMPTY, ms);
    SoundAt(f, id);
    EndedHolds(f.ops[id], f.net);
  }

  /** When every operation has ended well and no cleanup ever failed, the network is empty. */
  lemma QuietNetworkIsEmpty(ms: seq<Move>)
    requires forall id | id in Play(EMPTY, ms).ops ::
               var op := Play(EMPTY, ms).ops[id];
               op.books.orphans == {} && (op.pc == Done(GaveBack) || op.pc == Done(NothingHeld))
    ensures Play(EMPTY, ms).net.sessions == map[] && Play(EMPTY, ms).net.attachments == map[]
  {
    NothingLeaks(ms);
    var f := Play(EMPTY, ms);
    forall id | id in f.ops
      ensures LiveSessions(AccountOf(f.ops[id])) == {} && LiveAttachments(AccountOf(f.ops[id])) == {}
    {
      SoundAt(f, id);
      EndedHolds(f.ops[id], f.net);
    }
    assert f.net.sessions.Keys == {} && f.net.attachments.Keys == {};
  }

  /** Whatever one operation does, release included, the others keep exactly what they held. */
  lemma OneStepLeavesOthersAlone(ms: seq<Move>, id: nat, i: Input, other: nat)
    requires id in Play(EMPTY, ms).ops && other in Play(EMPTY, ms).ops && other != id
    ensures var f := Play(EMPTY, ms); var f' := Next(f, Drive(id, i)); var b := AccountOf(f.ops[other]);
            && f'.ops[other] == f.ops[other]
            && LiveAttachments(b) <= f'.net.attachments.Keys
            && forall s | s in LiveSessions(b) ::
                 s in f.net.sessions && s in f'.net.sessions && f'.net.sessions[s] == f.net.sessions[s]
  {
    hide Play, Step, Holds, Keeps, AllIssued, OpInv, GrantInv, AccountOf, LiveSessions, LiveAttachments;
    NothingLeaks(ms);
    var f := Play(EMPTY, ms);
    SoundAt(f, id);
    SoundAt(f, other);
    StepKeeps(f.ops[id], f.net, i);
    var (op', net') := Step(f.ops[id], f.net, i);
    OthersHold(AccountOf(f.ops[id]), f.net, AccountOf(op'), net', AccountOf(f.ops[other]));
  }

  lemma LiveSessionIsPaidFor(op: Op, net: Net)
    requires Sound(op) && Holds(AccountOf(op), net)
    requires op.alloc.session.Some? && !op.books.sessionGone
    ensures op.alloc.session.value in net.sessions
    ensures var s := net.sessions[op.alloc.session.value];
            s.duration == Granted(op) <= GrantCap(op) && Consistent(s)
  {
    assert op.alloc.session.value in LiveSessions(AccountOf(op));
  }

  /** The seconds on the network are the seconds in the books, and the books are capped. */
  lemma GrantedSecondsAreExactAndCapped(ms: seq<Move>, id: nat)
    requires id in Play(EMPTY, ms).ops
    requires Play(EMPTY, ms).ops[id].alloc.session.Some? && !Play(EMPTY, ms).ops[id].books.sessionGone
    ensures Play(EMPTY, ms).ops[id].alloc.session.value in Play(EMPTY, ms).net.sessions
    ensures var f := Play(EMPTY, ms); var op := f.ops[id]; var s := f.net.sessions[op.alloc.session.value];
            && s.duration == op.expected + 60 + op.loop.waited + op.loop.suspendedFor - op.books.forgone
            && s.duration <= 5 * op.expected + 958
            && (op.expected >= 30 ==> s.duration <= 4 * op.expected + 959)
            && (s.startedAt.Some? ==> s.expiresAt == Some(s.startedAt.value + s.duration))
  {
    hide Play, Holds, Sound, GrantCap;
    NothingLeaks(ms);
    var f := Play(EMPTY, ms);
    SoundAt(f, id);
    GrantCapInSeconds(f.ops[id]);
    LiveSessionIsPaidFor(f.ops[id], f.net);
  }

  // ── A fleet's operation is a run of its own ─────────────────────────

  /** What one operation met along the way. */
  function Met(f: Fleet, ms: seq<Move>, id: nat): seq<Turn>
    decreases |ms|
  {
    if ms == [] then []
    else (if ms[0].Drive? && ms[0].id == id then [Turn(f.net, ms[0].input)] else []) + Met(Next(f, ms[0]), ms[1..], id)
  }

  /** So everything proved of a single run holds of each operation in any fleet. */
  lemma {:induction false} EachOperationIsARun(f: Fleet, ms: seq<Move>, id: nat)
    requires id in f.ops
    ensures id in Play(f, ms).ops && Play(f, ms).ops[id] == Exec(f.ops[id], Met(f, ms, id))
    decreases |ms|
  {
    if ms != [] {
      var f', rest := Next(f, ms[0]), Met(Next(f, ms[0]), ms[1..], id);
      EachOperationIsARun(f', ms[1..], id);
      if ms[0].Drive? && ms[0].id == id {
        assert Met(f, ms, id)[1..] == rest;
      } else {
        assert Met(f, ms, id) == rest;
      }
    }
  }
}
