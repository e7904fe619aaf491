/** What one operation accounts for on the network, and how each provider call changes it. */
module Accounts {
  import opened Shared
  import opened Network
  import opened Activities

  datatype Account = Account(
    orphans: set<string>,
    session: Option<string>,
    sessionGone: bool,
    attachment: Option<string>,
    attachmentGone: bool,
    granted: int,
    initial: Session)       // a session as this operation asks for it

  /** Every session id this operation was ever given, and those it has not given back. */
  function ClaimedSessions(a: Account): set<string> {
    a.orphans + if a.session.Some? then {a.session.value} else {}
  }

  function LiveSessions(a: Account): set<string> {
    a.orphans + if a.session.Some? && !a.sessionGone then {a.session.value} else {}
  }

  function ClaimedAttachments(a: Account): set<string> {
    if a.attachment.Some? then {a.attachment.value} else {}
  }

  function LiveAttachments(a: Account): set<string> {
    if a.attachment.Some? && !a.attachmentGone then {a.attachment.value} else {}
  }

  /** Nothing on the network came from anywhere but the counter. */
  ghost predicate AllIssued(net: Net) {
    && (forall s | s in net.sessions :: IssuedSession(s, net.counter))
    && (forall t | t in net.attachments :: IssuedAttachment(t, net.counter))
  }

  ghost predicate ClaimsIssued(a: Account, counter: nat) {
    && (forall s | s in ClaimedSessions(a) :: IssuedSession(s, counter))
    && (forall t | t in ClaimedAttachments(a) :: IssuedAttachment(t, counter))
  }

  /** Of everything claimed, the network holds exactly what is live. */
  predicate HoldsExactly(a: Account, net: Net) {
    && net.sessions.Keys * ClaimedSessions(a) == LiveSessions(a)
    && net.attachments.Keys * ClaimedAttachments(a) == LiveAttachments(a)
    && (a.session.Some? ==> a.session.value !in a.orphans)
  }

  /** An orphan is as it was created; the live session lasts exactly what was granted. */
  predicate PaidFor(a: Account, net: Net) {
    && (forall o | o in a.orphans && o in net.sessions :: net.sessions[o] == a.initial)
    && (a.session.Some? && a.session.value in net.sessions ==>
          && net.sessions[a.session.value].duration == a.granted
          && Consistent(net.sessions[a.session.value]))
  }

  ghost predicate Holds(a: Account, net: Net) {
    HoldsExactly(a, net) && ClaimsIssued(a, net.counter) && PaidFor(a, net)
  }

  /** The effect of one operation's step on the network, as every other operation sees it. */
  ghost predicate Moved(a: Account, net: Net, a': Account, net': Net) {
    && net'.counter >= net.counter && net'.slice == net.slice
    && net'.sessions.Keys == (net.sessions.Keys - LiveSessions(a)) + LiveSessions(a')
    && net'.attachments.Keys == (net.attachments.Keys - LiveAttachments(a)) + LiveAttachments(a')
    && (forall s | s in net.sessions && s !in LiveSessions(a) ::
          s in net'.sessions && net'.sessions[s] == net.sessions[s])
    && (forall s | s in ClaimedSessions(a') - ClaimedSessions(a) :: !IssuedSession(s, net.counter))
    && (forall t | t in ClaimedAttachments(a') - ClaimedAttachments(a) :: !IssuedAttachment(t, net.counter))
  }

  ghost predicate Keeps(a: Account, net: Net, a': Account, net': Net) {
    Holds(a', net') && AllIssued(net') && Moved(a, net, a', net')
  }

  lemma IssuedLater(net: Net, c: nat)
    requires AllIssued(net) && net.counter <= c
    ensures forall s | s in net.sessions :: IssuedSession(s, c)
    ensures forall t | t in net.attachments :: IssuedAttachment(t, c)
  {
  }

  lemma ClaimsIssuedLater(a: Account, c: nat, c': nat)
    requires ClaimsIssued(a, c) && c <= c'
    ensures ClaimsIssued(a, c')
  {
  }

  lemma NewIdsAreIssued(device: string, counter: nat)
    ensures IssuedSession(SessionId(device, counter + 1), counter + 1)
    ensures IssuedAttachment(AttachmentId(device, counter + 1), counter + 1)
  {
  }

  lemma NothingKeeps(a: Account, net: Net)
    requires Holds(a, net) && AllIssued(net)
    ensures Keeps(a, net, a, net)
  {
    assert net.sessions.Keys == (net.sessions.Keys - LiveSessions(a)) + LiveSessions(a);
    assert net.attachments.Keys == (net.attachments.Keys - LiveAttachments(a)) + LiveAttachments(a);
  }

  // ── Call by call ────────────────────────────────────────────────────

  /** Before its first session: nothing recorded, nothing granted beyond the request. */
  predicate Blank(a: Account) {
    && a.session.None? && a.attachment.None? && !a.sessionGone && !a.attachmentGone
    && a.initial == Session(REQUESTED, a.initial.profile, a.initial.duration, None, None)
    && a.granted == a.initial.duration
  }

  lemma CreateIsNew(a: Account, net: Net, device: string)
    requires Holds(a, net) && AllIssued(net)
    ensures var (net', id) := Create(net, device, a.initial.profile, a.initial.duration);
            && id !in net.sessions && id !in ClaimedSessions(a) && !IssuedSession(id, net.counter)
            && net'.sessions.Keys == net.sessions.Keys + {id}
            && AllIssued(net') && ClaimsIssued(a, net'.counter) && IssuedSession(id, net'.counter)
            && net'.attachments.Keys == (net.attachments.Keys - LiveAttachments(a)) + LiveAttachments(a)
  {
    var (net', id) := Create(net, device, a.initial.profile, a.initial.duration);
    NextIdsAreNew(device, net.counter);
    NewIdsAreIssued(device, net.counter);
    IssuedLater(net, net'.counter);
    ClaimsIssuedLater(a, net.counter, net'.counter);
  }

  lemma CreateKeeps(a: Account, net: Net, device: string)
    requires Holds(a, net) && AllIssued(net) && Blank(a)
    ensures var (net', id) := Create(net, device, a.initial.profile, a.initial.duration);
            Keeps(a, net, a.(session := Some(id)), net')
  {
    CreateIsNew(a, net, device);
  }

  lemma CreateOrphanKeeps(a: Account, net: Net, device: string)
    requires Holds(a, net) && AllIssued(net) && Blank(a)
    ensures var (net', id) := Create(net, device, a.initial.profile, a.initial.duration);
            id !in a.orphans && Keeps(a, net, a.(orphans := a.orphans + {id}), net')
  {
    CreateIsNew(a, net, device);
  }

  /** A session that is deleted again at once leaves only a used counter value. */
  lemma CreateDeleteKeeps(a: Account, net: Net, device: string)
    requires Holds(a, net) && AllIssued(net)
    ensures var (net1, id) := Create(net, device, a.initial.profile, a.initial.duration);
            Keeps(a, net, a, Delete(net1, id))
  {
    var (net1, id) := Create(net, device, a.initial.profile, a.initial.duration);
    NextIdsAreNew(device, net.counter);
    assert id !in net.sessions;
    assert Delete(net1, id).sessions == net.sessions;
    IssuedLater(net, net1.counter);
    ClaimsIssuedLater(a, net.counter, net1.counter);
    NothingKeeps(a, net);
  }

  lemma AttachIsNew(a: Account, net: Net, device: string, slice: string)
    requires Holds(a, net) && AllIssued(net)
    ensures var (net', id) := Attach(net, device, slice);
            && id !in net.attachments && !IssuedAttachment(id, net.counter)
            && net'.attachments.Keys == net.attachments.Keys + {id}
            && AllIssued(net') && ClaimsIssued(a, net'.counter) && IssuedAttachment(id, net'.counter)
            && net'.sessions.Keys == (net.sessions.Keys - LiveSessions(a)) + LiveSessions(a)
  {
    var (net', id) := Attach(net, device, slice);
    NextIdsAreNew(device, net.counter);
    NewIdsAreIssued(device, net.counter);
    IssuedLater(net, net'.counter);
    ClaimsIssuedLater(a, net.counter, net'.counter);
  }

  lemma AttachKeeps(a: Account, net: Net, device: string, slice: string)
    requires Holds(a, net) && AllIssued(net) && a.attachment.None? && !a.attachmentGone
    ensures var (net', id) := Attach(net, device, slice);
            Keeps(a, net, a.(attachment := Some(id)), net')
  {
    AttachIsNew(a, net, device, slice);
  }

  lemma PollKeeps(a: Account, net: Net, now: int)
    requires Holds(a, net) && AllIssued(net) && a.session.Some? && a.session.value in net.sessions
    ensures Keeps(a, net, a, Poll(net, a.session.value, now))
  {
    NothingKeeps(a, net);
    assert Poll(net, a.session.value, now).sessions.Keys == net.sessions.Keys;
  }

  lemma ExtendKeeps(a: Account, net: Net, seconds: int)
    requires Holds(a, net) && AllIssued(net) && a.session.Some? && a.session.value in net.sessions
    ensures Keeps(a, net, a.(granted := a.granted + seconds), Extend(net, a.session.value, seconds))
  {
    NothingKeeps(a, net);
    assert Extend(net, a.session.value, seconds).sessions.Keys == net.sessions.Keys;
  }

  lemma DeleteKeeps(a: Account, net: Net)
    requires Holds(a, net) && AllIssued(net) && a.session.Some?
    ensures Keeps(a, net, a.(sessionGone := true), Delete(net, a.session.value))
  {
    var net' := Delete(net, a.session.value);
    assert net'.sessions.Keys == net.sessions.Keys - {a.session.value};
    assert net'.attachments.Keys == (net.attachments.Keys - LiveAttachments(a)) + LiveAttachments(a);
  }

  lemma DetachKeeps(a: Account, net: Net)
    requires Holds(a, net) && AllIssued(net) && a.attachment.Some?
    ensures Keeps(a, net, a.(attachmentGone := true), Detach(net, a.attachment.value))
  {
    var net' := Detach(net, a.attachment.value);
    assert net'.attachments.Keys == net.attachments.Keys - {a.attachment.value};
    assert net'.sessions.Keys == (net.sessions.Keys - LiveSessions(a)) + LiveSessions(a);
  }

  /** Two effects one after the other. */
  lemma KeepsTwice(a: Account, net: Net, b: Account, net1: Net, c: Account, net2: Net)
    requires Holds(a, net) && AllIssued(net)
    requires Keeps(a, net, b, net1) && Keeps(b, net1, c, net2)
    ensures Keeps(a, net, c, net2)
  {
    forall s | s in net.sessions && s !in LiveSessions(a)
      ensures s in net2.sessions && net2.sessions[s] == net.sessions[s]
    {
      assert IssuedSession(s, net.counter) && s !in ClaimedSessions(a) && s !in LiveSessions(b);
    }
    forall t | t in net.attachments && t !in LiveAttachments(a)
      ensures t in net2.attachments
    {
      assert IssuedAttachment(t, net.counter) && t !in ClaimedAttachments(a) && t !in LiveAttachments(b);
    }
    assert net2.sessions.Keys == (net.sessions.Keys - LiveSessions(a)) + LiveSessions(c);
    assert net2.attachments.Keys == (net.attachments.Keys - LiveAttachments(a)) + LiveAttachments(c);
    forall s | s in ClaimedSessions(c) - ClaimedSessions(a) ensures !IssuedSession(s, net.counter) {
      if s !in ClaimedSessions(b) {
        assert !IssuedSession(s, net1.counter);
      }
    }
    forall t | t in ClaimedAttachments(c) - ClaimedAttachments(a) ensures !IssuedAttachment(t, net.counter) {
      if t !in ClaimedAttachments(b) {
        assert !IssuedAttachment(t, net1.counter);
      }
    }
  }

  // ── Activity by activity ────────────────────────────────────────────

  /** The account after one allocate attempt. */
  function AfterAllocate(a: Account, outcome: AllocateOutcome): Account {
    match outcome
    case Allocated(r) => a.(session := r.session, attachment := r.attachment)
    case Refused => a
    case Raised(None) => a
    case Raised(Some(o)) => a.(orphans := a.orphans + {o})
  }

  lemma AllocateKeeps(a: Account, net: Net, device: string, action: NetworkAction, f: AllocateFaults)
    requires Holds(a, net) && AllIssued(net) && Blank(a)
    ensures var (net', outcome) := Allocate(net, device, a.initial.profile, action, a.initial.duration, f);
            Keeps(a, net, AfterAllocate(a, outcome), net')
  {
    var (net1, id) := Create(net, device, a.initial.profile, a.initial.duration);
    if action == NONE || f.create {
      NothingKeeps(a, net);
    } else if action == QOD || net.slice.None? {
      CreateKeeps(a, net, device);
      assert a.(session := Some(id)) == a.(session := Some(id), attachment := None);
    } else if f.attach && f.cleanup {
      CreateOrphanKeeps(a, net, device);
    } else if f.attach {
      CreateDeleteKeeps(a, net, device);
    } else {
      CreateKeeps(a, net, device);
      AttachAfterCreate(a, net, a.(session := Some(id)), net1, device, net.slice.value);
    }
  }

  lemma AttachAfterCreate(a: Account, net: Net, b: Account, net1: Net, device: string, slice: string)
    requires Holds(a, net) && AllIssued(net) && Keeps(a, net, b, net1)
    requires b.attachment.None? && !b.attachmentGone
    ensures var (net2, t) := Attach(net1, device, slice);
            Keeps(a, net, b.(attachment := Some(t)), net2)
  {
    var (net2, t) := Attach(net1, device, slice);
    AttachKeeps(b, net1, device, slice);
    KeepsTwice(a, net, b, net1, b.(attachment := Some(t)), net2);
  }

  lemma ReleaseKeeps(a: Account, net: Net, r: Alloc, f: ReleaseFaults)
    requires Holds(a, net) && AllIssued(net)
    requires a.session == r.session && a.attachment == r.attachment
    ensures var (net', freed) := Release(net, r, f);
            Keeps(a, net, a.(sessionGone := a.sessionGone || freed.qod,
                             attachmentGone := a.attachmentGone || freed.slice), net')
  {
    NothingKeeps(a, net);
    var freed := Release(net, r, f).1;
    if freed.qod { DeleteKeeps(a, net); }
    var net1 := if freed.qod then Delete(net, r.session.value) else net;
    var b := a.(sessionGone := a.sessionGone || freed.qod);
    assert Keeps(a, net, b, net1);
    if freed.slice {
      DetachKeeps(b, net1);
      KeepsTwice(a, net, b, net1, b.(attachmentGone := true), Detach(net1, r.attachment.value));
    }
  }
}
