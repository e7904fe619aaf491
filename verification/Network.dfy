/** What an operation can hold on the mobile network: QoD sessions and slice attachments. */
module Network {
  import opened Shared
  import Text

  /** Times are whole seconds; a session has none until its first poll. */
  datatype Session = Session(
    status: QosStatus,
    profile: string,
    duration: int,
    startedAt: Option<int>,
    expiresAt: Option<int>)

  /** The provider's whole state. `slice` is the pre-provisioned slice, if it is ready. */
  datatype Net = Net(
    sessions: map<string, Session>,
    attachments: map<string, string>,
    slice: Option<string>,
    counter: nat)

  function SessionId(device: string, n: nat): string { "mock-qod-" + device + "-" + Text.Padded(n, 4) }

  function AttachmentId(device: string, n: nat): string { "mock-attach-" + device + "-" + Text.Padded(n, 4) }

  // ── Ids ─────────────────────────────────────────────────────────────

  /** Ids printed from different counter values differ, whatever the devices are called. */
  lemma SessionIdsDiffer(d: string, m: nat, e: string, n: nat)
    requires SessionId(d, m) == SessionId(e, n)
    ensures d == e && m == n
  {
    var a, b := "mock-qod-" + d, "mock-qod-" + e;
    Text.SplitLast(a, Text.Padded(m, 4), b, Text.Padded(n, 4), '-');
    Text.PaddedInjective(m, n, 4);
    assert d == a[9..] && e == b[9..];
  }

  lemma AttachmentIdsDiffer(d: string, m: nat, e: string, n: nat)
    requires AttachmentId(d, m) == AttachmentId(e, n)
    ensures d == e && m == n
  {
    var a, b := "mock-attach-" + d, "mock-attach-" + e;
    Text.SplitLast(a, Text.Padded(m, 4), b, Text.Padded(n, 4), '-');
    Text.PaddedInjective(m, n, 4);
    assert d == a[12..] && e == b[12..];
  }

  /** Printed from a counter value that has been used. */
  ghost predicate IssuedSession(s: string, counter: nat) {
    exists d: string, n: nat :: 1 <= n <= counter && s == SessionId(d, n)
  }

  ghost predicate IssuedAttachment(s: string, counter: nat) {
    exists d: string, n: nat :: 1 <= n <= counter && s == AttachmentId(d, n)
  }

  /** The next id of either kind has never been handed out. */
  lemma NextIdsAreNew(device: string, counter: nat)
    ensures !IssuedSession(SessionId(device, counter + 1), counter)
    ensures !IssuedAttachment(AttachmentId(device, counter + 1), counter)
  {
    forall d: string, n: nat | 1 <= n <= counter
      ensures SessionId(device, counter + 1) != SessionId(d, n)
      ensures AttachmentId(device, counter + 1) != AttachmentId(d, n)
    {
      if SessionId(device, counter + 1) == SessionId(d, n) {
        SessionIdsDiffer(device, counter + 1, d, n);
      }
      if AttachmentId(device, counter + 1) == AttachmentId(d, n) {
        AttachmentIdsDiffer(device, counter + 1, d, n);
      }
    }
  }

  // ── What each call does to the state ────────────────────────────────

  function Create(net: Net, device: string, profile: string, duration: int): (Net, string) {
    var id := SessionId(device, net.counter + 1);
    (net.(counter := net.counter + 1,
          sessions := net.sessions[id := Session(REQUESTED, profile, duration, None, None)]),
     id)
  }

  /** A poll: the first one is what makes a session available. */
  function Polled(s: Session, now: int): Session {
    if s.status == REQUESTED
    then s.(status := AVAILABLE, startedAt := Some(now), expiresAt := Some(now + s.duration))
    else s
  }

  function Poll(net: Net, id: string, now: int): Net
    requires id in net.sessions
  {
    net.(sessions := net.sessions[id := Polled(net.sessions[id], now)])
  }

  function Extended(s: Session, seconds: int): Session {
    s.(duration := s.duration + seconds,
       expiresAt := if s.expiresAt.Some? then Some(s.expiresAt.value + seconds) else None)
  }

  function Extend(net: Net, id: string, seconds: int): Net
    requires id in net.sessions
  {
    net.(sessions := net.sessions[id := Extended(net.sessions[id], seconds)])
  }

  function Delete(net: Net, id: string): Net {
    net.(sessions := net.sessions - {id})
  }

  function Attach(net: Net, device: string, slice: string): (Net, string) {
    var id := AttachmentId(device, net.counter + 1);
    (net.(counter := net.counter + 1, attachments := net.attachments[id := slice]), id)
  }

  function Detach(net: Net, id: string): Net {
    net.(attachments := net.attachments - {id})
  }

  /** A session that has started expires exactly its duration after it started. */
  predicate Consistent(s: Session) {
    && (s.startedAt.Some? <==> s.expiresAt.Some?)
    && (s.status == REQUESTED ==> s.startedAt.None?)
    && (s.startedAt.Some? ==> s.expiresAt.value == s.startedAt.value + s.duration)
  }

  // ── The life of a session ───────────────────────────────────────────

  /** What an operation does to its session while it holds it. */
  datatype Use = Polling(now: int) | Extending(seconds: int)

  function Used(s: Session, us: seq<Use>): Session {
    if us == [] then s
    else
      var before := Used(s, us[..|us| - 1]);
      match us[|us| - 1]
      case Polling(now) => Polled(before, now)
      case Extending(seconds) => Extended(before, seconds)
  }

  function Bought(us: seq<Use>): int {
    if us == [] then 0
    else Bought(us[..|us| - 1]) + if us[|us| - 1].Extending? then us[|us| - 1].seconds else 0
  }

  ghost predicate FirstPolledAt(us: seq<Use>, now: int) {
    exists k | 0 <= k < |us| :: us[k] == Polling(now) && forall j | 0 <= j < k :: us[j].Extending?
  }

  lemma FirstPolledOneMore(init: seq<Use>, u: Use, now: int)
    ensures FirstPolledAt(init + [u], now)
            <==> FirstPolledAt(init, now) || (u == Polling(now) && forall j | 0 <= j < |init| :: init[j].Extending?)
  {
    var us := init + [u];
    if FirstPolledAt(init, now) {
      var k :| 0 <= k < |init| && init[k] == Polling(now) && forall j | 0 <= j < k :: init[j].Extending?;
      assert us[k] == Polling(now) && forall j | 0 <= j < k :: us[j] == init[j];
    }
    if FirstPolledAt(us, now) {
      var k :| 0 <= k < |us| && us[k] == Polling(now) && forall j | 0 <= j < k :: us[j].Extending?;
      assert forall j | 0 <= j < k :: us[j] == init[j];
      if k < |init| { assert init[k] == Polling(now); }
    }
    if u == Polling(now) && forall j | 0 <= j < |init| :: init[j].Extending? {
      assert us[|init|] == Polling(now) && forall j | 0 <= j < |init| :: us[j] == init[j];
    }
  }

  /** The clock starts at the first poll and is never restarted, and every second bought counts, before it or after. */
  lemma {:induction false} SessionLifeIs(profile: string, duration: int, us: seq<Use>)
    ensures var s := Used(Session(REQUESTED, profile, duration, None, None), us);
            && s.profile == profile && s.duration == duration + Bought(us)
            && (forall now :: s.startedAt == Some(now) <==> FirstPolledAt(us, now))
            && s.status == (if s.startedAt.Some? then AVAILABLE else REQUESTED)
            && s.expiresAt == (if s.startedAt.Some? then Some(s.startedAt.value + s.duration) else None)
            && (s.startedAt.None? <==> forall j | 0 <= j < |us| :: us[j].Extending?)
  {
    hide FirstPolledAt;
    if us == [] {
      forall now ensures !FirstPolledAt([], now) { NeverPolled(now); }
    } else {
      var init, u := us[..|us| - 1], us[|us| - 1];
      SessionLifeIs(profile, duration, init);
      assert us == init + [u];
      forall now { FirstPolledOneMore(init, u, now); }
    }
  }

  lemma NeverPolled(now: int)
    ensures !FirstPolledAt([], now)
  {
  }

  // ── The provider ────────────────────────────────────────────────────

  class QodSession {
    const sessionId: string
    var qosStatus: QosStatus
    const qosProfile: string
    var durationSeconds: int
    var startedAt: Option<int>
    var expiresAt: Option<int>

    constructor (sessionId: string, qosProfile: string, durationSeconds: int)
      ensures this.sessionId == sessionId
      ensures View() == Session(REQUESTED, qosProfile, durationSeconds, None, None)
    {
      this.sessionId, this.qosProfile, this.durationSeconds := sessionId, qosProfile, durationSeconds;
      qosStatus, startedAt, expiresAt := REQUESTED, None, None;
    }

    ghost function View(): Session reads this {
      Session(qosStatus, qosProfile, durationSeconds, startedAt, expiresAt)
    }
  }

  class MockNetworkProvider {
    var sessions: map<string, QodSession>
    var attachments: map<string, string>
    var sliceId: Option<string>
    var counter: nat

    constructor ()
      ensures Valid() && View() == Net(map[], map[], None, 0) && fresh(Repr())
    {
      sessions, attachments, sliceId, counter := map[], map[], None, 0;
    }

    ghost function Repr(): set<object> reads this { {this} + sessions.Values }

    /** No two entries share a session object. */
    ghost predicate Valid() reads this, sessions.Values {
      forall id | id in sessions :: sessions[id].sessionId == id
    }

    ghost function View(): Net reads this, sessions.Values {
      Net(map id | id in sessions :: sessions[id].View(), attachments, sliceId, counter)
    }

    method Bootstrap(slice: string)
      requires Valid()
      modifies this`sliceId
      ensures Valid() && View() == old(View()).(slice := Some(slice)) && Repr() == old(Repr())
    {
      sliceId := Some(slice);
    }

    method CreateQodSession(device: string, profile: string, duration: int) returns (session: QodSession)
      requires Valid()
      modifies this
      ensures Valid() && fresh(Repr() - old(Repr()))
      ensures session in sessions.Values && session.qosStatus == REQUESTED
      ensures View() == Create(old(View()), device, profile, duration).0
      ensures session.sessionId == Create(old(View()), device, profile, duration).1
    {
      hide SessionId;
      ghost var before := View();
      counter := counter + 1;
      var id := SessionId(device, counter);
      session := new QodSession(id, profile, duration);
      sessions := sessions[id := session];
      assert sessions[id] == session;
      assert View().sessions == before.sessions[id := session.View()];
    }

    /** `None` is the KeyError of an id the provider does not hold. */
    method GetQodSession(id: string, now: int) returns (status: Option<QosStatus>)
      requires Valid()
      modifies Repr()
      ensures Valid() && Repr() == old(Repr())
      ensures id !in old(View()).sessions ==> status == None && View() == old(View())
      ensures id in old(View()).sessions ==>
                View() == Poll(old(View()), id, now) && status == Some(View().sessions[id].status)
    {
      if id !in sessions { return None; }
      var session := sessions[id];
      if session.qosStatus == REQUESTED {
        session.qosStatus := AVAILABLE;
        session.startedAt := Some(now);
        session.expiresAt := Some(now + session.durationSeconds);
      }
      status := Some(session.qosStatus);
    }

    method ExtendQodSession(id: string, seconds: int) returns (ok: bool)
      requires Valid()
      modifies Repr()
      ensures Valid() && Repr() == old(Repr())
      ensures ok == (id in old(View()).sessions)
      ensures View() == if ok then Extend(old(View()), id, seconds) else old(View())
    {
      ok := id in sessions;
      if ok {
        var session := sessions[id];
        session.durationSeconds := session.durationSeconds + seconds;
        if session.expiresAt.Some? {
          session.expiresAt := Some(session.expiresAt.value + seconds);
        }
      }
    }

    method DeleteQodSession(id: string)
      requires Valid()
      modifies this
      ensures Valid() && Repr() <= old(Repr())
      ensures View() == Delete(old(View()), id)
    {
      sessions := sessions - {id};
    }

    method AttachDeviceToSlice(device: string, slice: string) returns (id: string)
      requires Valid()
      modifies this`counter, this`attachments
      ensures Valid() && Repr() == old(Repr())
      ensures View() == Attach(old(View()), device, slice).0
      ensures id == Attach(old(View()), device, slice).1
    {
      counter := counter + 1;
      id := AttachmentId(device, counter);
      attachments := attachments[id := slice];
    }

    method DetachDeviceFromSlice(id: string)
      requires Valid()
      modifies this`attachments
      ensures Valid() && Repr() == old(Repr())
      ensures View() == Detach(old(View()), id)
    {
      attachments := attachments - {id};
    }
  }
}
