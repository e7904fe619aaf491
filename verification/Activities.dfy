/** One attempt at each activity that changes the network, and what it leaves behind. */
module Activities {
  import opened Shared
  import opened Network

  /** The allocation dict the workflow keeps: what this operation recorded as its own. */
  datatype Alloc = Alloc(session: Option<string>, slice: Option<string>, attachment: Option<string>)

  const NOTHING := Alloc(None, None, None)

  // ── Which provider calls raise, during one attempt ──────────────────

  datatype AllocateFaults = AllocateFaults(create: bool, attach: bool, cleanup: bool)

  datatype ReleaseFaults = ReleaseFaults(delete: bool, detach: bool)

  // ── Allocate ────────────────────────────────────────────────────────

  datatype AllocateOutcome =
    | Allocated(alloc: Alloc)
    | Refused                          // a NONE decision: not retried
    | Raised(orphan: Option<string>)   // the session a failed cleanup left behind

  function Allocate(net: Net, device: string, profile: string, action: NetworkAction, duration: int,
                    f: AllocateFaults): (Net, AllocateOutcome)
  {
    if action == NONE then (net, Refused)
    else if f.create then (net, Raised(None))
    else
      var (net1, session) := Create(net, device, profile, duration);
      if action == QOD || net.slice == None then
        (net1, Allocated(Alloc(Some(session), None, None)))
      else if f.attach then
        if f.cleanup then (net1, Raised(Some(session))) else (Delete(net1, session), Raised(None))
      else
        var (net2, attachment) := Attach(net1, device, net.slice.value);
        (net2, Allocated(Alloc(Some(session), net.slice, Some(attachment))))
  }

  // ── Escalate ────────────────────────────────────────────────────────

  datatype EscalateOutcome = Attached(slice: string, attachment: string) | SliceUnavailable | EscalateRaised

  function Escalate(net: Net, device: string, attachRaises: bool): (Net, EscalateOutcome) {
    if net.slice == None then (net, SliceUnavailable)
    else if attachRaises then (net, EscalateRaised)
    else
      var (net1, attachment) := Attach(net, device, net.slice.value);
      (net1, Attached(net.slice.value, attachment))
  }

  // ── Poll, extend ────────────────────────────────────────────────────

  function PollQod(net: Net, session: string, now: int, raises: bool): (Net, Option<QosStatus>) {
    if raises || session !in net.sessions then (net, None)
    else var net1 := Poll(net, session, now); (net1, Some(net1.sessions[session].status))
  }

  function ExtendQod(net: Net, session: string, seconds: int, raises: bool): (Net, bool) {
    if raises || session !in net.sessions then (net, false)
    else (Extend(net, session, seconds), true)
  }

  // ── Release ─────────────────────────────────────────────────────────

  datatype Released = Released(qod: bool, slice: bool, complete: bool)

  /** Each resource goes back independently: one failure does not keep the other. */
  function Release(net: Net, a: Alloc, f: ReleaseFaults): (Net, Released) {
    var qod := a.session.Some? && !f.delete;
    var slice := a.attachment.Some? && a.slice.Some? && !f.detach;
    var net1 := if qod then Delete(net, a.session.value) else net;
    var net2 := if slice then Detach(net1, a.attachment.value) else net1;
    (net2, Released(qod, slice,
      && (a.session.Some? ==> qod)
      && (a.attachment.Some? && a.slice.Some? ==> slice)))
  }

  // ── The activities themselves ───────────────────────────────────────

  class NetworkActivities {
    const provider: MockNetworkProvider
    const qosProfile: string

    constructor (provider: MockNetworkProvider, qosProfile: string)
      ensures this.provider == provider && this.qosProfile == qosProfile
    {
      this.provider, this.qosProfile := provider, qosProfile;
    }

    method AllocateAttempt(device: string, action: NetworkAction, duration: int, f: AllocateFaults)
      returns (outcome: AllocateOutcome)
      requires provider.Valid()
      modifies provider.Repr()
      ensures provider.Valid() && fresh(provider.Repr() - old(provider.Repr()))
      ensures (provider.View(), outcome) ==
              Allocate(old(provider.View()), device, qosProfile, action, duration, f)
    {
      if action == NONE { return Refused; }
      if f.create { return Raised(None); }
      ghost var before := provider.View();
      var session := provider.CreateQodSession(device, qosProfile, duration);
      var alloc := Alloc(Some(session.sessionId), None, None);
      if action == QOD_AND_SLICE {
        var slice := provider.sliceId;
        if slice.Some? {
          if f.attach {
            // The workflow has not been given this session yet, so nobody else will release it.
            if !f.cleanup {
              provider.DeleteQodSession(session.sessionId);
              return Raised(None);
            }
            return Raised(Some(session.sessionId));
          }
          var attachment := provider.AttachDeviceToSlice(device, slice.value);
          alloc := alloc.(slice := slice, attachment := Some(attachment));
        }
      }
      outcome := Allocated(alloc);
    }

    method EscalateToSlice(device: string, attachRaises: bool) returns (outcome: EscalateOutcome)
      requires provider.Valid()
      modifies provider.Repr()
      ensures provider.Valid() && provider.Repr() == old(provider.Repr())
      ensures (provider.View(), outcome) == Escalate(old(provider.View()), device, attachRaises)
    {
      var slice := provider.sliceId;
      if slice.None? { return SliceUnavailable; }
      if attachRaises { return EscalateRaised; }
      var attachment := provider.AttachDeviceToSlice(device, slice.value);
      outcome := Attached(slice.value, attachment);
    }

    method PollQodSession(session: string, now: int, raises: bool) returns (status: Option<QosStatus>)
      requires provider.Valid()
      modifies provider.Repr()
      ensures provider.Valid() && provider.Repr() == old(provider.Repr())
      ensures (provider.View(), status) == PollQod(old(provider.View()), session, now, raises)
    {
      if raises { return None; }
      status := provider.GetQodSession(session, now);
    }

    method ExtendQodSession(session: string, seconds: int, raises: bool) returns (ok: bool)
      requires provider.Valid()
      modifies provider.Repr()
      ensures provider.Valid() && provider.Repr() == old(provider.Repr())
      ensures (provider.View(), ok) == ExtendQod(old(provider.View()), session, seconds, raises)
    {
      if raises { return false; }
      ok := provider.ExtendQodSession(session, seconds);
    }

    method ReleaseAttempt(a: Alloc, f: ReleaseFaults) returns (released: Released)
      requires provider.Valid()
      modifies provider.Repr()
      ensures provider.Valid() && provider.Repr() <= old(provider.Repr())
      ensures (provider.View(), released) == Release(old(provider.View()), a, f)
    {
      var qod, slice, errors := false, false, 0;
      if a.session.Some? {
        if f.delete {
          errors := errors + 1;
        } else {
          provider.DeleteQodSession(a.session.value);
          qod := true;
        }
      }
      if a.attachment.Some? && a.slice.Some? {
        if f.detach {
          errors := errors + 1;
        } else {
          provider.DetachDeviceFromSlice(a.attachment.value);
          slice := true;
        }
      }
      released := Released(qod, slice, errors == 0);
    }
  }
}
