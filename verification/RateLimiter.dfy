/** The login rate limiter: fixed windows per key, with a pruning nobody can observe. */
module RateLimiter {

  const PRUNE_AT := 10_000

  datatype Window = Window(count: int, resetAt: int)

  datatype Verdict = Verdict(allowed: bool, retryAfterSeconds: int)

  type Windows = map<string, Window>

  function CeilingOfThousandths(ms: int): int { if ms % 1000 == 0 then ms / 1000 else ms / 1000 + 1 }

  function RetryAfter(resetAt: int, at: int): int {
    var seconds := CeilingOfThousandths(resetAt - at);
    if seconds > 1 then seconds else 1
  }

  predicate Expired(ws: Windows, key: string, at: int)
    requires key in ws
  {
    ws[key].resetAt <= at
  }

  /** The unexpired windows: all that can still matter at `at`. */
  function Live(ws: Windows, at: int): Windows { map key | key in ws && !Expired(ws, key, at) :: ws[key] }

  function Pruned(ws: Windows, at: int): Windows { if |ws| < PRUNE_AT then ws else Live(ws, at) }

  /** The window an attempt counts against: the key's own, or a new one once that has expired. */
  function Current(ws: Windows, windowMs: int, key: string, at: int): Window {
    if key in ws && !Expired(ws, key, at) then ws[key] else Window(0, at + windowMs)
  }

  /** One attempt, on a limiter that never prunes. */
  function Attempt(ws: Windows, windowMs: int, key: string, limit: int, at: int): (Windows, Verdict) {
    var window := Current(ws, windowMs, key, at);
    var counted := window.(count := window.count + 1);
    (ws[key := counted], Verdict(counted.count <= limit, RetryAfter(counted.resetAt, at)))
  }

  // ── Histories ───────────────────────────────────────────────────────

  datatype Call = Hit(key: string, limit: int, at: int) | Clear(key: string)

  predicate AtLeast(c: Call, now: int) { c.Hit? ==> c.at >= now }

  /** The clock never runs backwards. */
  predicate Monotone(calls: seq<Call>, now: int)
    decreases |calls|
  {
    calls == [] || (AtLeast(calls[0], now) && Monotone(calls[1..], if calls[0].Hit? then calls[0].at else now))
  }

  function Run(ws: Windows, windowMs: int, calls: seq<Call>, pruning: bool): seq<Verdict>
    decreases |calls|
  {
    if calls == [] then []
    else match calls[0]
      case Clear(key) => Run(ws - {key}, windowMs, calls[1..], pruning)
      case Hit(key, limit, at) =>
        var (ws', v) := Attempt(if pruning then Pruned(ws, at) else ws, windowMs, key, limit, at);
        [v] + Run(ws', windowMs, calls[1..], pruning)
  }

  lemma LiveLater(a: Windows, b: Windows, now: int, at: int)
    requires Live(a, now) == Live(b, now) && now <= at
    ensures Live(a, at) == Live(b, at)
  {
    forall key | key in Live(a, at) ensures key in Live(b, at) && a[key] == b[key] {
      assert key in Live(a, now);
    }
    forall key | key in Live(b, at) ensures key in Live(a, at) && a[key] == b[key] {
      assert key in Live(b, now);
    }
  }

  lemma PruningKeepsTheLive(ws: Windows, at: int)
    ensures Live(Pruned(ws, at), at) == Live(ws, at)
  {
  }

  /** Two stores that agree on what is live give the same verdict and still agree. */
  lemma AttemptSeesOnlyTheLive(a: Windows, b: Windows, windowMs: int, key: string, limit: int, at: int)
    requires Live(a, at) == Live(b, at)
    ensures Attempt(a, windowMs, key, limit, at).1 == Attempt(b, windowMs, key, limit, at).1
    ensures Live(Attempt(a, windowMs, key, limit, at).0, at) == Live(Attempt(b, windowMs, key, limit, at).0, at)
  {
    assert key in Live(a, at) <==> key in a && !Expired(a, key, at);
    assert key in Live(b, at) <==> key in b && !Expired(b, key, at);
    var a', b' := Attempt(a, windowMs, key, limit, at).0, Attempt(b, windowMs, key, limit, at).0;
    assert a'[key] == b'[key];
    forall k | k in Live(a', at) ensures k in Live(b', at) && a'[k] == b'[k] {
      if k != key { assert k in Live(a, at); }
    }
    forall k | k in Live(b', at) ensures k in Live(a', at) && a'[k] == b'[k] {
      if k != key { assert k in Live(b, at); }
    }
  }

  lemma ClearingKeepsTheLive(ws: Windows, key: string, at: int)
    ensures Live(ws - {key}, at) == Live(ws, at) - {key}
  {
  }

  lemma {:induction false} StoresThatAgree(a: Windows, b: Windows, now: int, windowMs: int, calls: seq<Call>)
    requires Live(a, now) == Live(b, now) && Monotone(calls, now)
    ensures Run(a, windowMs, calls, true) == Run(b, windowMs, calls, false)
    decreases |calls|
  {
    hide Live, Pruned, Attempt;
    if calls != [] {
      match calls[0]
      case Clear(key) =>
        ClearingKeepsTheLive(a, key, now);
        ClearingKeepsTheLive(b, key, now);
        StoresThatAgree(a - {key}, b - {key}, now, windowMs, calls[1..]);
      case Hit(key, limit, at) =>
        LiveLater(a, b, now, at);
        PruningKeepsTheLive(a, at);
        AttemptSeesOnlyTheLive(Pruned(a, at), b, windowMs, key, limit, at);
        StoresThatAgree(Attempt(Pruned(a, at), windowMs, key, limit, at).0, Attempt(b, windowMs, key, limit, at).0,
                        at, windowMs, calls[1..]);
    }
  }

  /** Pruning cannot be observed: every history gets the verdicts of a limiter that keeps everything. */
  lemma PruningIsInvisible(windowMs: int, calls: seq<Call>, now: int)
    requires Monotone(calls, now)
    ensures Run(map[], windowMs, calls, true) == Run(map[], windowMs, calls, false)
  {
    StoresThatAgree(map[], map[], now, windowMs, calls);
  }

  // ── What the windows admit ──────────────────────────────────────────

  /** Allowed attempts on `key` with times in `[from, from + windowMs)`. */
  function AdmittedWithin(ws: Windows, windowMs: int, calls: seq<Call>, key: string, from: int): nat
    decreases |calls|
  {
    if calls == [] then 0
    else match calls[0]
      case Clear(k) => AdmittedWithin(ws - {k}, windowMs, calls[1..], key, from)
      case Hit(k, limit, at) =>
        var (ws', v) := Attempt(ws, windowMs, k, limit, at);
        (if k == key && v.allowed && from <= at < from + windowMs then 1 else 0)
        + AdmittedWithin(ws', windowMs, calls[1..], key, from)
  }

  /** The key is always tried with one limit and never cleared. */
  predicate Steady(calls: seq<Call>, key: string, limit: int) {
    forall k | 0 <= k < |calls| && calls[k].key == key :: calls[k].Hit? && calls[k].limit == limit
  }

  /** The most one interval can admit: a window it cut into has already spent its first attempt. */
  function MostAdmitted(limit: nat): nat { if limit == 0 then 0 else 2 * limit - 1 }

  /** How many more attempts an interval that has begun can still admit. */
  function Allowance(ws: Windows, windowMs: int, key: string, limit: nat, from: int): int {
    if key !in ws then limit
    else
      var w := ws[key];
      var left := if w.count < limit then limit - w.count else 0;
      if w.resetAt - windowMs < from then left + limit else left
  }

  /** The key's window holds an attempt already, and began no later than now. */
  predicate StartedBy(ws: Windows, windowMs: int, key: string, now: int) {
    key in ws ==> 1 <= ws[key].count && ws[key].resetAt - windowMs <= now
  }

  lemma {:induction false} AllowanceBounds(ws: Windows, windowMs: int, calls: seq<Call>, key: string, limit: nat,
                                           from: int, now: int)
    requires windowMs > 0 && Monotone(calls, now) && Steady(calls, key, limit) && StartedBy(ws, windowMs, key, now)
    ensures AdmittedWithin(ws, windowMs, calls, key, from) <= MostAdmitted(limit)
    ensures now >= from + windowMs ==> AdmittedWithin(ws, windowMs, calls, key, from) == 0
    ensures now >= from ==> AdmittedWithin(ws, windowMs, calls, key, from) <= Allowance(ws, windowMs, key, limit, from)
    decreases |calls|
  {
    if calls != [] {
      assert Steady(calls[1..], key, limit);
      match calls[0]
      case Clear(k) =>
        assert k != key;
        AllowanceBounds(ws - {k}, windowMs, calls[1..], key, limit, from, now);
      case Hit(k, l, at) =>
        var ws' := Attempt(ws, windowMs, k, l, at).0;
        AllowanceBounds(ws', windowMs, calls[1..], key, limit, from, at);
    }
  }

  /** In any interval one window long, a steady key is let through fewer than twice its limit times. */
  lemma FewerThanTwiceTheLimit(windowMs: int, calls: seq<Call>, key: string, limit: nat, from: int, now: int)
    requires windowMs > 0 && Monotone(calls, now) && Steady(calls, key, limit)
    ensures AdmittedWithin(map[], windowMs, calls, key, from) <= MostAdmitted(limit)
  {
    AllowanceBounds(map[], windowMs, calls, key, limit, from, now);
  }

  /** `n` attempts at the same moment. */
  function Burst(key: string, limit: int, at: int, n: nat): seq<Call> { seq(n, k => Hit(key, limit, at)) }

  lemma {:induction false} BurstThen(ws: Windows, windowMs: int, key: string, limit: nat, at: int, n: nat,
                                     rest: seq<Call>, from: int)
    requires key in ws && at < ws[key].resetAt && 0 <= ws[key].count && ws[key].count + n <= limit
    requires from <= at < from + windowMs
    ensures AdmittedWithin(ws, windowMs, Burst(key, limit, at, n) + rest, key, from)
            == n + AdmittedWithin(ws[key := Window(ws[key].count + n, ws[key].resetAt)], windowMs, rest, key, from)
    decreases n
  {
    var calls := Burst(key, limit, at, n) + rest;
    if n == 0 {
      assert calls == rest && ws[key := Window(ws[key].count + n, ws[key].resetAt)] == ws;
    } else {
      var ws' := Attempt(ws, windowMs, key, limit, at).0;
      assert calls[0] == Hit(key, limit, at) && calls[1..] == Burst(key, limit, at, n - 1) + rest;
      BurstThen(ws', windowMs, key, limit, at, n - 1, rest, from);
      assert ws'[key := Window(ws'[key].count + (n - 1), ws'[key].resetAt)]
             == ws[key := Window(ws[key].count + n, ws[key].resetAt)];
    }
  }

  /** One attempt to open a window, the rest just before it closes, and a full window straight after. */
  function Straddling(windowMs: int, key: string, limit: nat): seq<Call>
    requires limit >= 1
  {
    [Hit(key, limit, 0)]
    + (Burst(key, limit, windowMs - 1, limit - 1)
       + ([Hit(key, limit, windowMs)] + (Burst(key, limit, windowMs, limit - 1) + [])))
  }

  lemma StraddlingIsSteady(windowMs: int, key: string, limit: nat)
    requires windowMs >= 2 && limit >= 1
    ensures var calls := Straddling(windowMs, key, limit); Monotone(calls, 0) && Steady(calls, key, limit)
  {
    InOrder(Straddling(windowMs, key, limit), 0);
  }

  /** And it can be let through that often: the bound is attained for every limit and window. */
  lemma TheBoundIsAttained(windowMs: int, key: string, limit: nat)
    requires windowMs >= 2 && limit >= 1
    ensures var calls := Straddling(windowMs, key, limit);
            && Monotone(calls, 0) && Steady(calls, key, limit)
            && AdmittedWithin(map[], windowMs, calls, key, windowMs - 1) == MostAdmitted(limit)
  {
    hide AdmittedWithin, Monotone, Steady, Burst;
    StraddlingIsSteady(windowMs, key, limit);
    var again := [Hit(key, limit, windowMs)] + (Burst(key, limit, windowMs, limit - 1) + []);
    var late := Burst(key, limit, windowMs - 1, limit - 1) + again;
    FirstHit(map[], windowMs, key, limit, 0, late, windowMs - 1);
    BurstThen(map[key := Window(1, windowMs)], windowMs, key, limit, windowMs - 1, limit - 1, again, windowMs - 1);
    assert map[key := Window(1, windowMs)][key := Window(limit, windowMs)] == map[key := Window(limit, windowMs)];
    SecondWindow(map[key := Window(limit, windowMs)], windowMs, key, limit);
  }

  lemma FirstHit(ws: Windows, windowMs: int, key: string, limit: nat, at: int, rest: seq<Call>, from: int)
    requires limit >= 1 && (key in ws ==> ws[key].resetAt <= at)
    ensures AdmittedWithin(ws, windowMs, [Hit(key, limit, at)] + rest, key, from)
            == (if from <= at < from + windowMs then 1 else 0)
               + AdmittedWithin(ws[key := Window(1, at + windowMs)], windowMs, rest, key, from)
  {
    assert ([Hit(key, limit, at)] + rest)[1..] == rest;
  }

  lemma SecondWindow(ws: Windows, windowMs: int, key: string, limit: nat)
    requires windowMs >= 2 && limit >= 1 && key in ws && ws[key].resetAt == windowMs
    ensures AdmittedWithin(ws, windowMs, [Hit(key, limit, windowMs)] + (Burst(key, limit, windowMs, limit - 1) + []),
                           key, windowMs - 1) == limit
  {
    FirstHit(ws, windowMs, key, limit, windowMs, Burst(key, limit, windowMs, limit - 1) + [], windowMs - 1);
    BurstThen(ws[key := Window(1, 2 * windowMs)], windowMs, key, limit, windowMs, limit - 1, [], windowMs - 1);
  }

  lemma {:induction false} InOrder(calls: seq<Call>, now: int)
    requires forall k | 0 <= k < |calls| :: calls[k].Hit? && now <= calls[k].at
    requires forall j, k | 0 <= j < k < |calls| :: calls[j].at <= calls[k].at
    ensures Monotone(calls, now)
    decreases |calls|
  {
    if calls != [] { InOrder(calls[1..], calls[0].at); }
  }

  /** Allowed attempts on `key` in `[from, from + windowMs)`, read off the verdicts that were given. */
  function AllowedWithin(calls: seq<Call>, verdicts: seq<Verdict>, windowMs: int, key: string, from: int): nat
    decreases |calls|
  {
    if calls == [] then 0
    else match calls[0]
      case Clear(_) => AllowedWithin(calls[1..], verdicts, windowMs, key, from)
      case Hit(k, _, at) =>
        if verdicts == [] then 0
        else
          (if k == key && verdicts[0].allowed && from <= at < from + windowMs then 1 else 0)
          + AllowedWithin(calls[1..], verdicts[1..], windowMs, key, from)
  }

  lemma {:induction false} VerdictsSayWhatWasAdmitted(ws: Windows, windowMs: int, calls: seq<Call>,
                                                      key: string, from: int)
    ensures AllowedWithin(calls, Run(ws, windowMs, calls, false), windowMs, key, from)
            == AdmittedWithin(ws, windowMs, calls, key, from)
    decreases |calls|
  {
    hide Attempt;
    if calls != [] {
      match calls[0]
      case Clear(k) => VerdictsSayWhatWasAdmitted(ws - {k}, windowMs, calls[1..], key, from);
      case Hit(k, limit, at) =>
        VerdictsSayWhatWasAdmitted(Attempt(ws, windowMs, k, limit, at).0, windowMs, calls[1..], key, from);
    }
  }

  /** The limiter that prunes keeps the bound, and reaches it. */
  lemma PruningKeepsTheBound(windowMs: int, calls: seq<Call>, key: string, limit: nat, from: int, now: int)
    requires windowMs > 0 && Monotone(calls, now) && Steady(calls, key, limit)
    ensures AllowedWithin(calls, Run(map[], windowMs, calls, true), windowMs, key, from) <= MostAdmitted(limit)
    ensures windowMs >= 2 && limit >= 1 && calls == Straddling(windowMs, key, limit) && from == windowMs - 1 ==>
              AllowedWithin(calls, Run(map[], windowMs, calls, true), windowMs, key, from) == MostAdmitted(limit)
  {
    hide Run, AllowedWithin, AdmittedWithin, Straddling, Steady, Monotone;
    PruningIsInvisible(windowMs, calls, now);
    VerdictsSayWhatWasAdmitted(map[], windowMs, calls, key, from);
    FewerThanTwiceTheLimit(windowMs, calls, key, limit, from, now);
    if windowMs >= 2 && limit >= 1 { TheBoundIsAttained(windowMs, key, limit); }
  }

  /** A refused caller is told the least whole number of seconds, one at least, that reaches the reset. */
  lemma RetryAfterIsLeast(ws: Windows, windowMs: int, key: string, limit: int, at: int, seconds: int)
    requires seconds >= 1
    ensures var (ws', v) := Attempt(ws, windowMs, key, limit, at);
            v.retryAfterSeconds >= 1 && (at + 1000 * seconds >= ws'[key].resetAt <==> seconds >= v.retryAfterSeconds)
  {
  }

  /** Opening the window, then counting in it, is one attempt. */
  lemma CountedIsAttempt(ws: Windows, windowMs: int, key: string, limit: int, at: int, counted: Window)
    requires counted == Current(ws, windowMs, key, at).(count := Current(ws, windowMs, key, at).count + 1)
    ensures ws[key := Current(ws, windowMs, key, at)][key := counted] == Attempt(ws, windowMs, key, limit, at).0
    ensures Verdict(counted.count <= limit, RetryAfter(counted.resetAt, at)) == Attempt(ws, windowMs, key, limit, at).1
  {
    hide Current, RetryAfter;
  }

  // ── The limiter ─────────────────────────────────────────────────────

  class WindowCell {
    var count: int
    const resetAt: int
    ghost const owner: string   // the key it was opened for

    constructor (resetAt: int, ghost owner: string)
      ensures count == 0 && this.resetAt == resetAt && this.owner == owner
    {
      count, this.resetAt, this.owner := 0, resetAt, owner;
    }
  }

  class LoginRateLimiter {
    const windowMs: int
    var windows: map<string, WindowCell>

    constructor (windowMs: int)
      ensures this.windowMs == windowMs && Valid() && View() == map[] && fresh(Repr())
    {
      this.windowMs, windows := windowMs, map[];
    }

    ghost function Repr(): set<object> reads this { {this} + windows.Values }

    /** Every key has a window of its own. */
    ghost predicate Valid() reads this {
      forall k | k in windows :: windows[k].owner == k
    }

    ghost function View(): (ws: Windows)
      reads this, windows.Values
      ensures ws.Keys == windows.Keys
    {
      map key | key in windows :: Window(windows[key].count, windows[key].resetAt)
    }

    method PruneIfLarge(at: int)
      requires Valid()
      modifies this
      ensures Valid() && Repr() <= old(Repr())
      ensures View() == Pruned(old(View()), at)
      ensures old(|windows|) < 10_000 ==> windows == old(windows)
    {
      if |windows| < PRUNE_AT { return; }
      var pending := windows.Keys;
      while pending != {}
        invariant windows.Keys <= old(windows.Keys) && pending <= old(windows.Keys)
        invariant forall k | k in windows :: windows[k] == old(windows)[k]
        invariant forall k | k in pending :: k in windows
        invariant forall k | k in old(windows.Keys) - pending :: k in windows <==> old(windows)[k].resetAt > at
        decreases pending
      {
        var key :| key in pending;
        if windows[key].resetAt <= at { windows := windows - {key}; }
        pending := pending - {key};
      }
    }

    /** The key's current window, or a new one in its place. */
    method WindowFor(key: string, at: int) returns (window: WindowCell)
      requires Valid()
      modifies this
      ensures Valid() && fresh(Repr() - old(Repr()))
      ensures key in windows && windows[key] == window && window in Repr()
      ensures var before := old(View());
              View() == before[key := Current(before, windowMs, key, at)]
    {
      if key !in windows || windows[key].resetAt <= at {
        window := new WindowCell(at + windowMs, key);
        windows := windows[key := window];
      } else {
        window := windows[key];
      }
    }

    method Count(key: string) returns (count: int)
      requires Valid() && key in windows
      modifies windows[key]
      ensures Valid() && Repr() == old(Repr())
      ensures count == old(windows[key].count) + 1
      ensures View() == old(View())[key := Window(count, windows[key].resetAt)]
    {
      windows[key].count := windows[key].count + 1;
      count := windows[key].count;
    }

    lemma ViewAt(key: string)
      requires key in windows
      ensures View()[key] == Window(windows[key].count, windows[key].resetAt)
    {
    }

    method Hit(key: string, limit: int, at: int) returns (verdict: Verdict)
      requires Valid()
      modifies Repr()
      ensures Valid() && fresh(Repr() - old(Repr()))
      ensures View() == Attempt(Pruned(old(View()), at), windowMs, key, limit, at).0
      ensures verdict == Attempt(Pruned(old(View()), at), windowMs, key, limit, at).1
    {
      hide View, Pruned, RetryAfter, Current, Attempt;
      PruneIfLarge(at);
      ghost var pruned := View();
      var window := WindowFor(key, at);
      assert View()[key] == Window(window.count, window.resetAt) by { ViewAt(key); }
      var count := Count(key);
      CountedIsAttempt(pruned, windowMs, key, limit, at, Window(count, window.resetAt));
      verdict := Verdict(count <= limit, RetryAfter(window.resetAt, at));
    }

    method Clear(key: string)
      requires Valid()
      modifies this
      ensures Valid() && Repr() <= old(Repr())
      ensures View() == old(View()) - {key}
    {
      windows := windows - {key};
    }
  }
}
