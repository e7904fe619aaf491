/** Which attempts are let through, by the history of attempts alone. */
module LoginWindows {
  import opened RateLimiter

  function Next(ws: Windows, windowMs: int, c: Call): Windows {
    if c.Clear? then ws - {c.key} else Attempt(ws, windowMs, c.key, c.limit, c.at).0
  }

  /** The windows a history leaves, on a limiter that never prunes. */
  function After(ws: Windows, windowMs: int, calls: seq<Call>): Windows
    decreases |calls|
  {
    if calls == [] then ws else After(Next(ws, windowMs, calls[0]), windowMs, calls[1..])
  }

  lemma {:induction false} AfterOneMore(ws: Windows, windowMs: int, init: seq<Call>, c: Call)
    ensures After(ws, windowMs, init + [c]) == Next(After(ws, windowMs, init), windowMs, c)
    decreases |init|
  {
    hide Next;
    var calls := init + [c];
    if init == [] {
      assert calls[1..] == [];
      assert After(Next(ws, windowMs, c), windowMs, []) == Next(ws, windowMs, c);
    } else {
      assert calls[0] == init[0] && calls[1..] == init[1..] + [c];
      AfterOneMore(Next(ws, windowMs, init[0]), windowMs, init[1..], c);
    }
  }

  function Hits(calls: seq<Call>, key: string): nat {
    if calls == [] then 0
    else
      Hits(calls[..|calls| - 1], key)
      + if calls[|calls| - 1].Hit? && calls[|calls| - 1].key == key then 1 else 0
  }

  /**
   * Call `i` opened the window the key is still in: it came after the window before it had
   * closed, if there was one, and since then the key was not cleared nor tried too late for it.
   */
  ghost predicate OpenedBy(windowMs: int, calls: seq<Call>, key: string, i: nat): (opens: bool)
    ensures opens ==> i < |calls| && calls[i].Hit? && calls[i].key == key
    decreases |calls|
  {
    && i < |calls| && calls[i].Hit? && calls[i].key == key
    && (forall j | i < j < |calls| && calls[j].key == key :: calls[j].Hit? && calls[j].at < calls[i].at + windowMs)
    && (forall h: nat | h < i && OpenedBy(windowMs, calls[..i], key, h) :: calls[i].at >= calls[h].at + windowMs)
  }

  lemma OpenedByOneMore(windowMs: int, init: seq<Call>, c: Call, key: string, i: nat)
    requires i < |init|
    ensures OpenedBy(windowMs, init + [c], key, i)
            <==> OpenedBy(windowMs, init, key, i)
                 && (c.key == key ==> c.Hit? && c.at < init[i].at + windowMs)
  {
    var calls := init + [c];
    assert calls[..i] == init[..i];
    assert calls[|init|] == c;
    assert forall j | 0 <= j < |init| :: calls[j] == init[j];
  }

  lemma OpenedByTheLast(windowMs: int, init: seq<Call>, c: Call, key: string)
    ensures OpenedBy(windowMs, init + [c], key, |init|)
            <==> c.Hit? && c.key == key
                 && forall h: nat | h < |init| && OpenedBy(windowMs, init, key, h) :: c.at >= init[h].at + windowMs
  {
    var calls := init + [c];
    assert calls[..|init|] == init;
    assert forall j | 0 <= j < |init| :: calls[j] == init[j];
  }

  lemma HitsOneMore(init: seq<Call>, c: Call, key: string, i: nat)
    requires i <= |init|
    ensures Hits((init + [c])[i..], key) == Hits(init[i..], key) + if c.Hit? && c.key == key then 1 else 0
  {
    var more := (init + [c])[i..];
    assert more[..|more| - 1] == init[i..];
  }

  /** The store holds a window for a key exactly when some call opened it, and that call says which. */
  ghost predicate StoreSays(windowMs: int, calls: seq<Call>, key: string) {
    var ws := After(map[], windowMs, calls);
    && (key in ws <==> exists i: nat :: OpenedBy(windowMs, calls, key, i))
    && forall i: nat | OpenedBy(windowMs, calls, key, i) ::
         key in ws && ws[key] == Window(Hits(calls[i..], key), calls[i].at + windowMs)
  }

  lemma StoreOneMore(windowMs: int, init: seq<Call>, c: Call, key: string)
    requires StoreSays(windowMs, init, key)
    ensures StoreSays(windowMs, init + [c], key)
  {
    hide OpenedBy, Hits, After;
    var calls := init + [c];
    AfterOneMore(map[], windowMs, init, c);
    forall i: nat | i < |init| { OpenedByOneMore(windowMs, init, c, key, i); }
    OpenedByTheLast(windowMs, init, c, key);
    forall i: nat | i <= |init| { HitsOneMore(init, c, key, i); }
    assert Hits(init[|init|..], key) == 0 by { NoHits(init, key); }
    if key in After(map[], windowMs, calls) {
      StillOpened(windowMs, init, c, key);
    }
  }

  lemma NoHits(init: seq<Call>, key: string)
    ensures Hits(init[|init|..], key) == 0
  {
  }

  lemma StillOpened(windowMs: int, init: seq<Call>, c: Call, key: string)
    requires StoreSays(windowMs, init, key) && key in After(map[], windowMs, init + [c])
    ensures exists i: nat :: OpenedBy(windowMs, init + [c], key, i)
  {
    hide OpenedBy, Hits, After;
    AfterOneMore(map[], windowMs, init, c);
    OpenedByTheLast(windowMs, init, c, key);
    if h: nat :| OpenedBy(windowMs, init, key, h) {
      OpenedByOneMore(windowMs, init, c, key, h);
      if !OpenedBy(windowMs, init + [c], key, h) {
        assert c.Hit? && c.at >= init[h].at + windowMs;
      }
    } else {
      assert c.Hit? && c.key == key;
    }
  }

  lemma {:induction false} TheStoreSays(windowMs: int, calls: seq<Call>, key: string)
    ensures StoreSays(windowMs, calls, key)
  {
    hide StoreSays;
    if calls == [] {
      EmptyStoreSays(windowMs, key);
    } else {
      var init, c := calls[..|calls| - 1], calls[|calls| - 1];
      TheStoreSays(windowMs, init, key);
      StoreOneMore(windowMs, init, c, key);
      assert calls == init + [c];
    }
  }

  lemma EmptyStoreSays(windowMs: int, key: string)
    ensures StoreSays(windowMs, [], key)
  {
  }

  lemma {:induction false} LastVerdictIs(ws: Windows, windowMs: int, calls: seq<Call>, c: Call)
    requires c.Hit?
    ensures var verdicts := Run(ws, windowMs, calls + [c], false);
            && verdicts != []
            && verdicts[|verdicts| - 1] == Attempt(After(ws, windowMs, calls), windowMs, c.key, c.limit, c.at).1
    decreases |calls|
  {
    hide Attempt;
    var all := calls + [c];
    if calls == [] {
      assert all == [c] && all[1..] == [];
      assert Run(Attempt(ws, windowMs, c.key, c.limit, c.at).0, windowMs, [], false) == [];
    } else {
      assert all[0] == calls[0] && all[1..] == calls[1..] + [c];
      LastVerdictIs(Next(ws, windowMs, calls[0]), windowMs, calls[1..], c);
    }
  }

  /**
   * Any attempt after any history is let through if and only if it is within the limit counting
   * from the attempt that opened its window: the first `limit` attempts of a window pass and
   * no other does, and an attempt no open window covers is the first of its own.
   */
  lemma LetThroughIffWithinTheLimit(windowMs: int, calls: seq<Call>, key: string, limit: int, at: int, now: int)
    requires Monotone(calls + [Hit(key, limit, at)], now)
    ensures var verdicts := Run(map[], windowMs, calls + [Hit(key, limit, at)], true);
            && verdicts != []
            && (verdicts[|verdicts| - 1].allowed
                <==> && 1 <= limit
                     && forall i: nat | OpenedBy(windowMs, calls, key, i) && at < calls[i].at + windowMs ::
                          Hits(calls[i..], key) < limit)
  {
    hide Run, After, OpenedBy, Hits, RetryAfter, Monotone;
    PruningIsInvisible(windowMs, calls + [Hit(key, limit, at)], now);
    LastVerdictIs(map[], windowMs, calls, Hit(key, limit, at));
    TheStoreSays(windowMs, calls, key);
  }
}
