/** The shared NSE session of `get_nse_session` (stock_backend.py:263-295):
    one session object reused by every request until it is older than five
    minutes, or until a caller forces a new one. The session itself and the
    priming request are opaque here; a session is known by the number of
    sessions created before it, and the clock readings are parameters. */
module NseSession {
  /** Seconds after which the session counts as stale. */
  const MaxAge := 300

  /** The refresh rule: forced, no session yet, or older than `MaxAge`. */
  predicate NeedsRefresh(force: bool, present: bool, refreshedAt: int, now: int) {
    force || !present || now - refreshedAt > MaxAge
  }

  /** One call: the clock when the age is checked, the clock after the
      priming request, and whether the caller forces a refresh. */
  datatype Call = Call(now: int, doneAt: int, force: bool)

  /** The two globals, and how many sessions have been created. */
  datatype Holder = Holder(present: bool, refreshedAt: int, generation: nat)

  /** Before the first call: no session, time 0 (stock_backend.py:265-267). */
  const Initial := Holder(false, 0, 0)

  /** The globals after one call. A new session is stored whether or not its
      priming request succeeded. */
  function Step(h: Holder, c: Call): (r: Holder)
    ensures r.present
    ensures r.generation == h.generation || r.generation == h.generation + 1
  {
    if NeedsRefresh(c.force, h.present, h.refreshedAt, c.now) then
      Holder(true, c.doneAt, h.generation + 1)
    else h
  }

  /** The globals after a series of calls, in order. */
  function Run(h: Holder, calls: seq<Call>): Holder
    decreases |calls|
  {
    if calls == [] then h else Run(Step(h, calls[0]), calls[1..])
  }

  /** The first call always creates a session. */
  lemma FirstCallRefreshes(c: Call)
    ensures Step(Initial, c) == Holder(true, c.doneAt, 1)
  {
  }

  /** A forced call always creates a new session, however young the current one. */
  lemma ForcedCallRefreshes(h: Holder, c: Call)
    requires c.force
    ensures Step(h, c) == Holder(true, c.doneAt, h.generation + 1)
  {
  }

  /** An unforced call keeps a session exactly while it is at most `MaxAge`
      seconds old. */
  lemma UnforcedReuseIff(h: Holder, c: Call)
    requires h.present && !c.force
    ensures Step(h, c) == h <==> c.now - h.refreshedAt <= MaxAge
  {
  }

  /** Staleness only grows with the clock. */
  lemma StaleStaysStale(force: bool, present: bool, refreshedAt: int, now: int, later: int)
    requires NeedsRefresh(force, present, refreshedAt, now) && now <= later
    ensures NeedsRefresh(force, present, refreshedAt, later)
  {
  }

  /** Unforced calls within five minutes of the last refresh all get the same
      session: no new one is created. */
  lemma {:induction false} ReusedWithinWindow(h: Holder, calls: seq<Call>)
    requires h.present
    requires forall i :: 0 <= i < |calls| ==> !calls[i].force && calls[i].now - h.refreshedAt <= MaxAge
    ensures Run(h, calls) == h
    decreases |calls|
  {
    if calls != [] {
      assert Step(h, calls[0]) == h;
      ReusedWithinWindow(h, calls[1..]);
    }
  }

  /** Every call that creates a session adds one to the count, so the count
      bounds the number of calls. */
  lemma {:induction false} GenerationBound(h: Holder, calls: seq<Call>)
    ensures h.generation <= Run(h, calls).generation <= h.generation + |calls|
    decreases |calls|
  {
    if calls != [] {
      GenerationBound(Step(h, calls[0]), calls[1..]);
    }
  }

  /** The module-level globals `_nse_session` and `_nse_session_time`. */
  class SessionHolder {
    var present: bool
    var refreshedAt: int
    var generation: nat

    function State(): Holder
      reads this
    {
      Holder(present, refreshedAt, generation)
    }

    /** A session is stored exactly when one has been created. */
    ghost predicate Valid()
      reads this
    {
      present <==> generation > 0
    }

    constructor ()
      ensures State() == Initial
      ensures Valid()
    {
      present, refreshedAt, generation := false, 0, 0;
    }

    /** `get_nse_session(proxies, force_refresh)`: the session it returns,
        named by its generation. */
    method Get(now: int, doneAt: int, force: bool) returns (session: nat)
      requires Valid()
      modifies this
      ensures State() == Step(old(State()), Call(now, doneAt, force))
      ensures session == generation && session > 0
      ensures Valid()
    {
      var age := now - refreshedAt;
      if force || !present || age > MaxAge {
        generation := generation + 1;
        present := true;
        refreshedAt := doneAt;
      }
      session := generation;
    }
  }
}
