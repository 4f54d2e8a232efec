/**
 The fixed-window limiter. `RateLimiter` issues its two Redis commands one after the
 other; the run machine below takes them as separate steps, so that any number of
 callers may interleave between an INCR and the EXPIRE that belongs to it.
 */
module FixedWindow {
  import opened Common
  import opened Redis

  class RateLimiter<V> {
    const server: Server<string, V>

    constructor (server: Server<string, V>)
      ensures this.server == server
    {
      this.server := server;
    }

    static function RedisKey(key: string): string { "ratelimit:" + key }

    method Allow(key: string, limit: int, window: int) returns (ok: bool)
      modifies server`counters
      ensures Cell(server.Counters(), RedisKey(key))
           == Armed(Bumped(old(Cell(server.Counters(), RedisKey(key)))), server.now, window)
      ensures ok == (Bumped(old(Cell(server.Counters(), RedisKey(key)))).value.val <= limit)
      ensures forall k :: k != RedisKey(key) ==> Cell(server.Counters(), k) == old(Cell(server.Counters(), k))
    {
      var count := server.Incr(RedisKey(key));
      if count == 1 {
        server.ExpireCounter(RedisKey(key), window);
      }
      ok := count <= limit;
    }

    /** Something remains exactly when the next `Allow` will say yes. */
    method GetRemaining(key: string, limit: int) returns (remaining: int)
      ensures 0 < remaining <==> Bumped(Cell(server.Counters(), RedisKey(key))).value.val <= limit
      ensures Cell(server.Counters(), RedisKey(key)).None? ==> remaining == limit
      ensures forall c :: Cell(server.Counters(), RedisKey(key)) == Some(c) ==> remaining == Max(0, limit - c.val)
    {
      var count := server.GetInt(RedisKey(key));
      if count.None? {
        return limit;
      }
      remaining := limit - count.value;
      if remaining < 0 {
        remaining := 0;
      }
    }

    method Reset(key: string)
      modifies server`counters
      ensures server.Counters() == old(server.Counters()) - {RedisKey(key)}
    {
      server.DelCounter(RedisKey(key));
    }
  }

  // ----- One key over a timed run -----

  function Cell(counters: Space<string, int>, key: string): Option<Item<int>> {
    if key in counters then Some(counters[key]) else None
  }

  function Settled(cell: Option<Item<int>>, now: int): Option<Item<int>> {
    if cell.Some? && Fresh(cell.value, now) then cell else None
  }

  function Bumped(cell: Option<Item<int>>): (r: Option<Item<int>>)
    ensures r.Some?
  {
    Some(if cell.None? then Item(1, None) else Item(cell.value.val + 1, cell.value.expiry))
  }

  function WithDeadline(cell: Option<Item<int>>, now: int, window: int): Option<Item<int>> {
    if cell.None? || window <= 0 then None else Some(Item(cell.value.val, Some(now + window)))
  }

  /** What `Allow` leaves behind: the caller that counted 1 also sets the deadline. */
  function Armed(cell: Option<Item<int>>, now: int, window: int): Option<Item<int>> {
    if cell.Some? && cell.value.val == 1 then WithDeadline(cell, now, window) else cell
  }

  /** A whole `Allow` call is a request and, at the same instant, the EXPIRE if one is owed. */
  lemma AllowIsTwoEvents(s: State, wait: nat, length: int)
    requires Shape(s, length) && !s.owed
    ensures var t := Step(Step(s, Request(wait), length), Arm(0), length);
      && t.cell == Armed(Bumped(Settled(s.cell, s.clock + wait)), s.clock + wait, length)
      && t.log == s.log + [Answer(s.clock + wait, t.window, Bumped(Settled(s.cell, s.clock + wait)).value.val)]
      && !t.owed
  {
    var u := Step(s, Request(wait), length);
    assert Settled(u.cell, u.clock + 0) == u.cell;
  }

  /** `wait` is the time since the previous event. `Request` is some caller's INCR and `Arm`
      is the EXPIRE still owed by the caller whose INCR answered 1. */
  datatype Event = Request(wait: nat) | Arm(wait: nat)

  /** An answered request: when, in which counter window, and with which count. */
  datatype Answer = Answer(at: int, window: nat, count: int)

  /** `window` numbers the counter windows from 1, and `since` is when the latest one began. */
  datatype State = State(clock: int, cell: Option<Item<int>>, owed: bool, window: nat, since: int, log: seq<Answer>)

  const Start := State(0, None, false, 0, 0, [])

  function Step(s: State, e: Event, length: int): State {
    var now := s.clock + e.wait;
    var cell := Settled(s.cell, now);
    match e
    case Request(_) =>
      var bumped := Bumped(cell);
      var n := bumped.value.val;
      var w := if n == 1 then s.window + 1 else s.window;
      State(now, bumped, s.owed || n == 1, w, if n == 1 then now else s.since, s.log + [Answer(now, w, n)])
    case Arm(_) =>
      s.(clock := now, cell := if s.owed then WithDeadline(cell, now, length) else cell, owed := false)
  }

  function Run(events: seq<Event>, length: int): State {
    if events == [] then Start else Step(Run(events[..|events| - 1], length), events[|events| - 1], length)
  }

  predicate Granted(a: Answer, limit: int) { a.count <= limit }

  /** Requests granted at times in [from, to). */
  function GrantsBetween(log: seq<Answer>, limit: int, from: int, to: int): nat {
    if log == [] then 0
    else
      var a := log[|log| - 1];
      GrantsBetween(log[..|log| - 1], limit, from, to) + (if Granted(a, limit) && from <= a.at < to then 1 else 0)
  }

  function RequestsIn(log: seq<Answer>, window: nat): nat {
    if log == [] then 0
    else
      RequestsIn(log[..|log| - 1], window) + (if log[|log| - 1].window == window then 1 else 0)
  }

  function GrantsIn(log: seq<Answer>, limit: int, window: nat): nat {
    if log == [] then 0
    else
      var a := log[|log| - 1];
      GrantsIn(log[..|log| - 1], limit, window) + (if Granted(a, limit) && a.window == window then 1 else 0)
  }

  function CountOf(s: State): int { if s.cell.None? then 0 else s.cell.value.val }

  /** A deadline is set at least one window length after the first request, and a counter
      without one belongs to a window whose first caller has not come back yet. */
  ghost predicate Shape(s: State, length: int) {
    && s.since <= s.clock
    && (s.cell.Some? ==> s.cell.value.val >= 1 && s.window >= 1)
    && (s.cell.Some? && s.cell.value.expiry.Some? ==> s.since + length <= s.cell.value.expiry.value && !s.owed)
    && (s.cell.Some? && s.cell.value.expiry.None? ==> s.owed)
    && (s.cell.None? ==> !s.owed)
    && (s.cell.None? && s.window >= 1 ==> s.since + length <= s.clock)
  }

  lemma {:induction false} RunHasShape(events: seq<Event>, length: int)
    ensures Shape(Run(events, length), length)
  {
    if events != [] {
      RunHasShape(events[..|events| - 1], length);
    }
  }

  /** A step adds its own answer, if any, to what was granted before. */
  lemma StepGrants(s: State, e: Event, limit: int, length: int, from: int, to: int)
    ensures var t := Step(s, e, length);
      GrantsBetween(t.log, limit, from, to)
        == GrantsBetween(s.log, limit, from, to)
         + (if e.Request? && CountOf(t) <= limit && from <= t.clock < to then 1 else 0)
  {
    var t := Step(s, e, length);
    if e.Request? {
      assert t.log[..|t.log| - 1] == s.log;
    }
  }

  /** What the latest window and the ones before it contribute to [from, from + length). */
  ghost predicate Charged(s: State, limit: int, from: int, length: int) {
    var g := GrantsBetween(s.log, limit, from, from + length);
    && (s.window == 0 ==> g == 0)
    && (s.since < from && s.window >= 1 ==> s.clock < from ==> g == 0)
    && (s.since < from && s.window >= 1 && s.cell.Some? ==> g <= Max(0, Min(CountOf(s), limit) - 1))
    && (s.since < from ==> g <= Max(0, limit - 1))
    && (from <= s.since < from + length && s.cell.Some? ==> g <= Max(0, limit - 1) + Max(0, Min(CountOf(s), limit)))
    && (from <= s.since ==> g <= Max(0, limit - 1) + Max(0, limit))
  }

  lemma {:induction false} RunIsCharged(events: seq<Event>, limit: int, from: int, length: int)
    requires 0 < length
    ensures Charged(Run(events, length), limit, from, length)
  {
    if events != [] {
      var before, e := events[..|events| - 1], events[|events| - 1];
      RunIsCharged(before, limit, from, length);
      RunHasShape(before, length);
      StepIsCharged(Run(before, length), e, limit, from, length);
    }
  }

  lemma StepIsCharged(s: State, e: Event, limit: int, from: int, length: int)
    requires 0 < length && Shape(s, length) && Charged(s, limit, from, length)
    ensures Charged(Step(s, e, length), limit, from, length)
  {
    StepGrants(s, e, limit, length, from, from + length);
  }

  /** At most 2 * limit - 1 requests are granted in any interval of one window length. */
  lemma GrantBound(events: seq<Event>, limit: int, length: int, from: int)
    requires 1 <= limit
    ensures GrantsBetween(Run(events, length).log, limit, from, from + length) <= 2 * limit - 1
  {
    if length <= 0 {
      NothingInEmptyInterval(Run(events, length).log, limit, from, from + length);
    } else {
      RunIsCharged(events, limit, from, length);
    }
  }

  lemma {:induction false} NothingInEmptyInterval(log: seq<Answer>, limit: int, from: int, to: int)
    requires to <= from
    ensures GrantsBetween(log, limit, from, to) == 0
  {
    if log != [] {
      NothingInEmptyInterval(log[..|log| - 1], limit, from, to);
    }
  }

  /** With a limit below 1 nothing is ever granted. */
  lemma {:induction false} NoGrantsWithoutQuota(events: seq<Event>, limit: int, length: int, from: int, to: int)
    requires limit <= 0
    ensures GrantsBetween(Run(events, length).log, limit, from, to) == 0
  {
    if events != [] {
      var before := events[..|events| - 1];
      NoGrantsWithoutQuota(before, limit, length, from, to);
      RunHasShape(before, length);
      StepGrantsNothing(Run(before, length), events[|events| - 1], limit, length, from, to);
    }
  }

  lemma StepGrantsNothing(s: State, e: Event, limit: int, length: int, from: int, to: int)
    requires limit <= 0 && Shape(s, length)
    ensures GrantsBetween(Step(s, e, length).log, limit, from, to) == GrantsBetween(s.log, limit, from, to)
  {
    StepGrants(s, e, limit, length, from, to);
  }

  // ----- Each window on its own -----

  ghost predicate Tallied(s: State, limit: int, w: nat) {
    && GrantsIn(s.log, limit, w) == Min(Max(limit, 0), RequestsIn(s.log, w))
    && (w > s.window ==> RequestsIn(s.log, w) == 0)
    && (w == s.window && s.cell.Some? ==> RequestsIn(s.log, w) == CountOf(s))
  }

  /** Every counter window grants exactly the first `limit` of the requests made in it. */
  lemma {:induction false} WindowIsExact(events: seq<Event>, limit: int, length: int, w: nat)
    requires 1 <= w
    ensures Tallied(Run(events, length), limit, w)
  {
    if events != [] {
      var before := events[..|events| - 1];
      WindowIsExact(before, limit, length, w);
      RunHasShape(before, length);
      StepKeepsTally(Run(before, length), events[|events| - 1], limit, length, w);
    }
  }

  lemma StepKeepsTally(s: State, e: Event, limit: int, length: int, w: nat)
    requires Shape(s, length) && Tallied(s, limit, w) && 1 <= w
    ensures Tallied(Step(s, e, length), limit, w)
  {
    if e.Request? {
      var t := Step(s, e, length);
      var a := t.log[|t.log| - 1];
      assert t.log[..|t.log| - 1] == s.log;
      assert RequestsIn(t.log, w) == RequestsIn(s.log, w) + (if a.window == w then 1 else 0);
      assert GrantsIn(t.log, limit, w)
          == GrantsIn(s.log, limit, w) + (if a.count <= limit && a.window == w then 1 else 0);
    }
  }

  // ----- The bound is attained -----

  function Burst(n: nat): seq<Event> { seq(n, _ => Request(0)) }

  /** n requests at one instant. */
  function Surge(s: State, n: nat, length: int): State {
    if n == 0 then s else Step(Surge(s, n - 1, length), Request(0), length)
  }

  lemma {:induction false} RunBurst(events: seq<Event>, n: nat, length: int)
    ensures Run(events + Burst(n), length) == Surge(Run(events, length), n, length)
  {
    if n == 0 {
      assert events + Burst(0) == events;
    } else {
      RunBurst(events, n - 1, length);
      RunSnoc(events + Burst(n - 1), Request(0), length);
      assert events + Burst(n) == events + Burst(n - 1) + [Request(0)];
    }
  }

  /** A burst moves only the count. */
  lemma {:induction false} SurgeKeepsWindow(s: State, n: nat, length: int)
    requires s.cell.Some? && Fresh(s.cell.value, s.clock) && s.cell.value.val >= 1
    ensures SameWindow(s, Surge(s, n, length), n)
  {
    if n > 0 {
      SurgeKeepsWindow(s, n - 1, length);
    }
  }

  /** A burst of n requests within the quota is granted whole. */
  lemma {:induction false} SurgeIsGranted(s: State, n: nat, limit: int, length: int, from: int)
    requires InWindow(s, from, length) && CountOf(s) + n <= limit
    ensures GrantsBetween(Surge(s, n, length).log, limit, from, from + length)
         == GrantsBetween(s.log, limit, from, from + length) + n
  {
    if n > 0 {
      SurgeIsGranted(s, n - 1, limit, length, from);
      SurgeKeepsWindow(s, n - 1, length);
      AskedAgain(Surge(s, n - 1, length), limit, length, from);
    }
  }

  lemma AskedAgain(s: State, limit: int, length: int, from: int)
    requires InWindow(s, from, length) && CountOf(s) < limit
    ensures GrantsBetween(Step(s, Request(0), length).log, limit, from, from + length)
         == GrantsBetween(s.log, limit, from, from + length) + 1
  {
    StepGrants(s, Request(0), limit, length, from, from + length);
  }

  ghost predicate InWindow(s: State, from: int, length: int) {
    s.cell.Some? && Fresh(s.cell.value, s.clock) && s.cell.value.val >= 1 && from <= s.clock < from + length
  }

  ghost predicate SameWindow(s: State, t: State, n: nat)
    requires s.cell.Some?
  {
    && t.clock == s.clock && t.cell.Some?
    && t.cell.value.val == s.cell.value.val + n && t.cell.value.expiry == s.cell.value.expiry
  }

  lemma RunSnoc(events: seq<Event>, e: Event, length: int)
    ensures Run(events + [e], length) == Step(Run(events, length), e, length)
  {
    assert (events + [e])[..|events|] == events;
  }

  /** One request, silence, limit - 1 requests at the end of the window, limit more in the next. */
  function DoubleBurst(limit: int, length: int): seq<Event>
    requires 1 <= limit && 2 <= length
  {
    [Request(0), Arm(0), Arm(length - 1)] + Burst(limit - 1) + [Request(1)] + Burst(limit - 1)
  }

  lemma BoundIsAttained(limit: int, length: int)
    requires 1 <= limit && 2 <= length
    ensures GrantsBetween(Run(DoubleBurst(limit, length), length).log, limit, length - 1, length - 1 + length)
         == 2 * limit - 1
  {
    var opening := [Request(0), Arm(0), Arm(length - 1)];
    OpeningState(limit, length);
    FirstBurst(opening, limit, length);
    SecondBurst(opening + Burst(limit - 1) + [Request(1)], limit, length);
  }

  /** A full burst in the last moment of a window, and the first request of the next one. */
  lemma {:induction false} FirstBurst(opening: seq<Event>, limit: int, length: int)
    requires 1 <= limit && 2 <= length && Opened(Run(opening, length), limit, length)
    ensures Turned(Run(opening + Burst(limit - 1) + [Request(1)], length), limit, length)
  {
    RunBurst(opening, limit - 1, length);
    RunSnoc(opening + Burst(limit - 1), Request(1), length);
    WindowTurns(Run(opening, length), limit, length);
  }

  lemma {:induction false} SecondBurst(turned: seq<Event>, limit: int, length: int)
    requires 1 <= limit && 2 <= length && Turned(Run(turned, length), limit, length)
    ensures GrantsBetween(Run(turned + Burst(limit - 1), length).log, limit, length - 1, length - 1 + length)
         == 2 * limit - 1
  {
    RunBurst(turned, limit - 1, length);
    WindowFills(Run(turned, length), limit, length);
  }

  /** One request has been counted, and the window ends at the next tick. */
  ghost predicate Opened(s: State, limit: int, length: int) {
    && s.clock == length - 1 && s.cell == Some(Item(1, Some(length)))
    && GrantsBetween(s.log, limit, length - 1, length - 1 + length) == 0
  }

  ghost predicate Turned(s: State, limit: int, length: int) {
    && s.clock == length && s.cell == Some(Item(1, None))
    && GrantsBetween(s.log, limit, length - 1, length - 1 + length) == limit
  }

  lemma {:induction false} WindowTurns(s: State, limit: int, length: int)
    requires 1 <= limit && 2 <= length && Opened(s, limit, length)
    ensures Turned(Step(Surge(s, limit - 1, length), Request(1), length), limit, length)
  {
    SurgeIsGranted(s, limit - 1, limit, length, length - 1);
    SurgeKeepsWindow(s, limit - 1, length);
    NextWindow(Surge(s, limit - 1, length), limit, length);
  }

  lemma {:induction false} NextWindow(u: State, limit: int, length: int)
    requires 1 <= limit && 2 <= length && u.clock == length - 1
    requires u.cell.Some? && u.cell.value.val >= 1 && u.cell.value.expiry == Some(length)
    requires GrantsBetween(u.log, limit, length - 1, length - 1 + length) == limit - 1
    ensures Turned(Step(u, Request(1), length), limit, length)
  {
    var t := Step(u, Request(1), length);
    assert t.clock == length && t.cell == Some(Item(1, None));
    StepGrants(u, Request(1), limit, length, length - 1, length - 1 + length);
  }

  lemma {:induction false} WindowFills(s: State, limit: int, length: int)
    requires 1 <= limit && 2 <= length && Turned(s, limit, length)
    ensures GrantsBetween(Surge(s, limit - 1, length).log, limit, length - 1, length - 1 + length) == 2 * limit - 1
  {
    SurgeIsGranted(s, limit - 1, limit, length, length - 1);
  }

  lemma OpeningState(limit: int, length: int)
    requires 2 <= length
    ensures Opened(Run([Request(0), Arm(0), Arm(length - 1)], length), limit, length)
  {
    RunSnoc([], Request(0), length);
    RunSnoc([Request(0)], Arm(0), length);
    RunSnoc([Request(0), Arm(0)], Arm(length - 1), length);
    assert [Request(0), Arm(0), Arm(length - 1)] == [Request(0), Arm(0)] + [Arm(length - 1)];
    assert [Request(0), Arm(0)] == [Request(0)] + [Arm(0)];
    assert [Request(0)] == [] + [Request(0)];
    assert [Answer(0, 1, 1)][..0] == [];
  }

  // ----- When the limit itself is kept -----

  /** No run grants more than the limit in any interval of one window length. */
  ghost predicate WithinLimit(limit: int, length: int) {
    forall events: seq<Event>, from: int :: Kept(events, from, limit, length)
  }

  predicate Kept(events: seq<Event>, from: int, limit: int, length: int) {
    GrantsBetween(Run(events, length).log, limit, from, from + length) <= Max(limit, 0)
  }

  /** At one instant, windows of length 1 grant what their single counter counts. */
  ghost predicate InstantCharged(s: State, limit: int, from: int) {
    var g := GrantsBetween(s.log, limit, from, from + 1);
    && g <= Max(limit, 0)
    && (s.cell.Some? ==> Fresh(s.cell.value, s.clock))
    && (s.clock < from ==> g == 0)
    && (s.clock == from ==> g <= Max(0, Min(CountOf(s), limit)))
  }

  lemma StepAtInstant(s: State, e: Event, limit: int, from: int)
    requires Shape(s, 1) && InstantCharged(s, limit, from)
    ensures InstantCharged(Step(s, e, 1), limit, from)
  {
    StepGrants(s, e, limit, 1, from, from + 1);
  }

  lemma {:induction false} InstantIsCharged(events: seq<Event>, limit: int, from: int)
    ensures InstantCharged(Run(events, 1), limit, from)
  {
    if events != [] {
      InstantIsCharged(events[..|events| - 1], limit, from);
      RunHasShape(events[..|events| - 1], 1);
      StepAtInstant(Run(events[..|events| - 1], 1), events[|events| - 1], limit, from);
    }
  }

  /** The limit holds for every interval of one window length exactly if it is at most one, or the
      window at most one tick. */
  lemma LimitIsKept(limit: int, length: int)
    ensures WithinLimit(limit, length) <==> limit <= 1 || length <= 1
  {
    if limit <= 1 || length <= 1 {
      forall events: seq<Event>, from: int
        ensures Kept(events, from, limit, length)
      {
        if limit <= 0 {
          NoGrantsWithoutQuota(events, limit, length, from, from + length);
        } else if length == 1 {
          InstantIsCharged(events, limit, from);
        } else {
          GrantBound(events, limit, length, from);
          if length <= 0 {
            NothingInEmptyInterval(Run(events, length).log, limit, from, from + length);
          }
        }
      }
    } else {
      var from := length - 1;
      BoundIsAttained(limit, length);
      assert !Kept(DoubleBurst(limit, length), from, limit, length);
    }
  }
}
