/** Blocking a caller after too many failed sign-ins
  * (backend/internal/ratelimit/ratelimit.go). */
module LoginLimit {
  import opened SlidingWindow

  class Limiter {
    const attempts: Windows
    const max: int
    const window: int

    constructor (max: int, window: int)
      ensures this.max == max && this.window == window
      ensures attempts.Valid() && fresh(attempts.repr) && forall k :: attempts.Times(k) == []
    {
      attempts := new Windows();
      this.max, this.window := max, window;
    }

    method Allowed(key: string, now: int) returns (ok: bool)
      requires attempts.Valid()
      modifies attempts.repr
      ensures attempts.Valid() && fresh(attempts.repr - old(attempts.repr))
      ensures ok <==> |Recent(old(attempts.Times(key)), now - window)| < max
      ensures attempts.Times(key) == After(window, old(attempts.Times(key)), Ask(now))
      ensures forall k :: k != key ==> attempts.Times(k) == old(attempts.Times(k))
    {
      var n := attempts.Prune(key, now - window);
      ok := n < max;
    }

    /** The clock is read twice: for cleaning, and for the time noted. */
    method RecordFailure(key: string, cleaned: int, now: int)
      requires attempts.Valid()
      modifies attempts.repr
      ensures attempts.Valid() && fresh(attempts.repr - old(attempts.repr))
      ensures attempts.Times(key) == After(window, old(attempts.Times(key)), Fail(cleaned, now))
      ensures forall k :: k != key ==> attempts.Times(k) == old(attempts.Times(k))
    {
      var n := attempts.Prune(key, cleaned - window);
      attempts.Append(key, now);
    }

    method Reset(key: string)
      requires attempts.Valid()
      modifies attempts`windows
      ensures attempts.Valid()
      ensures attempts.Times(key) == After(window, old(attempts.Times(key)), Clear)
      ensures forall k :: k != key ==> attempts.Times(k) == old(attempts.Times(k))
    {
      attempts.Delete(key);
    }
  }

  // ---- runs of one key -------------------------------------------------------

  datatype Op = Ask(at: int) | Fail(cleaned: int, at: int) | Clear

  function After(window: int, times: seq<int>, op: Op): seq<int> {
    match op
    case Ask(at) => Recent(times, at - window)
    case Fail(cleaned, at) => Recent(times, cleaned - window) + [at]
    case Clear => []
  }

  function Held(window: int, ops: seq<Op>): seq<int> {
    if ops == [] then [] else After(window, Held(window, ops[..|ops| - 1]), ops[|ops| - 1])
  }

  /** The failures since the last reset, after one more operation. */
  function Noted(failures: seq<int>, op: Op): seq<int> {
    match op
    case Ask(_) => failures
    case Fail(_, at) => failures + [at]
    case Clear => []
  }

  function Failures(ops: seq<Op>): seq<int> {
    if ops == [] then [] else Noted(Failures(ops[..|ops| - 1]), ops[|ops| - 1])
  }

  predicate OpNotAfter(op: Op, now: int) {
    match op
    case Ask(at) => at <= now
    case Fail(cleaned, at) => cleaned <= now && at <= now
    case Clear => true
  }

  /** No clock reading of the run is later than now. */
  predicate NotAfter(ops: seq<Op>, now: int) { forall i :: 0 <= i < |ops| ==> OpNotAfter(ops[i], now) }

  lemma {:induction false} OpKeepsCount(window: int, held: seq<int>, failures: seq<int>, op: Op, now: int)
    requires OpNotAfter(op, now) && Recent(held, now - window) == Recent(failures, now - window)
    ensures Recent(After(window, held, op), now - window) == Recent(Noted(failures, op), now - window)
  {
    match op {
      case Ask(at) => RecentTwice(held, at - window, now - window);
      case Fail(cleaned, at) =>
        RecentTwice(held, cleaned - window, now - window);
        RecentSnoc(Recent(held, cleaned - window), at, now - window);
        RecentSnoc(failures, at, now - window);
      case Clear =>
    }
  }

  /** The answer given is the answer from the full history: the failures since the
    * last reset that lie inside the window. Before now the clock may even have
    * gone back. */
  lemma {:induction false} CountsSinceReset(window: int, ops: seq<Op>, now: int)
    requires NotAfter(ops, now)
    ensures Recent(Held(window, ops), now - window) == Recent(Failures(ops), now - window)
  {
    if ops != [] {
      var init := ops[..|ops| - 1];
      CountsSinceReset(window, init, now);
      OpKeepsCount(window, Held(window, init), Failures(init), ops[|ops| - 1], now);
    }
  }
}
