/** At most twenty messages in any ten seconds
  * (modules/chat/service/internal/api/limits.go). */
module SendLimit {
  import opened SlidingWindow

  const MAX := 20
  const WINDOW := 10_000_000_000

  /** What one call leaves of a user's times. */
  function AfterCall(times: seq<int>, now: int): seq<int> {
    var recent := Recent(times, now - WINDOW);
    if |recent| >= MAX then recent else recent + [now]
  }

  class RateLimiter {
    const sent: Windows

    constructor ()
      ensures sent.Valid() && fresh(sent.repr) && forall u :: sent.Times(u) == []
    {
      sent := new Windows();
    }

    method Allow(username: string, now: int) returns (ok: bool)
      requires sent.Valid()
      modifies sent.repr
      ensures sent.Valid() && fresh(sent.repr - old(sent.repr))
      ensures ok <==> |Recent(old(sent.Times(username)), now - WINDOW)| < MAX
      ensures sent.Times(username) == AfterCall(old(sent.Times(username)), now)
      ensures forall u :: u != username ==> sent.Times(u) == old(sent.Times(u))
    {
      var n := sent.Prune(username, now - WINDOW);
      if n >= MAX {
        return false;
      }
      sent.Append(username, now);
      ok := true;
    }
  }

  // ---- runs of one user ------------------------------------------------------

  /** What is held after calls at these times. */
  function Held(nows: seq<int>): seq<int> {
    if nows == [] then [] else AfterCall(Held(nows[..|nows| - 1]), nows[|nows| - 1])
  }

  /** One more call, judged by all allowed before it. */
  function Judged(allowed: seq<int>, now: int): seq<int> {
    if |Recent(allowed, now - WINDOW)| >= MAX then allowed else allowed + [now]
  }

  /** The calls allowed, when each is judged by all allowed before it. */
  function Allowed(nows: seq<int>): seq<int> {
    if nows == [] then [] else Judged(Allowed(nows[..|nows| - 1]), nows[|nows| - 1])
  }

  lemma {:induction false} CallKeepsHeld(held: seq<int>, allowed: seq<int>, now: int)
    requires Recent(held, now - WINDOW) == Recent(allowed, now - WINDOW)
    ensures AfterCall(held, now) == Recent(Judged(allowed, now), now - WINDOW)
  {
    RecentSnoc(allowed, now, now - WINDOW);
  }

  /** The list held is always the recent part of the full history of allowed calls;
    * so nothing is decided differently for having been cleaned. */
  lemma {:induction false} HeldIsRecent(nows: seq<int>, now: int)
    requires Rising(nows) && (nows != [] ==> nows[|nows| - 1] <= now)
    ensures Recent(Held(nows), now - WINDOW) == Recent(Allowed(nows), now - WINDOW)
    ensures AfterCall(Held(nows), now) == Recent(Judged(Allowed(nows), now), now - WINDOW)
  {
    if nows != [] {
      var init, last := nows[..|nows| - 1], nows[|nows| - 1];
      HeldIsRecent(init, last);
      HeldLater(Held(nows), Allowed(nows), last, now);
    }
    CallKeepsHeld(Held(nows), Allowed(nows), now);
  }

  lemma {:induction false} HeldLater(held: seq<int>, allowed: seq<int>, last: int, now: int)
    requires held == Recent(allowed, last - WINDOW) && last <= now
    ensures Recent(held, now - WINDOW) == Recent(allowed, now - WINDOW)
  {
    RecentTwice(allowed, last - WINDOW, now - WINDOW);
  }

  ghost predicate SpreadOut(times: seq<int>) {
    forall i :: 0 <= i && i + MAX < |times| ==> times[i + MAX] - times[i] >= WINDOW
  }

  lemma {:induction false} AllowedSpreadOut(nows: seq<int>)
    requires Rising(nows)
    ensures Rising(Allowed(nows)) && SpreadOut(Allowed(nows))
    ensures forall i :: 0 <= i < |Allowed(nows)| ==> nows != [] && Allowed(nows)[i] <= nows[|nows| - 1]
  {
    if nows != [] {
      var init, now := nows[..|nows| - 1], nows[|nows| - 1];
      AllowedSpreadOut(init);
      forall i | 0 <= i < |Allowed(init)| ensures Allowed(init)[i] <= now {
        assert init[|init| - 1] == nows[|nows| - 2];
      }
      JudgedSpreadOut(Allowed(init), now);
    }
  }

  lemma {:induction false} JudgedSpreadOut(a: seq<int>, now: int)
    requires Rising(a) && SpreadOut(a) && forall i :: 0 <= i < |a| ==> a[i] <= now
    ensures Rising(Judged(a, now)) && SpreadOut(Judged(a, now))
    ensures forall i :: 0 <= i < |Judged(a, now)| ==> Judged(a, now)[i] <= now
  {
    RecentIsEnd(a, now - WINDOW);
  }

  /** How many of the times lie from `from` on and before `to`. */
  function HowMany(times: seq<int>, from: int, to: int): nat {
    if times == [] then 0
    else HowMany(times[..|times| - 1], from, to) + if from <= times[|times| - 1] < to then 1 else 0
  }

  lemma {:induction false} HowManyRecent(times: seq<int>, from: int, to: int)
    requires from <= to
    ensures HowMany(times, from, to) == |Recent(times, from - 1)| - |Recent(times, to - 1)|
  {
    if times != [] {
      HowManyRecent(times[..|times| - 1], from, to);
    }
  }

  /** However the calls come, as long as the clock does not go back, at most twenty
    * are allowed in every window of ten seconds. */
  lemma {:induction false} AtMostTwenty(nows: seq<int>, from: int)
    requires Rising(nows)
    ensures HowMany(Allowed(nows), from, from + 10_000_000_000) <= 20
  {
    var a := Allowed(nows);
    AllowedSpreadOut(nows);
    HowManyRecent(a, from, from + WINDOW);
    RecentIsEnd(a, from - 1);
    RecentIsEnd(a, from + WINDOW - 1);
    var i := |a| - |Recent(a, from - 1)|;
    if i + MAX < |a| {
      assert a[i + MAX] - a[i] >= WINDOW;
    }
  }

  /** A call is refused if and only if twenty allowed ones lie in the ten seconds
    * before it; and one that is not is allowed from then on. */
  lemma {:induction false} RefusedIffFull(nows: seq<int>, now: int)
    requires Rising(nows) && (nows != [] ==> nows[|nows| - 1] <= now)
    ensures |Recent(Held(nows), now - WINDOW)| >= MAX <==> Full(Allowed(nows), now)
    ensures Allowed(nows + [now]) == Allowed(nows) + if Full(Allowed(nows), now) then [] else [now]
  {
    FullIff(nows, now);
    HeldIsRecent(nows, now);
    AllowedNext(nows, now);
  }

  /** Twenty of these lie in the ten seconds up to now. */
  predicate Full(allowed: seq<int>, now: int) { HowMany(allowed, now - 10_000_000_000 + 1, now + 1) == 20 }

  lemma {:induction false} FullIff(nows: seq<int>, now: int)
    requires Rising(nows) && (nows != [] ==> nows[|nows| - 1] <= now)
    ensures |Recent(Allowed(nows), now - WINDOW)| >= MAX <==> Full(Allowed(nows), now)
  {
    var a := Allowed(nows);
    AllowedSpreadOut(nows);
    AtMostTwenty(nows, now - WINDOW + 1);
    HowManyRecent(a, now - WINDOW + 1, now + 1);
    NoneAfter(a, now);
  }

  lemma {:induction false} AllowedNext(nows: seq<int>, now: int)
    ensures Allowed(nows + [now]) == Judged(Allowed(nows), now)
  {
    assert (nows + [now])[..|nows + [now]| - 1] == nows;
  }

  lemma {:induction false} NoneAfter(times: seq<int>, now: int)
    requires forall i :: 0 <= i < |times| ==> times[i] <= now
    ensures Recent(times, now) == []
  {
    if times != [] {
      NoneAfter(times[..|times| - 1], now);
    }
  }
}
