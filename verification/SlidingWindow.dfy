/** Counting what happened lately, in a buffer cleaned in place. Times are numbers
  * of nanoseconds. */
module SlidingWindow {

  // ---- what is recent --------------------------------------------------------

  /** The times after the cutoff, in order. */
  function Recent(times: seq<int>, cutoff: int): (r: seq<int>)
    ensures |r| <= |times|
  {
    if times == [] then []
    else Recent(times[..|times| - 1], cutoff) + if times[|times| - 1] > cutoff then [times[|times| - 1]] else []
  }

  lemma {:induction false} RecentSnoc(times: seq<int>, t: int, cutoff: int)
    ensures Recent(times + [t], cutoff) == Recent(times, cutoff) + if t > cutoff then [t] else []
  {
    assert (times + [t])[..|times + [t]| - 1] == times;
  }

  /** What a later cutoff leaves of what an earlier one left. */
  lemma {:induction false} RecentTwice(times: seq<int>, c: int, d: int)
    requires c <= d
    ensures Recent(Recent(times, c), d) == Recent(times, d)
  {
    if times != [] {
      var init, t := times[..|times| - 1], times[|times| - 1];
      RecentTwice(init, c, d);
      if t > c {
        assert Recent(times, c) == Recent(init, c) + [t];
        RecentSnoc(Recent(init, c), t, d);
      } else {
        assert Recent(times, c) == Recent(init, c);
      }
    }
  }

  ghost predicate Rising(times: seq<int>) { forall i, j :: 0 <= i < j < |times| ==> times[i] <= times[j] }

  /** In rising times the recent ones are the last ones. */
  lemma {:induction false} RecentIsEnd(times: seq<int>, cutoff: int)
    requires Rising(times)
    ensures Recent(times, cutoff) == times[|times| - |Recent(times, cutoff)|..]
    ensures forall i :: 0 <= i < |times| ==> (times[i] > cutoff <==> i >= |times| - |Recent(times, cutoff)|)
  {
    if times != [] {
      var init := times[..|times| - 1];
      RecentIsEnd(init, cutoff);
      assert times == init + [times[|times| - 1]];
    }
  }

  // ---- one key's times, cleaned in place -------------------------------------

  class Window {
    var buf: array<int>
    var len: nat

    ghost predicate Valid()
      reads this
    {
      len <= buf.Length
    }

    ghost function Times(): seq<int>
      reads this, buf
      requires Valid()
    {
      buf[..len]
    }

    constructor ()
      ensures Valid() && Times() == [] && fresh(buf)
    {
      buf, len := new int[0], 0;
    }

    /** Moves the recent times to the front of the same buffer. */
    method Prune(cutoff: int)
      requires Valid()
      modifies this`len, buf
      ensures Valid() && buf == old(buf)
      ensures Times() == Recent(old(Times()), cutoff)
    {
      ghost var was := buf[..len];
      var kept := 0;
      for i := 0 to len
        invariant kept <= i <= len <= buf.Length && len == old(len) && buf == old(buf)
        invariant buf[..kept] == Recent(was[..i], cutoff)
        invariant |was| == len && forall j :: i <= j < len ==> buf[j] == was[j]
      {
        assert was[..i + 1] == was[..i] + [was[i]];
        RecentSnoc(was[..i], was[i], cutoff);
        ghost var front := buf[..kept];
        if buf[i] > cutoff {
          buf[kept] := buf[i];
          assert buf[..kept] == front;
          assert buf[..kept + 1] == front + [was[i]];
          kept := kept + 1;
        }
      }
      assert was[..|was|] == was;
      len := kept;
    }

    /** append: into the buffer while there is room, else into a larger copy. */
    method Append(t: int)
      requires Valid()
      modifies this, buf
      ensures Valid() && Times() == old(Times()) + [t]
      ensures buf == old(buf) || fresh(buf)
    {
      if len == buf.Length {
        var grown := new int[2 * len + 1];
        for i := 0 to len
          invariant len == old(len) && buf == old(buf) && buf[..] == old(buf[..]) && grown.Length > len
          invariant grown[..i] == buf[..i]
        {
          grown[i] := buf[i];
        }
        buf := grown;
      }
      buf[len] := t;
      len := len + 1;
    }
  }

  // ---- windows by key --------------------------------------------------------

  class Windows {
    var windows: map<string, Window>
    ghost var repr: set<object>

    /** Every key has a window and a buffer of its own. */
    ghost predicate Valid()
      reads this, repr
    {
      && this in repr
      && (forall k :: k in windows ==> windows[k] in repr && windows[k].buf in repr && windows[k].Valid())
      && (forall k, l :: k in windows && l in windows && k != l
                         ==> windows[k] != windows[l] && windows[k].buf != windows[l].buf)
    }

    /** The times held for a key; none if there is no entry. */
    ghost function Times(k: string): seq<int>
      requires Valid()
      reads this, repr
    {
      if k in windows then windows[k].Times() else []
    }

    constructor ()
      ensures Valid() && fresh(repr) && forall k :: Times(k) == []
    {
      windows, repr := map[], {this};
    }

    /** The key's window, made if there is none. */
    method Entry(k: string) returns (w: Window)
      requires Valid()
      modifies this
      ensures Valid() && fresh(repr - old(repr)) && k in windows && windows[k] == w
      ensures forall l :: Times(l) == old(Times(l))
    {
      if k in windows {
        return windows[k];
      }
      w := new Window();
      windows := windows[k := w];
      repr := repr + {w, w.buf};
    }

    method Prune(k: string, cutoff: int) returns (n: nat)
      requires Valid()
      modifies repr
      ensures Valid() && fresh(repr - old(repr))
      ensures n == |Times(k)| && Times(k) == Recent(old(Times(k)), cutoff)
      ensures forall l :: l != k ==> Times(l) == old(Times(l))
    {
      var w := Entry(k);
      w.Prune(cutoff);
      n := w.len;
    }

    method Append(k: string, t: int)
      requires Valid()
      modifies repr
      ensures Valid() && fresh(repr - old(repr))
      ensures Times(k) == old(Times(k)) + [t]
      ensures forall l :: l != k ==> Times(l) == old(Times(l))
    {
      var w := Entry(k);
      w.Append(t);
      repr := repr + {w.buf};
    }

    method Delete(k: string)
      requires Valid()
      modifies this`windows
      ensures Valid() && forall l :: Times(l) == if l == k then [] else old(Times(l))
    {
      windows := windows - {k};
    }
  }
}
