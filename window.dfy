/** The bounded sample window both viewers keep of the DATA messages received on
    the metrics channel (EntityKwirthMetricsContent.tsx:173-181 and the same code
    in the older EntityKwirthMetricsContent/EntityKwirthMetricsContent.tsx:186-194). */
module SampleWindow {
  import opened Kwirth

  /** What the trimming loop leaves of `buf`: while the buffer is longer than
      `depth`, its oldest element is removed. */
  function Trim<T>(buf: seq<T>, depth: nat): (r: seq<T>)
    ensures |r| == if |buf| <= depth then |buf| else depth
    ensures r == buf[|buf| - |r|..]
    decreases |buf|
  {
    if |buf| > depth then Trim(buf[1..], depth) else buf
  }

  /** The state updater of a DATA message whose timestamp is not 0: trim, then
      append the message unless the viewer is paused. The kept part is the newest
      suffix of the old buffer, in its original order. */
  function Window<T>(prev: seq<T>, depth: nat, paused: bool, msg: T): (r: seq<T>)
    ensures |r| <= depth + 1
    ensures paused ==> |r| <= depth
    ensures !paused ==> |r| >= 1 && r[|r| - 1] == msg
    ensures var kept := if paused then r else r[..|r| - 1];
            |kept| == (if |prev| <= depth then |prev| else depth) &&
            kept == prev[|prev| - |kept|..]
  {
    var kept := Trim(prev, depth);
    if paused then kept else kept + [msg]
  }

  /** The trimming loop run on the buffer, as the source runs it (`while` and
      `splice(0, 1)`), followed by the append. */
  method NextWindow<T>(prev: seq<T>, depth: nat, paused: bool, msg: T) returns (next: seq<T>)
    ensures next == Window(prev, depth, paused, msg)
  {
    next := prev;
    while |next| > depth
      invariant Trim(next, depth) == Trim(prev, depth)
      decreases |next|
    {
      next := next[1..];
    }
    if !paused {
      next := next + [msg];
    }
  }

  /** A suffix at least `depth` long (or the whole buffer) trims to the same window. */
  lemma TrimOfSuffix<T>(p: seq<T>, q: seq<T>, depth: nat)
    requires |p| <= |q| && p == q[|q| - |p|..]
    requires |p| >= depth || p == q
    ensures Trim(p, depth) == Trim(q, depth)
  {
    var tp, tq := Trim(p, depth), Trim(q, depth);
    var k := |tp|;
    assert |tq| == k;
    assert tp == p[|p| - k..] && tq == q[|q| - k..];
    forall i | 0 <= i < k ensures tp[i] == tq[i] {
      assert p[|p| - k + i] == q[|q| - |p| + (|p| - k + i)];
    }
  }

  /** One unpaused step is a window of `depth + 1` over the buffer with the message. */
  lemma {:induction false} WindowSlides<T>(prev: seq<T>, depth: nat, msg: T)
    ensures Window(prev, depth, false, msg) == Trim(prev + [msg], depth + 1)
  {
    var q := prev + [msg];
    var t := Trim(prev, depth);
    var w := Trim(q, depth + 1);
    assert t + [msg] == q[|q| - |w|..];
  }

  /** Feeding a run of unpaused, non-initial DATA messages to the buffer. */
  function Feed<T>(buf: seq<T>, xs: seq<T>, depth: nat): seq<T>
  {
    if xs == [] then buf
    else Window(Feed(buf, xs[..|xs| - 1], depth), depth, false, xs[|xs| - 1])
  }

  /** The sliding-window property: after any non-empty run of unpaused messages the
      buffer holds exactly the newest `depth + 1` elements of what it held plus what
      arrived, in arrival order. */
  lemma {:induction false} FeedKeepsNewest<T>(buf: seq<T>, xs: seq<T>, depth: nat)
    requires xs != []
    ensures Feed(buf, xs, depth) == Trim(buf + xs, depth + 1)
  {
    var init, m := xs[..|xs| - 1], xs[|xs| - 1];
    assert xs == init + [m];
    var q := buf + init;
    assert buf + xs == q + [m];
    var prev := Feed(buf, init, depth);
    assert Feed(buf, xs, depth) == Trim(prev + [m], depth + 1) by {
      WindowSlides(prev, depth, m);
    }
    if init != [] {
      FeedKeepsNewest(buf, init, depth);
      SlideTrimmed(q, m, depth + 1);
    }
  }

  /** Trimming before appending does not change the window of the longer buffer. */
  lemma SlideTrimmed<T>(q: seq<T>, m: T, depth: nat)
    ensures Trim(Trim(q, depth) + [m], depth) == Trim(q + [m], depth)
  {
    var p := Trim(q, depth);
    var q' := q + [m];
    assert p + [m] == q'[|q'| - |p + [m]|..];
    TrimOfSuffix(p + [m], q', depth);
  }

  /** Once at least `depth + 1` messages have arrived, the old buffer is gone. */
  lemma FeedForgetsOld<T>(buf: seq<T>, xs: seq<T>, depth: nat)
    requires |xs| >= depth + 1
    ensures Feed(buf, xs, depth) == xs[|xs| - (depth + 1)..]
  {
    var newest := Trim(buf + xs, depth + 1);
    assert Feed(buf, xs, depth) == newest by { FeedKeepsNewest(buf, xs, depth); }
    assert newest == xs[|xs| - (depth + 1)..] by { TrimOfLong(buf, xs, depth + 1); }
  }

  /** A buffer whose appended part is at least `n` long trims to the end of that part. */
  lemma TrimOfLong<T>(buf: seq<T>, xs: seq<T>, n: nat)
    requires |xs| >= n
    ensures Trim(buf + xs, n) == xs[|xs| - n..]
  {
    var q := buf + xs;
    assert Trim(q, n) == q[|q| - n..];
    assert q[|q| - n..] == xs[|xs| - n..];
  }

  // ------------------------------------------------ the loop over an integer depth

  /** The trimming loop as written, over the plain number the depth prop may hold:
      `splice(0, 1)` on an empty buffer leaves it empty. At most `fuel` rounds are
      run; None means the loop has not finished within them. */
  function TrimLoop<T>(buf: seq<T>, depth: int, fuel: nat): Option<seq<T>>
    decreases fuel
  {
    if |buf| <= depth then Some(buf)
    else if fuel == 0 then None
    else TrimLoop(if buf == [] then [] else buf[1..], depth, fuel - 1)
  }

  /** As written, a negative depth never lets the loop finish, however many rounds
      it is given: no length is ever at most the depth. */
  lemma {:induction false} NegativeDepthNeverSettles<T>(buf: seq<T>, depth: int, fuel: nat)
    requires depth < 0
    ensures TrimLoop(buf, depth, fuel) == None
    decreases fuel
  {
    if fuel > 0 {
      NegativeDepthNeverSettles(if buf == [] then [] else buf[1..], depth, fuel - 1);
    }
  }

  /** With a depth that is not negative, the loop finishes within `|buf|` rounds and
      leaves the newest `depth` elements, `Trim`. */
  lemma {:induction false} TrimLoopSettles<T>(buf: seq<T>, depth: nat, fuel: nat)
    requires fuel >= |buf|
    ensures TrimLoop(buf, depth, fuel) == Some(Trim(buf, depth))
    decreases fuel
  {
    if |buf| > depth {
      TrimLoopSettles(buf[1..], depth, fuel - 1);
    }
  }
}
