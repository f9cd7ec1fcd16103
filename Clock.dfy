/** `setTimeout` under an explicit integer clock in milliseconds: a pending
    timer is its deadline, and a clock tick to time `t` fires every timer
    whose deadline is at most `t`. */
module Clock {

  /** Some timer in `deadlines` is due at time `t`. */
  predicate AnyDue(deadlines: seq<int>, t: int)
  {
    exists i :: 0 <= i < |deadlines| && deadlines[i] <= t
  }

  /** The timers still pending after a tick to time `t`, in their order. */
  function Pending(deadlines: seq<int>, t: int): (r: seq<int>)
    ensures |r| <= |deadlines|
    ensures forall i :: 0 <= i < |r| ==> t < r[i]
    ensures forall d :: d in r <==> d in deadlines && t < d
    ensures !AnyDue(deadlines, t) ==> r == deadlines
  {
    if deadlines == [] then []
    else (if t < deadlines[0] then [deadlines[0]] else []) + Pending(deadlines[1..], t)
  }

  /** Every pending timer lies in the future, at most `dwell` ahead. */
  predicate InWindow(deadlines: seq<int>, now: int, dwell: int)
  {
    forall i :: 0 <= i < |deadlines| ==> now < deadlines[i] <= now + dwell
  }

  /** Ticking forward keeps pending timers within the window. */
  lemma {:induction false} TickKeepsWindow(deadlines: seq<int>, now: int, t: int, dwell: int)
    requires InWindow(deadlines, now, dwell) && now <= t
    ensures InWindow(Pending(deadlines, t), t, dwell)
  {
    var r := Pending(deadlines, t);
    forall i | 0 <= i < |r| ensures t < r[i] <= t + dwell {
      assert r[i] in deadlines;
    }
  }
}
