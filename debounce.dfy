/**
 * The trailing-edge debounce hook of the list page (src/pages/Anime/index.js,
 * `useDebounce`), on a discrete millisecond clock. Each render with a new
 * `value` cancels the armed timer and arms a new one `delay` ticks ahead; a
 * timer that comes due hands its value to the debounced state. The list page
 * debounces its search text with a delay of 250 milliseconds; here the delay
 * is a parameter.
 */
module Debounce {
  import opened Wrappers

  /** An armed setTimeout: the value it will commit and the tick it is due. */
  datatype Timer = Timer(value: string, dueAt: nat)

  /** A render carrying the hook's `value` argument, or one millisecond passing. */
  datatype Event = Render(value: string) | Tick

  /**
   * `input` is the last `value` the hook was rendered with, `debounced` the
   * state it returns, `pending` the armed timer and `fired` every value a
   * timer has committed, oldest first.
   */
  datatype State = State(now: nat, input: string, debounced: string, pending: Option<Timer>, fired: seq<string>)

  /** Mounting: the state starts as the value and the effect arms a first timer. */
  function Mount(value: string, now: nat, delay: nat): (s: State)
    ensures Valid(s, delay) && s.now == now && s.fired == []
    ensures s.input == value && s.debounced == value
    ensures s.pending == Some(Timer(value, now + delay))
  {
    State(now, value, value, Some(Timer(value, now + delay)), [])
  }

  /**
   * The armed timer always carries the latest value and is due within
   * `delay`; with no timer armed, the debounced value has caught up.
   */
  predicate Valid(s: State, delay: nat) {
    match s.pending
    case Some(t) => t.value == s.input && s.now <= t.dueAt <= s.now + delay
    case None => s.debounced == s.input
  }

  function Step(s: State, e: Event, delay: nat): (r: State)
    ensures Valid(s, delay) ==> Valid(r, delay)
  {
    match e
    case Render(v) =>
      // The effect depends on [value, delay]: an unchanged value leaves the timer alone.
      if v == s.input then s
      else s.(input := v, pending := Some(Timer(v, s.now + delay)))
    case Tick =>
      var now := s.now + 1;
      if s.pending.Some? && s.pending.value.dueAt <= now then
        s.(now := now, debounced := s.pending.value.value, pending := None,
           fired := s.fired + [s.pending.value.value])
      else s.(now := now)
  }

  function Run(s: State, es: seq<Event>, delay: nat): State
    decreases |es|
  {
    if es == [] then s else Run(Step(s, es[0], delay), es[1..], delay)
  }

  function Ticks(n: nat): (es: seq<Event>)
    ensures |es| == n && forall i :: 0 <= i < n ==> es[i] == Tick
  {
    seq(n, _ => Tick)
  }

  lemma {:induction false} RunAppend(s: State, a: seq<Event>, b: seq<Event>, delay: nat)
    ensures Run(s, a + b, delay) == Run(Run(s, a, delay), b, delay)
    decreases |a|
  {
    if a == [] {
      assert a + b == b;
    } else {
      assert (a + b)[1..] == a[1..] + b;
      RunAppend(Step(s, a[0], delay), a[1..], b, delay);
    }
  }

  /** Ticks before the armed timer is due change nothing but the clock. */
  lemma {:induction false} QuietTicks(s: State, k: nat, delay: nat)
    requires k == 0 || s.pending.None? || s.now + k < s.pending.value.dueAt
    ensures Run(s, Ticks(k), delay) == s.(now := s.now + k)
    decreases k
  {
    if k > 0 {
      assert Ticks(k)[1..] == Ticks(k - 1);
      QuietTicks(Step(s, Tick, delay), k - 1, delay);
    }
  }

  /**
   * `delay` milliseconds without a new value settle the hook: the debounced
   * value becomes the latest input, committed by exactly one timer if one was
   * armed, and nothing stays armed.
   */
  lemma SettlesAfterDelay(s: State, delay: nat)
    requires Valid(s, delay) && delay > 0
    ensures var t := Run(s, Ticks(delay), delay);
      && t.debounced == s.input && t.input == s.input && t.pending == None
      && t.fired == s.fired + (if s.pending.Some? then [s.input] else [])
  {
    if s.pending.None? {
      QuietTicks(s, delay, delay);
      assert s.fired + [] == s.fired;
    } else {
      var due := s.pending.value.dueAt;
      var q := if due > s.now then due - s.now - 1 else 0;
      QuietTicks(s, q, delay);
      var s1 := Run(s, Ticks(q), delay);
      var s2 := Step(s1, Tick, delay);
      assert s2.pending == None && s2.debounced == s.input && s2.fired == s.fired + [s.input];
      QuietTicks(s2, delay - q - 1, delay);
      assert Ticks(delay) == Ticks(q) + ([Tick] + Ticks(delay - q - 1));
      RunAppend(s, Ticks(q), [Tick] + Ticks(delay - q - 1), delay);
      RunAppend(s1, [Tick], Ticks(delay - q - 1), delay);
    }
  }

  /**
   * A burst of keystrokes: each value rendered, then fewer than `delay`
   * milliseconds before the next one.
   */
  function Burst(vs: seq<string>, gaps: seq<nat>): seq<Event>
    requires |vs| == |gaps| + 1
    decreases |gaps|
  {
    if gaps == [] then [Render(vs[0])]
    else [Render(vs[0])] + Ticks(gaps[0]) + Burst(vs[1..], gaps[1..])
  }

  predicate IsBurst(s: State, vs: seq<string>, gaps: seq<nat>, delay: nat) {
    && |vs| == |gaps| + 1
    && vs[0] != s.input
    && (forall i :: 0 <= i < |gaps| ==> gaps[i] < delay)
    && (forall i :: 0 <= i < |gaps| ==> vs[i] != vs[i + 1])
  }

  /**
   * During a burst every new value cancels the armed timer, so nothing is
   * committed: the debounced value is the one from before the burst, and one
   * timer for the last value is armed, a full `delay` ahead.
   */
  lemma {:induction false} BurstHoldsBack(s: State, vs: seq<string>, gaps: seq<nat>, delay: nat)
    requires Valid(s, delay) && IsBurst(s, vs, gaps, delay)
    ensures var t := Run(s, Burst(vs, gaps), delay);
      && Valid(t, delay)
      && t.debounced == s.debounced && t.fired == s.fired
      && t.input == vs[|vs| - 1] && t.pending == Some(Timer(vs[|vs| - 1], t.now + delay))
    decreases |gaps|
  {
    var s1 := Step(s, Render(vs[0]), delay);
    assert Run(s, [Render(vs[0])], delay) == s1;
    if gaps == [] {
      assert Burst(vs, gaps) == [Render(vs[0])];
    } else {
      QuietTicks(s1, gaps[0], delay);
      var s2 := Run(s1, Ticks(gaps[0]), delay);
      BurstTail(s, vs, gaps, delay, s2);
      BurstHoldsBack(s2, vs[1..], gaps[1..], delay);
      var tail := Burst(vs[1..], gaps[1..]);
      calc {
        Run(s, Burst(vs, gaps), delay);
        { assert Burst(vs, gaps) == [Render(vs[0])] + (Ticks(gaps[0]) + tail); }
        Run(s, [Render(vs[0])] + (Ticks(gaps[0]) + tail), delay);
        { RunAppend(s, [Render(vs[0])], Ticks(gaps[0]) + tail, delay); }
        Run(s1, Ticks(gaps[0]) + tail, delay);
        { RunAppend(s1, Ticks(gaps[0]), tail, delay); }
        Run(s2, tail, delay);
      }
    }
  }

  /** The rest of a burst, after its first value and first gap, is again a burst. */
  lemma BurstTail(s: State, vs: seq<string>, gaps: seq<nat>, delay: nat, s2: State)
    requires Valid(s, delay) && IsBurst(s, vs, gaps, delay) && gaps != []
    requires s2 == s.(input := vs[0], pending := Some(Timer(vs[0], s.now + delay)), now := s.now + gaps[0])
    ensures Valid(s2, delay) && IsBurst(s2, vs[1..], gaps[1..], delay)
    ensures s2.debounced == s.debounced && s2.fired == s.fired
  {
    forall i | 0 <= i < |gaps[1..]| ensures gaps[1..][i] < delay && vs[1..][i] != vs[1..][i + 1] {
      assert gaps[1..][i] == gaps[i + 1] && vs[1..][i] == vs[i + 1] && vs[1..][i + 1] == vs[i + 2];
    }
  }

  /**
   * A burst followed by `delay` quiet milliseconds commits exactly one value,
   * the last of the burst: "a", "ab", "abc" typed quickly give one "abc".
   */
  lemma OnlyLastValueCommitted(s: State, vs: seq<string>, gaps: seq<nat>, delay: nat)
    requires Valid(s, delay) && IsBurst(s, vs, gaps, delay) && delay > 0
    ensures var t := Run(s, Burst(vs, gaps) + Ticks(delay), delay);
      t.fired == s.fired + [vs[|vs| - 1]] && t.debounced == vs[|vs| - 1]
  {
    BurstHoldsBack(s, vs, gaps, delay);
    RunAppend(s, Burst(vs, gaps), Ticks(delay), delay);
    SettlesAfterDelay(Run(s, Burst(vs, gaps), delay), delay);
  }

  /** The hook instance: its state changes in place on every render and tick. */
  class Debouncer {
    const delay: nat
    var now: nat
    var input: string
    var debounced: string
    var pending: Option<Timer>
    var fired: seq<string>

    function Snapshot(): State
      reads this
    {
      State(now, input, debounced, pending, fired)
    }

    /** useState(value) and the first run of the effect. */
    constructor (value: string, delay: nat, now: nat)
      ensures Snapshot() == Mount(value, now, delay) && this.delay == delay
    {
      this.delay := delay;
      this.now := now;
      input := value;
      debounced := value;
      pending := Some(Timer(value, now + delay));
      fired := [];
    }

    /** A render with `value`: a changed value clears the timer and sets a new one. */
    method Render(value: string)
      modifies this
      ensures Snapshot() == Step(old(Snapshot()), Event.Render(value), delay)
    {
      if value != input {
        input := value;
        pending := Some(Timer(value, now + delay));
      }
    }

    /** One millisecond passes; a timer that is due commits its value. */
    method Tick()
      modifies this
      ensures Snapshot() == Step(old(Snapshot()), Event.Tick, delay)
    {
      now := now + 1;
      if pending.Some? && pending.value.dueAt <= now {
        debounced := pending.value.value;
        fired := fired + [pending.value.value];
        pending := None;
      }
    }

    /** The effect's cleanup on unmount: the armed timer is cleared and nothing else changes. */
    method Unmount()
      modifies this
      ensures Snapshot() == old(Snapshot()).(pending := None)
    {
      pending := None;
    }
  }
}
