/** The animated title (frontend/src/components/TypewriterEffect.jsx): a
    timer shows "Chat App" one character at a time, holds the full text for
    five seconds, then starts again from an empty display. Each timer
    callback is one `Step`; each delay is the integer the timer was set
    with. */
module Typewriter {

  /** The text being typed out. */
  const Banner: string := "Chat App"

  /** The state the component keeps: what is on screen and the index of the
      next character. */
  datatype State = State(displayText: string, index: nat)

  const Initial: State := State([], 0)

  /** What the component promises of its state: the screen shows exactly
      the first `index` characters of the banner. */
  predicate Inv(s: State)
  {
    s.index <= |Banner| && s.displayText == Banner[..s.index]
  }

  /** The timer callback armed in state `s`: append the next character and
      advance, or, once the whole banner is shown, clear and restart. */
  function Next(s: State): (r: State)
    ensures r.index == 0 <==> s.index >= |Banner|
    ensures r.index != 0 ==> r.index == s.index + 1 && |r.displayText| == |s.displayText| + 1
  {
    if s.index < |Banner| then State(s.displayText + [Banner[s.index]], s.index + 1)
    else State([], 0)
  }

  /** The delay of the timer armed in a state with this index: 400 ms before
      the first character, 200 ms before each later one, 5000 ms before the
      restart. */
  function Delay(index: nat): (d: nat)
    ensures d == 400 || d == 200 || d == 5000
    ensures d == 5000 <==> index >= |Banner|
    ensures d == 400 <==> index == 0
  {
    if index < |Banner| then (if index == 0 then 400 else 200) else 5000
  }

  /** The state after `k` callbacks. */
  function Iterate(s: State, k: nat): State
    decreases k
  {
    if k == 0 then s else Iterate(Next(s), k - 1)
  }

  /** The total time the next `k` callbacks take. */
  function Elapsed(s: State, k: nat): nat
    decreases k
  {
    if k == 0 then 0 else Delay(s.index) + Elapsed(Next(s), k - 1)
  }

  /** The initial state keeps the invariant and every callback preserves it;
      a typing step grows the display by exactly the next character. */
  lemma NextPreservesInv(s: State)
    requires Inv(s)
    ensures Inv(Initial)
    ensures Inv(Next(s))
    ensures s.index < |Banner| ==>
      Next(s).index == s.index + 1 && Next(s).displayText == s.displayText + [Banner[s.index]]
    ensures s.index == |Banner| ==> Next(s) == Initial
  {
    if s.index < |Banner| {
      assert Banner[..s.index + 1] == Banner[..s.index] + [Banner[s.index]];
    }
  }

  lemma {:induction false} IterateAdd(s: State, a: nat, b: nat)
    ensures Iterate(s, a + b) == Iterate(Iterate(s, a), b)
    decreases a
  {
    if a > 0 {
      IterateAdd(Next(s), a - 1, b);
    }
  }

  /** From a valid state, `k` callbacks that stay short of the restart show
      `k` more characters. */
  lemma {:induction false} IterateTypes(s: State, k: nat)
    requires Inv(s) && s.index + k <= |Banner|
    ensures Iterate(s, k) == State(Banner[..s.index + k], s.index + k)
    decreases k
  {
    if k > 0 {
      NextPreservesInv(s);
      IterateTypes(Next(s), k - 1);
    }
  }

  /** After `k` callbacks from mount, for `k` up to the banner's length, the
      screen shows the first `k` characters. */
  lemma IterateFromStart(k: nat)
    requires k <= |Banner|
    ensures Iterate(Initial, k) == State(Banner[..k], k)
  {
    IterateTypes(Initial, k);
  }

  /** Every valid state recurs after exactly `|Banner| + 1` callbacks, and no
      earlier: the animation is periodic with that period. */
  lemma Period(s: State)
    requires Inv(s)
    ensures Iterate(s, |Banner| + 1) == s
    ensures forall k :: 0 < k <= |Banner| ==> Iterate(s, k) != s
  {
    var n := |Banner|;
    var toEnd := n - s.index;
    IterateTypes(s, toEnd);
    IterateAdd(s, toEnd, 1 + s.index);
    IterateAdd(State(Banner[..n], n), 1, s.index);
    assert Iterate(State(Banner[..n], n), 1) == Initial;
    IterateFromStart(s.index);
    forall k | 0 < k <= n ensures Iterate(s, k) != s {
      if k <= toEnd {
        IterateTypes(s, k);
      } else {
        IterateAdd(s, toEnd, k - toEnd);
        IterateAdd(State(Banner[..n], n), 1, k - toEnd - 1);
        IterateFromStart(k - toEnd - 1);
      }
    }
  }

  /** The time from a valid state to the restart and one callback past it:
      200 ms per remaining character (400 ms for the first one when the
      display is empty) and then the 5000 ms hold. */
  lemma {:induction false} ElapsedToRestart(s: State)
    requires Inv(s)
    ensures Elapsed(s, |Banner| - s.index + 1)
      == (if s.index == 0 then 400 + 200 * (|Banner| - 1) else 200 * (|Banner| - s.index)) + 5000
    decreases |Banner| - s.index
  {
    if s.index < |Banner| {
      NextPreservesInv(s);
      ElapsedToRestart(Next(s));
    }
  }

  /** One full cycle from mount takes 400 + 7 * 200 + 5000 = 6800 ms. */
  lemma CycleTime()
    ensures Elapsed(Initial, |Banner| + 1) == 6800
  {
    ElapsedToRestart(Initial);
  }

  /** How the display is drawn: a space becomes a no-break space so that it
      keeps its width; every other character is drawn as it is. */
  function RenderChar(c: char): (r: char)
    ensures r != ' '
    ensures c != ' ' ==> r == c
    ensures c == ' ' ==> r == '\U{00A0}'
  {
    if c == ' ' then '\U{00A0}' else c
  }

  function Render(display: string): (r: string)
    ensures |r| == |display|
    ensures forall i :: 0 <= i < |r| ==> r[i] == RenderChar(display[i])
  {
    if display == [] then [] else [RenderChar(display[0])] + Render(display[1..])
  }

  /** The drawn text never contains a plain space, and it is the displayed
      text again once no-break spaces are read as spaces. */
  lemma RenderRoundTrip(display: string)
    requires forall i :: 0 <= i < |display| ==> display[i] != '\U{00A0}'
    ensures forall i :: 0 <= i < |Render(display)| ==> Render(display)[i] != ' '
    ensures Unrender(Render(display)) == display
  {
    var r := Render(display);
    assert forall i :: 0 <= i < |r| ==> Unrender(r)[i] == display[i];
  }

  function Unrender(drawn: string): (r: string)
    ensures |r| == |drawn|
    ensures forall i :: 0 <= i < |r| ==> r[i] == (if drawn[i] == '\U{00A0}' then ' ' else drawn[i])
  {
    if drawn == [] then [] else [if drawn[0] == '\U{00A0}' then ' ' else drawn[0]] + Unrender(drawn[1..])
  }

  /** The component's two state cells. */
  class TypewriterView {
    var displayText: string
    var index: nat

    function Current(): State
      reads this
    {
      State(displayText, index)
    }

    ghost predicate Valid()
      reads this
    {
      Inv(Current())
    }

    /** Mount: nothing shown, index 0. */
    constructor ()
      ensures Valid()
      ensures Current() == Initial
    {
      displayText := [];
      index := 0;
    }

    /** One timer callback; `delay` is what that timer was armed with. */
    method Step() returns (delay: nat)
      requires Valid()
      modifies this
      ensures Valid()
      ensures Current() == Next(old(Current()))
      ensures delay == Delay(old(index))
    {
      delay := Delay(index);
      NextPreservesInv(Current());
      var s := Next(Current());
      displayText, index := s.displayText, s.index;
    }
  }
}
