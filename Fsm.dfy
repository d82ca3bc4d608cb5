/** The enemies' state-machine runtime: one current state, an ordered list
    of ordinary transitions and an ordered list of any-state transitions.
    States are an abstract tag type `S`; a guard is a predicate over a
    snapshot `G` of the owner's fields taken when the machine is updated.
    Calls into the state objects (Exit, Enter, the per-tick Update) and the
    OnStateChanged notification are recorded as `Hook`s, in the order the
    runtime makes them; the owner runs them in that order. */
module Fsm {
  import opened Common

  /** A transition; `from` is None for an any-state transition (and for an
      ordinary transition registered with a null origin). */
  datatype Transition<S, -G> = Transition(from: Option<S>, to: S, condition: G -> bool)

  /** One call the runtime makes on a state object or on the subscribers. */
  datatype Hook<S> = Exit(state: S) | StateChanged(state: S) | Enter(state: S) | Tick(state: S)

  /** Whether `t` may fire: an any-state transition needs only its guard, an
      ordinary one must also start from the current state. */
  predicate Fires<S(==), G>(t: Transition<S, G>, anyState: bool, current: Option<S>, g: G)
  {
    (anyState || t.from == current) && t.condition(g)
  }

  /** Index of the first transition at or after `i` that fires, scanning in
      registration order. */
  function FirstEnabled<S(==), G>(ts: seq<Transition<S, G>>, anyState: bool, current: Option<S>, g: G, i: nat): (r: Option<nat>)
    requires i <= |ts|
    ensures r.Some? ==> i <= r.value < |ts| && Fires(ts[r.value], anyState, current, g)
    ensures r.Some? ==> forall j :: i <= j < r.value ==> !Fires(ts[j], anyState, current, g)
    ensures r.None? <==> forall j :: i <= j < |ts| ==> !Fires(ts[j], anyState, current, g)
    decreases |ts| - i
  {
    if i == |ts| then None
    else if Fires(ts[i], anyState, current, g) then Some(i)
    else FirstEnabled(ts, anyState, current, g, i + 1)
  }

  /** GetTransition: the first firing any-state transition, otherwise the first
      firing ordinary transition out of the current state, otherwise none. */
  function Select<S(==), G>(any: seq<Transition<S, G>>, ts: seq<Transition<S, G>>, current: Option<S>, g: G): Option<Transition<S, G>>
  {
    match FirstEnabled(any, true, current, g, 0)
    case Some(k) => Some(any[k])
    case None =>
      match FirstEnabled(ts, false, current, g, 0)
      case Some(k) => Some(ts[k])
      case None => None
  }

  /** The calls SetState(s) makes: nothing when `s` is already current;
      otherwise Exit on the old state (if any), the notification, Enter. */
  function ChangeHooks<S(==)>(current: Option<S>, s: S): seq<Hook<S>>
  {
    if current == Some(s) then []
    else (if current.Some? then [Exit(current.value)] else []) + [StateChanged(s), Enter(s)]
  }

  /** The current state after one Update. */
  function StepState<S(==), G>(any: seq<Transition<S, G>>, ts: seq<Transition<S, G>>, current: Option<S>, g: G): Option<S>
  {
    match Select(any, ts, current, g)
    case Some(t) => Some(t.to)
    case None => current
  }

  /** The calls one Update makes: the change (if a transition fires), then
      the per-tick update of whichever state is current afterwards. */
  function StepHooks<S(==), G>(any: seq<Transition<S, G>>, ts: seq<Transition<S, G>>, current: Option<S>, g: G): seq<Hook<S>>
  {
    (match Select(any, ts, current, g)
     case Some(t) => ChangeHooks(current, t.to)
     case None => [])
    + (match StepState(any, ts, current, g)
       case Some(s) => [Tick(s)]
       case None => [])
  }

  /** The number of Enter calls in a trace. */
  function Enters<S>(hs: seq<Hook<S>>): (n: nat)
    ensures n <= |hs|
  {
    if hs == [] then 0 else (if hs[0].Enter? then 1 else 0) + Enters(hs[1..])
  }

  // ---------------------------------------------------------------- lemmas

  /** SetState with the state that is already current makes no call at all;
      any other state yields Exit (of the old state, when there is one),
      then the notification, then Enter — exactly once each. */
  lemma SetStateOrder<S>(current: Option<S>, s: S)
    ensures current == Some(s) ==> ChangeHooks(current, s) == []
    ensures current.None? ==> ChangeHooks(current, s) == [StateChanged(s), Enter(s)]
    ensures current.Some? && current != Some(s) ==>
      ChangeHooks(current, s) == [Exit(current.value), StateChanged(s), Enter(s)]
    ensures Enters(ChangeHooks(current, s)) == (if current == Some(s) then 0 else 1)
  {
    var hs := ChangeHooks(current, s);
    if current != Some(s) {
      if current.Some? {
        assert hs[1..] == [StateChanged(s), Enter(s)];
        assert hs[1..][1..] == [Enter(s)];
        assert hs[1..][1..][1..] == [];
        assert Enters(hs[1..][1..]) == 1;
        assert Enters(hs[1..]) == 1;
      } else {
        assert hs[1..] == [Enter(s)];
        assert hs[1..][1..] == [];
        assert Enters(hs[1..]) == 1;
      }
    }
  }

  /** A firing any-state transition is chosen whatever the current state, and
      it is the first one in registration order that fires. */
  lemma AnyTransitionsFirst<S, G>(any: seq<Transition<S, G>>, ts: seq<Transition<S, G>>, current: Option<S>, g: G, k: nat)
    requires k < |any| && any[k].condition(g)
    ensures exists j :: (0 <= j <= k && Select(any, ts, current, g) == Some(any[j]) && any[j].condition(g) &&
      forall i :: 0 <= i < j ==> !any[i].condition(g))
  {
    assert Fires(any[k], true, current, g);
    var r := FirstEnabled(any, true, current, g, 0);
    assert r.Some?;
    var j := r.value;
    assert j <= k;
    assert forall i :: 0 <= i < j ==> !Fires(any[i], true, current, g);
  }

  /** When no any-state transition fires, the chosen transition (if any) is
      an ordinary one registered from the current state whose guard holds,
      and no earlier ordinary transition fires; and when one of them fires,
      something is chosen. */
  lemma OrdinaryFromCurrentOnly<S, G>(any: seq<Transition<S, G>>, ts: seq<Transition<S, G>>, current: Option<S>, g: G)
    requires forall i :: 0 <= i < |any| ==> !any[i].condition(g)
    ensures Select(any, ts, current, g).Some? <==>
      exists k :: 0 <= k < |ts| && ts[k].from == current && ts[k].condition(g)
    ensures Select(any, ts, current, g).Some? ==>
      exists k :: (0 <= k < |ts| && Select(any, ts, current, g) == Some(ts[k]) &&
        ts[k].from == current && ts[k].condition(g) &&
        forall i :: 0 <= i < k ==> !(ts[i].from == current && ts[i].condition(g)))
  {
    assert forall i :: 0 <= i < |any| ==> !Fires(any[i], true, current, g);
    assert FirstEnabled(any, true, current, g, 0).None?;
    var r := FirstEnabled(ts, false, current, g, 0);
    if r.Some? {
      var k := r.value;
      assert forall i :: 0 <= i < k ==> !Fires(ts[i], false, current, g);
    } else {
      assert forall i :: 0 <= i < |ts| ==> !Fires(ts[i], false, current, g);
    }
  }

  /** Update makes at most one state change, and its trace has one of four
      shapes: nothing (no state), only the current state's tick, or a change
      (Exit when there was a state, then notification, then Enter) followed by
      the tick of the new state. */
  lemma StepShape<S, G>(any: seq<Transition<S, G>>, ts: seq<Transition<S, G>>, current: Option<S>, g: G)
    ensures Enters(StepHooks(any, ts, current, g)) <= 1
    ensures var hs := StepHooks(any, ts, current, g);
      var next := StepState(any, ts, current, g);
      (current.None? && next.None? && hs == []) ||
      (current.Some? && next == current && hs == [Tick(current.value)]) ||
      (current.None? && next.Some? && hs == [StateChanged(next.value), Enter(next.value), Tick(next.value)]) ||
      (current.Some? && next.Some? && next != current &&
        hs == [Exit(current.value), StateChanged(next.value), Enter(next.value), Tick(next.value)])
  {
    var hs := StepHooks(any, ts, current, g);
    var next := StepState(any, ts, current, g);
    match Select(any, ts, current, g)
    case None =>
      if current.Some? {
        assert hs == [Tick(current.value)];
        assert hs[1..] == [];
      } else {
        assert hs == [];
      }
    case Some(t) =>
      SetStateOrder(current, t.to);
      var s := t.to;
      if current == Some(s) {
        assert hs == [Tick(s)];
        assert hs[1..] == [];
      } else if current.Some? {
        assert hs == [Exit(current.value), StateChanged(s), Enter(s), Tick(s)];
        assert hs[1..] == [StateChanged(s), Enter(s), Tick(s)];
        assert hs[1..][1..] == [Enter(s), Tick(s)];
        assert hs[1..][1..][1..] == [Tick(s)];
        assert hs[1..][1..][1..][1..] == [];
        assert Enters(hs[1..][1..][1..]) == 0;
        assert Enters(hs[1..][1..]) == 1;
        assert Enters(hs[1..]) == 1;
      } else {
        assert hs == [StateChanged(s), Enter(s), Tick(s)];
        assert hs[1..] == [Enter(s), Tick(s)];
        assert hs[1..][1..] == [Tick(s)];
        assert hs[1..][1..][1..] == [];
        assert Enters(hs[1..][1..]) == 0;
        assert Enters(hs[1..]) == 1;
      }
  }

  /** A firing any-state transition that targets the current state makes the
      tick a plain update of that state: no ordinary transition is taken, and
      there is no Exit, notification or Enter. */
  lemma AnyToCurrentIsQuiet<S, G>(any: seq<Transition<S, G>>, ts: seq<Transition<S, G>>, c: S, g: G, k: nat)
    requires k < |any| && any[k].condition(g) && any[k].to == c
    requires forall i :: 0 <= i < k ==> !any[i].condition(g)
    ensures StepState(any, ts, Some(c), g) == Some(c)
    ensures StepHooks(any, ts, Some(c), g) == [Tick(c)]
  {
    var r := FirstEnabled(any, true, Some(c), g, 0);
    assert Fires(any[k], true, Some(c), g);
    assert r.value == k;
    assert Select(any, ts, Some(c), g) == Some(any[k]);
  }

  /** With no firing transition the state stays and only its own update runs;
      with no state at all nothing runs. */
  lemma NoTransitionOnlyTicks<S, G>(any: seq<Transition<S, G>>, ts: seq<Transition<S, G>>, current: Option<S>, g: G)
    requires forall i :: 0 <= i < |any| ==> !any[i].condition(g)
    requires forall i :: 0 <= i < |ts| ==> !(ts[i].from == current && ts[i].condition(g))
    ensures StepState(any, ts, current, g) == current
    ensures StepHooks(any, ts, current, g) == if current.Some? then [Tick(current.value)] else []
  {
    OrdinaryFromCurrentOnly(any, ts, current, g);
  }

  /** The runtime object. `calls` is the trace of every hook call made so far. */
  class EnemyStateMachine<S(==), G> {
    var current: Option<S>
    var transitions: seq<Transition<S, G>>
    var anyTransitions: seq<Transition<S, G>>
    var calls: seq<Hook<S>>

    constructor ()
      ensures current == None && transitions == [] && anyTransitions == [] && calls == []
    {
      current := None;
      transitions := [];
      anyTransitions := [];
      calls := [];
    }

    /** Switches to `s`; nothing happens when `s` is already current. */
    method SetState(s: S)
      modifies this`current, this`calls
      ensures current == Some(s)
      ensures calls == old(calls) + ChangeHooks(old(current), s)
    {
      if current == Some(s) {
        return;
      }
      if current.Some? {
        calls := calls + [Exit(current.value)];
      }
      current := Some(s);
      calls := calls + [StateChanged(s)];
      calls := calls + [Enter(s)];
    }

    /** Appends an ordinary transition; nothing is ever removed or reordered. */
    method AddTransition(from: Option<S>, to: S, condition: G -> bool)
      modifies this`transitions
      ensures transitions == old(transitions) + [Transition(from, to, condition)]
    {
      transitions := transitions + [Transition(from, to, condition)];
    }

    /** Appends an any-state transition. */
    method AddAnyTransition(to: S, condition: G -> bool)
      modifies this`anyTransitions
      ensures anyTransitions == old(anyTransitions) + [Transition(None, to, condition)]
    {
      anyTransitions := anyTransitions + [Transition(None, to, condition)];
    }

    /** Scans the any-state list, then the ordinary list, in order. */
    method GetTransition(g: G) returns (t: Option<Transition<S, G>>)
      ensures t.Some? ==> t.value in anyTransitions || t.value in transitions
      ensures t.Some? && t.value.from.Some? && t.value !in anyTransitions ==> t.value.from == current
      ensures t.Some? ==> t.value.condition(g)
      ensures t == Select(anyTransitions, transitions, current, g)
    {
      var i := 0;
      while i < |anyTransitions|
        invariant 0 <= i <= |anyTransitions|
        invariant FirstEnabled(anyTransitions, true, current, g, 0) == FirstEnabled(anyTransitions, true, current, g, i)
      {
        if anyTransitions[i].condition(g) {
          return Some(anyTransitions[i]);
        }
        i := i + 1;
      }
      var j := 0;
      while j < |transitions|
        invariant 0 <= j <= |transitions|
        invariant FirstEnabled(transitions, false, current, g, 0) == FirstEnabled(transitions, false, current, g, j)
      {
        if transitions[j].from == current && transitions[j].condition(g) {
          return Some(transitions[j]);
        }
        j := j + 1;
      }
      return None;
    }

    /** One tick: take the chosen transition (at most one), then update the
        state that is current afterwards. Returns the calls made this tick. */
    method Update(g: G) returns (emitted: seq<Hook<S>>)
      modifies this`current, this`calls
      ensures current == StepState(anyTransitions, transitions, old(current), g)
      ensures emitted == StepHooks(anyTransitions, transitions, old(current), g)
      ensures calls == old(calls) + emitted
    {
      var t := GetTransition(g);
      var before := calls;
      if t.Some? {
        SetState(t.value.to);
      }
      if current.Some? {
        calls := calls + [Tick(current.value)];
      }
      emitted := calls[|before|..];
    }
  }
}
