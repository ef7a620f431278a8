/** The state machine as the record that the functions of src/state_machine.c update. */
module StateMachineRecords {
  import opened Basics
  import opened M = StateMachines

  class State {
    const id: nat
    const hasInit: bool
    var enteredOnce: bool

    constructor (id: nat, hasInit: bool)
      ensures this.id == id && this.hasInit == hasInit && !enteredOnce
    {
      this.id, this.hasInit := id, hasInit;
      enteredOnce := false;
    }
  }

  function Ids(s: seq<State>): (r: seq<nat>)
    ensures |r| == |s| && forall i :: 0 <= i < |s| ==> r[i] == s[i].id
  {
    if s == [] then [] else Ids(s[..|s| - 1]) + [s[|s| - 1].id]
  }

  function Inits(s: seq<State>): (r: seq<bool>)
    ensures |r| == |s| && forall i :: 0 <= i < |s| ==> r[i] == s[i].hasInit
  {
    if s == [] then [] else Inits(s[..|s| - 1]) + [s[|s| - 1].hasInit]
  }

  /** Which positions have been entered.  A state that is registered again is only ever entered at its first one. */
  function Entered(s: seq<State>): (r: seq<bool>)
    reads s
    ensures |r| == |s| && forall i :: 0 <= i < |s| ==> r[i] == (s[i].enteredOnce && s[i] !in s[..i])
  {
    if s == [] then []
    else
      var n := |s| - 1;
      assert forall i :: 0 <= i < n ==> s[..n][..i] == s[..i];
      Entered(s[..n]) + [s[n].enteredOnce && s[n] !in s[..n]]
  }

  /** The first position with an id is the first one of its state. */
  lemma FirstIsFirst(s: seq<State>, k: nat)
    requires k < |s| && s[k].id !in Ids(s)[..k]
    ensures s[k] !in s[..k]
  {
    forall i | 0 <= i < k ensures s[i] != s[k] {
      assert Ids(s)[..k][i] == s[i].id;
    }
  }

  lemma {:induction false} GetStateIs(ids: seq<nat>, id: nat, k: nat)
    requires k < |ids| && ids[k] == id && id !in ids[..k]
    ensures GetState(ids, id) == Some(k)
  {
    if k > 0 {
      assert ids[0] in ids[..k];
      assert forall x :: x in ids[1..][..k - 1] ==> x in ids[..k];
      GetStateIs(ids[1..], id, k - 1);
    }
  }

  lemma TransitionMoves(m: Machine, k: nat)
    requires WellFormed(m) && m.requested && m.current.Some? && m.ids[m.current.value] != m.next
    requires M.GetState(m.ids, m.next) == Some(k)
    ensures
      var o := M.EnterState(m.(requested := false, current := Some(k)), k);
      M.Transition(m) == Outcome(o.m, [Exit(m.current.value)] + o.calls)
  {
  }

  method MarkEntered(state: State, ghost states: seq<State>, ghost k: nat)
    requires k < |states| && states[k] == state && state !in states[..k]
    modifies state
    ensures Entered(states) == old(Entered(states))[k := true]
  {
    ghost var before := Entered(states);
    state.enteredOnce := true;
    forall j | 0 <= j < |states| ensures Entered(states)[j] == before[k := true][j] {
      assert k < j ==> states[..j][k] == state;
    }
  }

  class StateMachine {
    var states: seq<State>
    var currentState: State?
    var transitionRequested: bool
    var nextStateRequested: nat
    var started: bool
    const startStateId: nat
    /** The position of the current state, by which its calls are recorded. */
    var at: nat

    ghost predicate Valid()
      reads this
    {
      && |states| <= MAX_STATES
      && (currentState != null ==> started && at < |states| && states[at] == currentState)
    }

    ghost function Abs(): Machine
      reads this, states
    {
      Machine(Ids(states), Inits(states), startStateId, Entered(states),
              if currentState == null then None else Some(at), started, transitionRequested, nextStateRequested)
    }

    /** state_machine_create. */
    constructor (startStateId: nat)
      ensures Valid() && states == [] && Abs() == Machine([], [], startStateId, [], None, false, false, 0)
    {
      this.startStateId := startStateId;
      states, currentState := [], null;
      transitionRequested, nextStateRequested, started := false, 0, false;
    }

    /** state_machine_register_state: a twenty-first state is left out without a word; one may be registered again. */
    method RegisterState(state: State)
      requires Valid()
      modifies this`states
      ensures Valid() && states == if |old(states)| < MAX_STATES then old(states) + [state] else old(states)
    {
      if |states| < MAX_STATES {
        states := states + [state];
      }
    }

    /** state_machine_get_state. */
    method GetState(id: nat) returns (r: State?, k: nat)
      requires Valid()
      ensures r == null <==> M.GetState(Ids(states), id) == None
      ensures r != null ==> k < |states| && r == states[k] && M.GetState(Ids(states), id) == Some(k)
      ensures r != null ==> r !in states[..k]
    {
      r, k := null, 0;
      for i := 0 to |states|
        invariant id !in Ids(states)[..i]
      {
        if states[i].id == id {
          GetStateIs(Ids(states), id, i);
          FirstIsFirst(states, i);
          return states[i], i;
        }
      }
    }

    /** enter_state. */
    method CallEnter(state: State, k: nat) returns (calls: seq<Call>)
      requires Valid() && k < |states| && states[k] == state && state !in states[..k]
      modifies state
      ensures Valid()
      ensures var o := M.EnterState(old(Abs()), k); Abs() == o.m && calls == o.calls
    {
      calls := [];
      if !state.enteredOnce {
        MarkEntered(state, states, k);
        if state.hasInit {
          calls := [Init(k)];
        }
      } else {
        assert Entered(states)[k := true] == Entered(states);
      }
      calls := calls + [Enter(k)];
    }

    /** Makes `state` the current one and enters it. */
    method EnterState(state: State, k: nat) returns (calls: seq<Call>)
      requires Valid() && started && k < |states| && states[k] == state && state !in states[..k]
      modifies this`currentState, this`at, states
      ensures Valid()
      ensures var o := M.EnterState(old(Abs()).(current := Some(k)), k); Abs() == o.m && calls == o.calls
    {
      ghost var m := Abs();
      currentState, at := state, k;
      assert Abs() == m.(current := Some(k));
      calls := CallEnter(state, k);
    }

    /** state_machine_start. */
    method Start() returns (calls: seq<Call>)
      requires Valid() && M.CanStart(Abs())
      modifies this`currentState, this`at, this`started, states
      ensures Valid() && var o := M.Start(old(Abs())); Abs() == o.m && calls == o.calls
    {
      var initial, k := GetState(startStateId);
      started := true;
      assert Abs() == old(Abs()).(started := true);
      calls := EnterState(initial, k);
    }

    /** state_machine_stop. */
    method Stop() returns (calls: seq<Call>)
      requires Valid()
      modifies this`currentState, this`transitionRequested
      ensures Valid() && var o := M.Stop(old(Abs())); Abs() == o.m && calls == o.calls
    {
      calls := [];
      if currentState != null {
        calls := [Exit(at)];
        currentState := null;
        transitionRequested := false;
      }
    }

    /** state_machine_handle_event, with the answers of the current state's callbacks. */
    method HandleEvent(a: Answer) returns (calls: seq<Call>)
      requires Valid() && M.CanHandle(Abs())
      modifies this`nextStateRequested, this`transitionRequested
      ensures Valid() && var o := M.HandleEvent(old(Abs()), a); Abs() == o.m && calls == o.calls
    {
      calls := [];
      if started {
        calls := [Asked(at)];
        if a.valid {
          calls := calls + [Handled(at)];
          nextStateRequested := a.next;
          if nextStateRequested != currentState.id {
            transitionRequested := true;
          }
        }
      }
    }

    /** Leaves the current state and enters another. */
    method Move(next: State, k: nat) returns (calls: seq<Call>)
      requires Valid() && currentState != null && k < |states| && states[k] == next && next !in states[..k]
      modifies this`currentState, this`at, states
      ensures Valid()
      ensures
        var o := M.EnterState(old(Abs()).(current := Some(k)), k);
        Abs() == o.m && calls == [Exit(old(at))] + o.calls
    {
      calls := [Exit(at)];
      var entering := EnterState(next, k);
      calls := calls + entering;
    }

    /** The request is taken up. */
    method TakeUp() returns (calls: seq<Call>)
      requires Valid() && currentState != null && M.CanTransition(Abs()) && transitionRequested
      modifies this`currentState, this`at, this`transitionRequested, states
      ensures Valid() && var o := M.Transition(old(Abs())); Abs() == o.m && calls == o.calls
    {
      calls := [];
      ghost var m := Abs();
      transitionRequested := false;
      ghost var m' := Abs();
      assert m' == m.(requested := false);
      if currentState.id != nextStateRequested {
        var next, k := GetState(nextStateRequested);
        TransitionMoves(m, k);
        assert Abs() == m';
        assert m'.(current := Some(k)) == m.(requested := false, current := Some(k));
        calls := Move(next, k);
        assert Abs() == M.Transition(m).m;
      } else {
        assert M.Transition(m) == Outcome(m', []);
      }
    }

    /** state_machine_transition; the assertion that the requested state is registered is the precondition. */
    method Transition() returns (calls: seq<Call>)
      requires Valid() && M.CanTransition(Abs())
      modifies this`currentState, this`at, this`transitionRequested, states
      ensures Valid() && var o := M.Transition(old(Abs())); Abs() == o.m && calls == o.calls
    {
      calls := [];
      if transitionRequested && started {
        calls := TakeUp();
      }
    }
  }
}
