/** State machines whose states are client callbacks (src/state_machine.c). */
module StateMachines {
  import opened Basics

  const MAX_STATES: nat := 20

  // ---------------------------------------------------------------- values

  /** A call of one of the callbacks of the state at position `k`. */
  datatype Call = Init(k: nat) | Enter(k: nat) | Exit(k: nat) | Asked(k: nat) | Handled(k: nat)

  /** What the client's callbacks of the current state answer about an event. */
  datatype Answer = Answer(valid: bool, next: nat)

  datatype Machine = Machine(
    ids: seq<nat>, hasInit: seq<bool>, startId: nat,
    entered: seq<bool>, current: Option<nat>, started: bool, requested: bool, next: nat)

  datatype Outcome = Outcome(m: Machine, calls: seq<Call>)

  predicate WellFormed(m: Machine) {
    && |m.hasInit| == |m.ids| == |m.entered|
    && (m.current.Some? ==> m.started && m.current.value < |m.ids|)
  }

  /** state_machine_get_state: the first registered state with the id. */
  function GetState(ids: seq<nat>, id: nat): (r: Option<nat>)
    ensures r.Some? ==> r.value < |ids| && ids[r.value] == id && id !in ids[..r.value]
    ensures r.None? ==> id !in ids
  {
    if ids == [] then None
    else if ids[0] == id then Some(0)
    else
      match GetState(ids[1..], id)
      case None => None
      case Some(k) => Some(k + 1)
  }

  /** enter_state. */
  function EnterState(m: Machine, k: nat): Outcome
    requires WellFormed(m) && k < |m.ids|
  {
    Outcome(m.(entered := m.entered[k := true]),
            (if !m.entered[k] && m.hasInit[k] then [Init(k)] else []) + [Enter(k)])
  }

  predicate CanStart(m: Machine) {
    GetState(m.ids, m.startId).Some?
  }

  function Start(m: Machine): Outcome
    requires WellFormed(m) && CanStart(m)
  {
    var k := GetState(m.ids, m.startId).value;
    EnterState(m.(current := Some(k), started := true), k)
  }

  function Stop(m: Machine): Outcome {
    if m.current.Some? then Outcome(m.(current := None, requested := false), [Exit(m.current.value)])
    else Outcome(m, [])
  }

  /** A started machine follows its current state without looking whether it has one. */
  predicate CanHandle(m: Machine) {
    m.started ==> m.current.Some?
  }

  function HandleEvent(m: Machine, a: Answer): Outcome
    requires WellFormed(m) && CanHandle(m)
  {
    if !m.started then Outcome(m, [])
    else
      var k := m.current.value;
      if !a.valid then Outcome(m, [Asked(k)])
      else Outcome(m.(next := a.next, requested := m.requested || a.next != m.ids[k]), [Asked(k), Handled(k)])
  }

  predicate CanTransition(m: Machine) {
    m.requested && m.started ==> m.current.Some? && GetState(m.ids, m.next).Some?
  }

  function Transition(m: Machine): Outcome
    requires WellFormed(m) && CanTransition(m)
  {
    if !(m.requested && m.started) then Outcome(m, [])
    else
      var m1, k := m.(requested := false), m.current.value;
      if m.ids[k] == m.next then Outcome(m1, [])
      else
        var j := GetState(m.ids, m.next).value;
        var o := EnterState(m1.(current := Some(j)), j);
        Outcome(o.m, [Exit(k)] + o.calls)
  }

  /** The client asks for registered states only. */
  predicate Answers(m: Machine, a: Answer) {
    a.valid && m.started ==> a.next in m.ids
  }

  /** What one event does to a machine: handling and then the transition. */
  function React(m: Machine, a: Answer): Outcome
    requires WellFormed(m) && CanHandle(m) && Answers(m, a) && !m.requested
  {
    var h := HandleEvent(m, a);
    var t := Transition(h.m);
    Outcome(t.m, h.calls + t.calls)
  }

  /** Seen from outside, a running machine is the automaton that goes where its client says. */
  lemma ReactGoesToAnswer(m: Machine, a: Answer)
    requires WellFormed(m) && m.current.Some? && Answers(m, a) && !m.requested
    ensures
      var m' := React(m, a).m;
      && WellFormed(m') && m'.current.Some? && !m'.requested && m'.ids == m.ids && m'.hasInit == m.hasInit
      && m'.ids[m'.current.value] == if a.valid then a.next else m.ids[m.current.value]
  {
  }

  /** Entering the state at position `k`: f_init the first time if there is one, then f_enter. */
  predicate EntryOf(m: Machine, k: nat, calls: seq<Call>) {
    && k < |m.ids| == |m.entered| == |m.hasInit|
    && calls == if m.hasInit[k] && !m.entered[k] then [Init(k), Enter(k)] else [Enter(k)]
  }

  /** An event that comes to a running machine is asked about once, of its current state, and handled by it right then
      iff it is valid. If the handling asks for another state, the current one is left and the first one registered
      with that id entered; otherwise nothing else is called. */
  lemma EventIsHandled(m: Machine, a: Answer, k: nat) returns (j: nat, entry: seq<Call>)
    requires WellFormed(m) && m.current == Some(k) && Answers(m, a) && !m.requested
    ensures j < |m.ids| && React(m, a).m.current == Some(j)
    ensures React(m, a).calls ==
      if !a.valid then [Asked(k)]
      else if a.next == m.ids[k] then [Asked(k), Handled(k)]
      else [Asked(k), Handled(k), Exit(k)] + entry
    ensures a.valid && a.next != m.ids[k] ==>
      m.ids[j] == a.next && (forall i :: 0 <= i < j ==> m.ids[i] != a.next) && EntryOf(m, j, entry)
    ensures !a.valid || a.next == m.ids[k] ==> j == k
  {
    var h := HandleEvent(m, a);
    j, entry := k, [];
    if a.valid && a.next != m.ids[k] {
      j := GetState(m.ids, a.next).value;
      entry := Transition(h.m).calls[1..];
      assert forall i :: 0 <= i < j ==> m.ids[i] in m.ids[..j];
      assert [] + [Enter(j)] == [Enter(j)] && [Init(j)] + [Enter(j)] == [Init(j), Enter(j)];
    } else {
      assert h.calls + [] == h.calls;
    }
  }

  /** Events that come before the transition: each is asked about and, if it is valid, handled; the last one handled
      says where to go, and a request stays until it is taken up. */
  lemma EventsLatch(m: Machine, a: Answer, k: nat)
    requires WellFormed(m) && m.current == Some(k)
    ensures HandleEvent(m, a).calls == if a.valid then [Asked(k), Handled(k)] else [Asked(k)]
    ensures
      HandleEvent(m, a).m ==
      if a.valid then m.(next := a.next, requested := m.requested || a.next != m.ids[k]) else m
  {
  }

  /** A request is taken up once: to the first state registered with the id asked for last, unless that is the current
      one. */
  lemma TransitionIsMove(m: Machine, k: nat) returns (j: nat, entry: seq<Call>)
    requires WellFormed(m) && m.current == Some(k) && CanTransition(m)
    ensures j < |m.ids| && Transition(m).m.current == Some(j) && !Transition(m).m.requested
    ensures m.requested && m.next != m.ids[k] ==>
      && Transition(m).calls == [Exit(k)] + entry && EntryOf(m, j, entry)
      && m.ids[j] == m.next && forall i :: 0 <= i < j ==> m.ids[i] != m.next
    ensures !(m.requested && m.next != m.ids[k]) ==> j == k && Transition(m).calls == []
  {
    j, entry := k, [];
    if m.requested && m.next != m.ids[k] {
      j := GetState(m.ids, m.next).value;
      entry := Transition(m).calls[1..];
      assert forall i :: 0 <= i < j ==> m.ids[i] in m.ids[..j];
      assert [] + [Enter(j)] == [Enter(j)] && [Init(j)] + [Enter(j)] == [Init(j), Enter(j)];
    }
  }

  /** Starting enters the first state registered with the start id. */
  lemma StartIsEntry(m: Machine) returns (j: nat)
    requires WellFormed(m) && CanStart(m)
    ensures j < |m.ids| && m.ids[j] == m.startId && forall i :: 0 <= i < j ==> m.ids[i] != m.startId
    ensures Start(m).m.current == Some(j) && Start(m).m.started && EntryOf(m, j, Start(m).calls)
  {
    j := GetState(m.ids, m.startId).value;
    assert forall i :: 0 <= i < j ==> m.ids[i] in m.ids[..j];
    assert [] + [Enter(j)] == [Enter(j)];
  }

  /** Stopping leaves the current state, if there is one, and nothing else. */
  lemma StopIsExit(m: Machine)
    ensures Stop(m).calls == (if m.current.Some? then [Exit(m.current.value)] else []) && Stop(m).m.current.None?
    ensures Stop(m).m.started == m.started && (m.current.Some? ==> !Stop(m).m.requested)
  {
  }

  /** Stopping a running machine does not make it discard events: the next one would follow a null state. Events are
      discarded iff the machine has never been started. */
  lemma EventsAfterStop(m: Machine, a: Answer)
    requires WellFormed(m)
    ensures m.current.Some? ==> !CanHandle(Stop(m).m)
    ensures CanHandle(m) ==> (HandleEvent(m, a) == Outcome(m, []) <==> !m.started)
  {
  }

  // ---------------------------------------------------------------- the grammar of the calls

  /** The state that has been entered and not left. */
  function Open(trace: seq<Call>): Option<nat> {
    if trace == [] then None
    else
      match trace[|trace| - 1]
      case Enter(k) => Some(k)
      case Exit(_) => None
      case _ => Open(trace[..|trace| - 1])
  }

  predicate EndsInInit(trace: seq<Call>) {
    trace != [] && trace[|trace| - 1].Init?
  }

  /** `call` may follow `before`. */
  predicate MayFollow(hasInit: seq<bool>, before: seq<Call>, call: Call) {
    && call.k < |hasInit|
    && (EndsInInit(before) ==> call == Enter(before[|before| - 1].k))
    && match call
       case Init(k) => hasInit[k] && Open(before) == None && Enter(k) !in before
       case Enter(k) => Open(before) == None && (hasInit[k] && Enter(k) !in before ==> EndsInInit(before))
       case Exit(k) => Open(before) == Some(k)
       case Asked(k) => Open(before) == Some(k)
       case Handled(k) => Open(before) == Some(k) && before != [] && before[|before| - 1] == Asked(k)
  }

  predicate Grammar(hasInit: seq<bool>, trace: seq<Call>) {
    trace == [] ||
    (Grammar(hasInit, trace[..|trace| - 1]) && MayFollow(hasInit, trace[..|trace| - 1], trace[|trace| - 1]))
  }

  lemma {:induction false} GrammarAt(hasInit: seq<bool>, trace: seq<Call>, j: nat)
    requires Grammar(hasInit, trace) && j < |trace|
    ensures MayFollow(hasInit, trace[..j], trace[j])
    decreases |trace|
  {
    if j < |trace| - 1 {
      GrammarAt(hasInit, trace[..|trace| - 1], j);
      assert trace[..|trace| - 1][..j] == trace[..j];
    }
  }

  lemma {:induction false} OpenMeansEntered(trace: seq<Call>) returns (i: nat)
    requires Open(trace).Some?
    ensures i < |trace| && trace[i] == Enter(Open(trace).value)
    ensures forall j :: i < j < |trace| ==> !trace[j].Enter? && !trace[j].Exit?
    decreases |trace|
  {
    i := |trace| - 1;
    if !trace[i].Enter? {
      i := OpenMeansEntered(trace[..i]);
    }
  }

  /** What the grammar means: a state is left, asked and told about events only when it was the last one entered. */
  lemma GrammarBrackets(hasInit: seq<bool>, trace: seq<Call>, j: nat) returns (i: nat)
    requires Grammar(hasInit, trace) && j < |trace| && (trace[j].Exit? || trace[j].Asked? || trace[j].Handled?)
    ensures i < j && trace[i] == Enter(trace[j].k)
    ensures forall x :: i < x < j ==> !trace[x].Enter? && !trace[x].Exit?
  {
    GrammarAt(hasInit, trace, j);
    i := OpenMeansEntered(trace[..j]);
    assert forall x :: 0 <= x < j ==> trace[..j][x] == trace[x];
  }

  /** A state is entered only when the one before has been left. */
  lemma GrammarAlternates(hasInit: seq<bool>, trace: seq<Call>, i: nat, j: nat)
    requires Grammar(hasInit, trace) && i < j < |trace| && trace[i].Enter? && trace[j].Enter?
    ensures exists x :: i < x < j && trace[x].Exit?
  {
    GrammarAt(hasInit, trace, j);
    if forall x :: i < x < j ==> !trace[x].Exit? {
      OpenAfterEnter(trace[..j], i);
    }
  }

  lemma {:induction false} OpenAfterEnter(trace: seq<Call>, i: nat)
    requires i < |trace| && trace[i].Enter? && forall x :: i < x < |trace| ==> !trace[x].Exit?
    ensures Open(trace).Some?
    decreases |trace|
  {
    if i < |trace| - 1 {
      OpenAfterEnter(trace[..|trace| - 1], i);
    }
  }

  /** An f_init runs right before its state is entered for the first time, and always then. */
  lemma GrammarInits(hasInit: seq<bool>, trace: seq<Call>, j: nat)
    requires Grammar(hasInit, trace) && j < |trace|
    ensures trace[j].k < |hasInit|
    ensures trace[j].Enter? && hasInit[trace[j].k] && Enter(trace[j].k) !in trace[..j] ==>
      j > 0 && trace[j - 1] == Init(trace[j].k)
    ensures trace[j].Init? ==> hasInit[trace[j].k] && Enter(trace[j].k) !in trace[..j]
    ensures trace[j].Init? && j + 1 < |trace| ==> trace[j + 1] == Enter(trace[j].k)
  {
    GrammarAt(hasInit, trace, j);
    if j + 1 < |trace| {
      GrammarAt(hasInit, trace, j + 1);
    }
  }

  /** It runs once in the life of the state. */
  lemma GrammarInitsOnce(hasInit: seq<bool>, trace: seq<Call>, i: nat, j: nat)
    requires Grammar(hasInit, trace) && i < j < |trace| && trace[i].Init?
    ensures trace[j] != trace[i]
  {
    GrammarInits(hasInit, trace, i);
    GrammarInits(hasInit, trace, j);
    if i + 1 < j {
      assert trace[..j][i + 1] == trace[i + 1];
    }
  }

  /** The machine is where its calls have brought it. */
  ghost predicate Follows(m: Machine, trace: seq<Call>) {
    && WellFormed(m) && !m.requested
    && Grammar(m.hasInit, trace) && !EndsInInit(trace)
    && Open(trace) == m.current
    && forall k :: 0 <= k < |m.entered| ==> (m.entered[k] <==> Enter(k) in trace)
  }

  lemma GrammarSnoc(hasInit: seq<bool>, trace: seq<Call>, call: Call)
    requires Grammar(hasInit, trace) && MayFollow(hasInit, trace, call)
    ensures Grammar(hasInit, trace + [call])
    ensures Open(trace + [call]) == match call case Enter(k) => Some(k) case Exit(_) => None case _ => Open(trace)
    ensures EndsInInit(trace + [call]) <==> call.Init?
  {
    assert (trace + [call])[..|trace|] == trace;
  }

  lemma EnterIsRecorded(trace: seq<Call>, k: nat, calls: seq<Call>)
    requires calls == [] + [Enter(k)] || calls == [Init(k)] + [Enter(k)]
    ensures forall j :: Enter(j) in trace + calls <==> Enter(j) in trace || j == k
  {
    assert calls[|calls| - 1] == Enter(k);
    forall j ensures Enter(j) in trace + calls <==> Enter(j) in trace || j == k {
      assert Enter(j) in calls <==> j == k;
    }
  }

  lemma EnterFitsGrammar(hasInit: seq<bool>, trace: seq<Call>, k: nat, first: bool)
    requires Grammar(hasInit, trace) && !EndsInInit(trace) && Open(trace) == None && k < |hasInit|
    requires first <==> Enter(k) !in trace
    ensures
      var all := trace + ((if first && hasInit[k] then [Init(k)] else []) + [Enter(k)]);
      Grammar(hasInit, all) && Open(all) == Some(k) && !EndsInInit(all)
  {
    if first && hasInit[k] {
      GrammarSnoc(hasInit, trace, Init(k));
      GrammarSnoc(hasInit, trace + [Init(k)], Enter(k));
      Associates(trace, [Init(k)], [Enter(k)]);
    } else {
      GrammarSnoc(hasInit, trace, Enter(k));
      assert [] + [Enter(k)] == [Enter(k)];
    }
  }

  lemma EnterStateFollows(m: Machine, k: nat, trace: seq<Call>)
    requires Follows(m.(current := None), trace) && WellFormed(m) && m.current == Some(k)
    ensures Follows(EnterState(m, k).m, trace + EnterState(m, k).calls)
  {
    EnterIsRecorded(trace, k, EnterState(m, k).calls);
    EnterFitsGrammar(m.hasInit, trace, k, !m.entered[k]);
  }

  lemma StartFollows(m: Machine, trace: seq<Call>)
    requires Follows(m, trace) && m.current.None? && CanStart(m)
    ensures Follows(Start(m).m, trace + Start(m).calls) && Start(m).m.current.Some?
  {
    var k := GetState(m.ids, m.startId).value;
    EnterStateFollows(m.(current := Some(k), started := true), k, trace);
  }

  lemma StopFollows(m: Machine, trace: seq<Call>)
    requires Follows(m, trace)
    ensures Follows(Stop(m).m, trace + Stop(m).calls) && Stop(m).m.current.None?
  {
    if m.current.Some? {
      GrammarSnoc(m.hasInit, trace, Exit(m.current.value));
    } else {
      assert trace + [] == trace;
    }
  }

  lemma HandleFollows(m: Machine, a: Answer, trace: seq<Call>)
    requires Follows(m, trace) && CanHandle(m)
    ensures Follows(HandleEvent(m, a).m.(requested := false), trace + HandleEvent(m, a).calls)
  {
    if m.started {
      var k := m.current.value;
      GrammarSnoc(m.hasInit, trace, Asked(k));
      if a.valid {
        GrammarSnoc(m.hasInit, trace + [Asked(k)], Handled(k));
        assert trace + [Asked(k), Handled(k)] == trace + [Asked(k)] + [Handled(k)];
      }
    } else {
      assert trace + [] == trace;
    }
  }

  lemma TransitionFollows(m: Machine, trace: seq<Call>)
    requires Follows(m.(requested := false), trace) && CanTransition(m) && (m.requested ==> m.started)
    ensures Follows(Transition(m).m, trace + Transition(m).calls)
  {
    if m.requested && m.started && m.ids[m.current.value] != m.next {
      var m1, k, j := m.(requested := false), m.current.value, GetState(m.ids, m.next).value;
      GrammarSnoc(m.hasInit, trace, Exit(k));
      EnterStateFollows(m1.(current := Some(j)), j, trace + [Exit(k)]);
      var calls := EnterState(m1.(current := Some(j)), j).calls;
      assert trace + ([Exit(k)] + calls) == trace + [Exit(k)] + calls;
    } else {
      assert trace + [] == trace;
    }
  }

  /** An event keeps the calls in the grammar, and leaves no transition request behind. */
  lemma ReactFollows(m: Machine, a: Answer, trace: seq<Call>)
    requires Follows(m, trace) && CanHandle(m) && Answers(m, a)
    ensures Follows(React(m, a).m, trace + React(m, a).calls)
    ensures CanHandle(React(m, a).m)
  {
    var h := HandleEvent(m, a);
    HandleFollows(m, a, trace);
    TransitionFollows(h.m, trace + h.calls);
    var t := Transition(h.m);
    assert trace + (h.calls + t.calls) == trace + h.calls + t.calls;
  }
}
