/** Several state machines behind one event queue (src/state_event_loop.c). */
module EventLoops {
  import opened Basics
  import opened M = StateMachines

  /** What the loop does: a call of a machine's callback, or one of its own calls for an event. */
  datatype Entry = Prepared(event: nat) | At(i: nat, call: Call) | Notified(event: nat) | Released(event: nat)

  datatype Loop = Loop(ms: seq<Machine>, trace: seq<Entry>)

  datatype Command = StartAll | Event(event: nat, answers: seq<Answer>) | StopAll

  function CallsAt(i: nat, calls: seq<Call>): (r: seq<Entry>)
    ensures |r| == |calls| && forall x :: 0 <= x < |r| ==> r[x] == At(i, calls[x])
  {
    seq(|calls|, x requires 0 <= x < |calls| => At(i, calls[x]))
  }

  /** The calls of machine `i`. */
  function Of(trace: seq<Entry>, i: nat): seq<Call> {
    if trace == [] then []
    else
      var last := trace[|trace| - 1];
      Of(trace[..|trace| - 1], i) + if last.At? && last.i == i then [last.call] else []
  }

  /** The notification passes and releases. */
  function Passes(trace: seq<Entry>): seq<Entry> {
    if trace == [] then []
    else
      var last := trace[|trace| - 1];
      Passes(trace[..|trace| - 1]) + if last.Notified? || last.Released? then [last] else []
  }

  // ---------------------------------------------------------------- the loops over the machines

  predicate AllWellFormed(ms: seq<Machine>) {
    forall i :: 0 <= i < |ms| ==> WellFormed(ms[i])
  }

  /** Whether a client may issue the command: it does not start twice, no machine has been stopped when an event comes,
      and the states that are asked for are registered. */
  predicate Allowed(ms: seq<Machine>, c: Command) {
    match c
    case StartAll => forall i :: 0 <= i < |ms| ==> ms[i].current.None? && CanStart(ms[i])
    case Event(_, answers) => |answers| == |ms| && AllCanReact(ms, answers)
    case StopAll => true
  }

  predicate AllCanReact(ms: seq<Machine>, answers: seq<Answer>)
    requires |answers| == |ms|
  {
    forall i :: 0 <= i < |ms| ==> CanHandle(ms[i]) && Answers(ms[i], answers[i]) && !ms[i].requested
  }

  /** What the command does to machine `i`. */
  function One(ms: seq<Machine>, c: Command, i: nat): Outcome
    requires AllWellFormed(ms) && Allowed(ms, c) && i < |ms|
  {
    match c
    case StartAll => Start(ms[i])
    case Event(_, answers) => React(ms[i], answers[i])
    case StopAll => Stop(ms[i])
  }

  function Outcomes(ms: seq<Machine>, c: Command): (r: seq<Outcome>)
    requires AllWellFormed(ms) && Allowed(ms, c)
    ensures |r| == |ms| && forall i :: 0 <= i < |ms| ==> r[i] == One(ms, c, i)
  {
    seq(|ms|, i requires 0 <= i < |ms| => One(ms, c, i))
  }

  /** The first `n` machines have been served, in their order. */
  function Served(ms: seq<Machine>, os: seq<Outcome>, n: nat): (r: Loop)
    requires n <= |ms| == |os|
    ensures |r.ms| == |ms|
  {
    if n == 0 then Loop(ms, [])
    else
      var before := Served(ms, os, n - 1);
      Loop(before.ms[n - 1 := os[n - 1].m], before.trace + CallsAt(n - 1, os[n - 1].calls))
  }

  /** One command; an event goes to the optional first callback, the machines, the listeners and back to its pool. */
  function Step(preProc: bool, ms: seq<Machine>, c: Command): (r: Loop)
    requires AllWellFormed(ms) && Allowed(ms, c)
    ensures |r.ms| == |ms|
  {
    var served := Served(ms, Outcomes(ms, c), |ms|);
    if c.Event? then
      Loop(served.ms,
           (if preProc then [Prepared(c.event)] else []) + served.trace + [Notified(c.event), Released(c.event)])
    else served
  }

  // ---------------------------------------------------------------- what one command does

  lemma {:induction false} OfAppend(s: seq<Entry>, t: seq<Entry>, i: nat)
    ensures Of(s + t, i) == Of(s, i) + Of(t, i)
    decreases |t|
  {
    if t == [] {
      assert s + t == s;
    } else {
      OfAppend(s, t[..|t| - 1], i);
      assert (s + t)[..|s + t| - 1] == s + t[..|t| - 1];
    }
  }

  lemma {:induction false} PassesAppend(s: seq<Entry>, t: seq<Entry>)
    ensures Passes(s + t) == Passes(s) + Passes(t)
    decreases |t|
  {
    if t == [] {
      assert s + t == s;
    } else {
      PassesAppend(s, t[..|t| - 1]);
      assert (s + t)[..|s + t| - 1] == s + t[..|t| - 1];
    }
  }

  lemma {:induction false} OfCallsAt(i: nat, j: nat, calls: seq<Call>)
    ensures Of(CallsAt(i, calls), j) == if i == j then calls else []
    ensures Passes(CallsAt(i, calls)) == []
    decreases |calls|
  {
    if calls != [] {
      var before := calls[..|calls| - 1];
      OfCallsAt(i, j, before);
      assert CallsAt(i, calls)[..|calls| - 1] == CallsAt(i, before);
      assert calls == before + [calls[|calls| - 1]];
    }
  }

  lemma CallsAppended(before: seq<Entry>, i: nat, calls: seq<Call>, j: nat)
    ensures Of(before + CallsAt(i, calls), j) == Of(before, j) + if i == j then calls else []
    ensures Passes(before + CallsAt(i, calls)) == Passes(before)
  {
    OfAppend(before, CallsAt(i, calls), j);
    PassesAppend(before, CallsAt(i, calls));
    OfCallsAt(i, j, calls);
  }

  lemma {:induction false} ServedMachine(ms: seq<Machine>, os: seq<Outcome>, n: nat, j: nat)
    requires n <= |ms| == |os| && j < |ms|
    ensures Served(ms, os, n).ms[j] == if j < n then os[j].m else ms[j]
  {
    if n > 0 {
      ServedMachine(ms, os, n - 1, j);
    }
  }

  lemma {:induction false} ServedCalls(ms: seq<Machine>, os: seq<Outcome>, n: nat, j: nat)
    requires n <= |ms| == |os| && j < |ms|
    ensures Of(Served(ms, os, n).trace, j) == if j < n then os[j].calls else []
  {
    if n > 0 {
      ServedCalls(ms, os, n - 1, j);
      CallsAppended(Served(ms, os, n - 1).trace, n - 1, os[n - 1].calls, j);
    }
  }

  lemma {:induction false} ServedPasses(ms: seq<Machine>, os: seq<Outcome>, n: nat)
    requires n <= |ms| == |os|
    ensures Passes(Served(ms, os, n).trace) == []
  {
    if n > 0 {
      ServedPasses(ms, os, n - 1);
      CallsAppended(Served(ms, os, n - 1).trace, n - 1, os[n - 1].calls, 0);
    }
  }

  /** Every machine is served once. */
  lemma StepEach(preProc: bool, ms: seq<Machine>, c: Command, j: nat)
    requires AllWellFormed(ms) && Allowed(ms, c) && j < |ms|
    ensures
      var r := Step(preProc, ms, c);
      r.ms[j] == One(ms, c, j).m && Of(r.trace, j) == One(ms, c, j).calls
  {
    ServedMachine(ms, Outcomes(ms, c), |ms|, j);
    ServedCalls(ms, Outcomes(ms, c), |ms|, j);
    if c.Event? {
      Wrapped(preProc, Served(ms, Outcomes(ms, c), |ms|).trace, c.event, j);
    }
  }

  lemma Wrapped(preProc: bool, trace: seq<Entry>, e: nat, j: nat)
    ensures
      var all := (if preProc then [Prepared(e)] else []) + trace + [Notified(e), Released(e)];
      Of(all, j) == Of(trace, j) && Passes(all) == Passes(trace) + [Notified(e), Released(e)]
  {
    var pre, post := if preProc then [Prepared(e)] else [], [Notified(e), Released(e)];
    OfAppend(pre, trace, j);
    OfAppend(pre + trace, post, j);
    PassesAppend(pre, trace);
    PassesAppend(pre + trace, post);
    assert pre == [] || pre[..0] == [];
    assert post[..1] == [Notified(e)] && post[..1][..0] == [];
    assert Of(pre, j) == Of(post, j) == [] && Passes(pre) == [] && Passes(post) == post;
  }

  /** An event is passed to the listeners once and then released once. */
  lemma StepPasses(preProc: bool, ms: seq<Machine>, c: Command)
    requires AllWellFormed(ms) && Allowed(ms, c)
    ensures Passes(Step(preProc, ms, c).trace) == if c.Event? then [Notified(c.event), Released(c.event)] else []
  {
    ServedPasses(ms, Outcomes(ms, c), |ms|);
    if c.Event? {
      Wrapped(preProc, Served(ms, Outcomes(ms, c), |ms|).trace, c.event, 0);
    }
  }

  /** The machines of a trace in the order of their numbers, none after a notification. */
  predicate InOrder(trace: seq<Entry>, n: nat) {
    && (forall x :: 0 <= x < |trace| ==> trace[x].At? && trace[x].i < n)
    && (forall x, y :: 0 <= x < y < |trace| ==> trace[x].i <= trace[y].i)
  }

  lemma {:induction false} ServedInOrder(ms: seq<Machine>, os: seq<Outcome>, n: nat)
    requires n <= |ms| == |os|
    ensures InOrder(Served(ms, os, n).trace, n)
  {
    if n > 0 {
      ServedInOrder(ms, os, n - 1);
      var before := Served(ms, os, n - 1).trace;
      assert forall x :: 0 <= x < |before| ==> before[x].At? && before[x].i < n - 1;
    }
  }

  /** Machine i has handled an event and made its transition before machine i + 1 sees it, and all have before it is
      passed on and released. */
  lemma EventInOrder(preProc: bool, ms: seq<Machine>, event: nat, answers: seq<Answer>) returns (calls: seq<Entry>)
    requires AllWellFormed(ms) && Allowed(ms, Event(event, answers))
    ensures Step(preProc, ms, Event(event, answers)).trace ==
      (if preProc then [Prepared(event)] else []) + calls + [Notified(event), Released(event)]
    ensures InOrder(calls, |ms|)
    ensures forall i :: 0 <= i < |ms| ==> Of(calls, i) == React(ms[i], answers[i]).calls
  {
    var os := Outcomes(ms, Event(event, answers));
    ServedInOrder(ms, os, |ms|);
    calls := Served(ms, os, |ms|).trace;
    forall i | 0 <= i < |ms| ensures Of(calls, i) == React(ms[i], answers[i]).calls {
      ServedCalls(ms, os, |ms|, i);
    }
  }

  // ---------------------------------------------------------------- runs

  /** A run of commands; one that is not allowed is not issued. */
  function Run(preProc: bool, ms: seq<Machine>, commands: seq<Command>): (r: Loop)
    requires AllWellFormed(ms)
    ensures |r.ms| == |ms| && AllWellFormed(r.ms)
  {
    if commands == [] then Loop(ms, [])
    else
      var before, c := Run(preProc, ms, commands[..|commands| - 1]), commands[|commands| - 1];
      if !Allowed(before.ms, c) then before
      else
        StepWellFormed(preProc, before.ms, c);
        var s := Step(preProc, before.ms, c);
        Loop(s.ms, before.trace + s.trace)
  }

  lemma StepWellFormed(preProc: bool, ms: seq<Machine>, c: Command)
    requires AllWellFormed(ms) && Allowed(ms, c)
    ensures AllWellFormed(Step(preProc, ms, c).ms)
  {
    forall j | 0 <= j < |ms| ensures WellFormed(Step(preProc, ms, c).ms[j]) {
      StepEach(preProc, ms, c, j);
    }
  }

  /** A machine as state_machine_create and the registrations leave it. */
  predicate New(m: Machine) {
    && WellFormed(m) && m.current.None? && !m.started && !m.requested
    && forall k :: 0 <= k < |m.entered| ==> !m.entered[k]
  }

  lemma OneFollows(ms: seq<Machine>, c: Command, i: nat, trace: seq<Call>)
    requires AllWellFormed(ms) && Allowed(ms, c) && i < |ms| && Follows(ms[i], trace)
    ensures Follows(One(ms, c, i).m, trace + One(ms, c, i).calls)
  {
    match c
    case StartAll => StartFollows(ms[i], trace);
    case Event(_, answers) => ReactFollows(ms[i], answers[i], trace);
    case StopAll => StopFollows(ms[i], trace);
  }

  /** In every run of a loop, the calls of every machine follow the grammar, it is in the state they have entered, and
      no transition request is left over between events. */
  lemma {:induction false} RunFollows(preProc: bool, ms: seq<Machine>, commands: seq<Command>, i: nat)
    requires AllWellFormed(ms) && i < |ms| && New(ms[i])
    ensures var r := Run(preProc, ms, commands); Follows(r.ms[i], Of(r.trace, i))
    decreases |commands|
  {
    if commands != [] {
      var before, c := Run(preProc, ms, commands[..|commands| - 1]), commands[|commands| - 1];
      RunFollows(preProc, ms, commands[..|commands| - 1], i);
      if Allowed(before.ms, c) {
        StepEach(preProc, before.ms, c, i);
        OneFollows(before.ms, c, i, Of(before.trace, i));
        OfAppend(before.trace, Step(preProc, before.ms, c).trace, i);
      }
    }
  }

  /** What is asked and handled among the calls of one machine. */
  function Tells(calls: seq<Call>): seq<Call> {
    if calls == [] then []
    else
      var last := calls[|calls| - 1];
      Tells(calls[..|calls| - 1]) + if last.Asked? || last.Handled? then [last] else []
  }

  lemma {:induction false} TellsAppend(s: seq<Call>, t: seq<Call>)
    ensures Tells(s + t) == Tells(s) + Tells(t)
    decreases |t|
  {
    if t == [] {
      assert s + t == s;
    } else {
      TellsAppend(s, t[..|t| - 1]);
      assert (s + t)[..|s + t| - 1] == s + t[..|t| - 1];
    }
  }

  lemma {:induction false} NothingTold(calls: seq<Call>)
    requires forall x :: 0 <= x < |calls| ==> !calls[x].Asked? && !calls[x].Handled?
    ensures Tells(calls) == []
    decreases |calls|
  {
    if calls != [] {
      NothingTold(calls[..|calls| - 1]);
    }
  }

  /** What a command has to ask machine `i` and tell it: an event that finds it in state `k`, once, and once more if it
      is valid. */
  function Told(m: Machine, i: nat, c: Command): seq<Call> {
    if c.Event? && m.current.Some? && i < |c.answers| then
      var k := m.current.value;
      if c.answers[i].valid then [Asked(k), Handled(k)] else [Asked(k)]
    else []
  }

  lemma TellsOne(call: Call)
    ensures Tells([call]) == if call.Asked? || call.Handled? then [call] else []
  {
    assert [call][..0] == [];
  }

  lemma TellsFirst(told: seq<Call>, rest: seq<Call>, k: nat)
    requires told == [Asked(k)] || told == [Asked(k), Handled(k)]
    requires forall x :: 0 <= x < |rest| ==> !rest[x].Asked? && !rest[x].Handled?
    ensures Tells(told + rest) == told
  {
    hide Tells;
    TellsAppend(told, rest);
    NothingTold(rest);
    TellsOne(Asked(k));
    if told != [Asked(k)] {
      TellsOne(Handled(k));
      TellsAppend([Asked(k)], [Handled(k)]);
      assert [Asked(k)] + [Handled(k)] == told;
    }
    assert told + [] == told;
  }

  lemma EventTells(m: Machine, a: Answer, k: nat)
    requires WellFormed(m) && m.current == Some(k) && Answers(m, a) && !m.requested
    ensures Tells(React(m, a).calls) == if a.valid then [Asked(k), Handled(k)] else [Asked(k)]
  {
    var j, entry := EventIsHandled(m, a, k);
    var told := if a.valid then [Asked(k), Handled(k)] else [Asked(k)];
    var rest := if a.valid && a.next != m.ids[k] then [Exit(k)] + entry else [];
    assert React(m, a).calls == told + rest by {
      hide React;
      assert [Asked(k), Handled(k)] + ([Exit(k)] + entry) == [Asked(k), Handled(k), Exit(k)] + entry;
      assert told + [] == told;
    }
    hide React;
    TellsFirst(told, rest, k);
  }

  lemma OneTells(ms: seq<Machine>, c: Command, i: nat)
    requires AllWellFormed(ms) && Allowed(ms, c) && i < |ms|
    ensures Tells(One(ms, c, i).calls) == Told(ms[i], i, c)
  {
    match c
    case StartAll =>
      var _ := StartIsEntry(ms[i]);
      NothingTold(One(ms, c, i).calls);
    case Event(_, answers) =>
      if ms[i].current.Some? {
        hide React, Tells;
        EventTells(ms[i], answers[i], ms[i].current.value);
      } else {
        NothingTold(One(ms, c, i).calls);
      }
    case StopAll =>
      StopIsExit(ms[i]);
      NothingTold(One(ms, c, i).calls);
  }

  /** The same for a run. */
  function AllTold(preProc: bool, ms: seq<Machine>, commands: seq<Command>, i: nat): seq<Call>
    requires AllWellFormed(ms) && i < |ms|
  {
    if commands == [] then []
    else
      var earlier, c := commands[..|commands| - 1], commands[|commands| - 1];
      var before := Run(preProc, ms, earlier).ms;
      AllTold(preProc, ms, earlier, i) + if Allowed(before, c) then Told(before[i], i, c) else []
  }

  /** In every run each event issued is asked about once of each machine that was running when it came, of the state it
      was in, and handled by it once iff it was valid, in the order of the events. */
  lemma {:induction false} RunTellsEachOnce(preProc: bool, ms: seq<Machine>, commands: seq<Command>, i: nat)
    requires AllWellFormed(ms) && i < |ms|
    ensures Tells(Of(Run(preProc, ms, commands).trace, i)) == AllTold(preProc, ms, commands, i)
    decreases |commands|
  {
    if commands != [] {
      var earlier, c := commands[..|commands| - 1], commands[|commands| - 1];
      RunTellsEachOnce(preProc, ms, earlier, i);
      var before := Run(preProc, ms, earlier);
      if Allowed(before.ms, c) {
        StepEach(preProc, before.ms, c, i);
        OneTells(before.ms, c, i);
        OfAppend(before.trace, Step(preProc, before.ms, c).trace, i);
        TellsAppend(Of(before.trace, i), One(before.ms, c, i).calls);
      }
    }
  }

  /** The passes that a run has to make: every event issued, once to the listeners and once to its pool. */
  function Issued(preProc: bool, ms: seq<Machine>, commands: seq<Command>): seq<nat>
    requires AllWellFormed(ms)
  {
    if commands == [] then []
    else
      var before, c := commands[..|commands| - 1], commands[|commands| - 1];
      Issued(preProc, ms, before) +
        if c.Event? && Allowed(Run(preProc, ms, before).ms, c) then [c.event] else []
  }

  function PassesOf(events: seq<nat>): seq<Entry> {
    if events == [] then []
    else PassesOf(events[..|events| - 1]) + [Notified(events[|events| - 1]), Released(events[|events| - 1])]
  }

  lemma {:induction false} RunPasses(preProc: bool, ms: seq<Machine>, commands: seq<Command>)
    requires AllWellFormed(ms)
    ensures Passes(Run(preProc, ms, commands).trace) == PassesOf(Issued(preProc, ms, commands))
    decreases |commands|
  {
    if commands != [] {
      var earlier, c := commands[..|commands| - 1], commands[|commands| - 1];
      RunPasses(preProc, ms, earlier);
      var before := Run(preProc, ms, earlier);
      if Allowed(before.ms, c) {
        PassesOfStep(preProc, before, c, Issued(preProc, ms, earlier));
      } else {
        assert Issued(preProc, ms, earlier) + [] == Issued(preProc, ms, earlier);
      }
    }
  }

  lemma PassesOfStep(preProc: bool, before: Loop, c: Command, issued: seq<nat>)
    requires AllWellFormed(before.ms) && Allowed(before.ms, c) && Passes(before.trace) == PassesOf(issued)
    ensures Passes(before.trace + Step(preProc, before.ms, c).trace) ==
      PassesOf(issued + if c.Event? then [c.event] else [])
  {
    StepPasses(preProc, before.ms, c);
    PassesAppend(before.trace, Step(preProc, before.ms, c).trace);
    if c.Event? {
      assert (issued + [c.event])[..|issued|] == issued;
    } else {
      assert issued + [] == issued;
    }
  }

  /** Where the answers of its client take machine `i`: from the start state to the last state asked for. */
  function Expected(m: Machine, i: nat, c: Command, id: Option<nat>): Option<nat> {
    match c
    case StartAll => Some(m.startId)
    case Event(_, answers) =>
      if id.Some? && i < |answers| && answers[i].valid then Some(answers[i].next) else id
    case StopAll => None
  }

  function CurrentId(m: Machine): Option<nat>
    requires WellFormed(m)
  {
    if m.current.Some? then Some(m.ids[m.current.value]) else None
  }

  /** Every command takes every machine where the client's answers say. */
  lemma StepGoesToAnswer(preProc: bool, ms: seq<Machine>, c: Command, i: nat)
    requires AllWellFormed(ms) && Allowed(ms, c) && i < |ms|
    ensures WellFormed(Step(preProc, ms, c).ms[i])
    ensures CurrentId(Step(preProc, ms, c).ms[i]) == Expected(ms[i], i, c, CurrentId(ms[i]))
  {
    StepEach(preProc, ms, c, i);
    if c.Event? && ms[i].current.Some? {
      ReactGoesToAnswer(ms[i], c.answers[i]);
    }
  }
}
