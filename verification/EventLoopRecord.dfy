/** The event loop's own loops over its machines (src/state_event_loop.c). */
module EventLoopRecords {
  import opened Basics
  import opened M = StateMachines
  import opened StateMachineRecords
  import opened L = EventLoops

  /** What a round does to the machine whose turn it is. */
  method ServeMachine(m: StateMachine, i: nat, c: Command, ghost ms: seq<Machine>) returns (calls: seq<Call>)
    requires AllWellFormed(ms) && Allowed(ms, c) && i < |ms| && m.Valid() && m.Abs() == ms[i]
    modifies m, m.states
    ensures m.Valid() && m.states == old(m.states)
    ensures var o := One(ms, c, i); m.Abs() == o.m && calls == o.calls
  {
    match c
    case StartAll => calls := m.Start();
    case StopAll => calls := m.Stop();
    case Event(_, answers) =>
      calls := m.HandleEvent(answers[i]);
      var more := m.Transition();
      calls := calls + more;
  }

  lemma NoneServed(ms: seq<Machine>, os: seq<Outcome>)
    requires |ms| == |os|
    ensures Served(ms, os, 0) == Loop(ms, [])
  {
  }

  /** The machine whose turn it is has not been touched, and its round is what it adds. */
  lemma ServedNext(ms: seq<Machine>, c: Command, i: nat)
    requires AllWellFormed(ms) && Allowed(ms, c) && i < |ms|
    ensures
      var os := Outcomes(ms, c);
      var before, o := Served(ms, os, i), One(ms, c, i);
      before.ms[i] == ms[i] && Served(ms, os, i + 1) == Loop(before.ms[i := o.m], before.trace + CallsAt(i, o.calls))
  {
    ServedMachine(ms, Outcomes(ms, c), i, i);
  }

  twostate lemma NotServed(m: StateMachine)
    requires old(m.Valid()) && unchanged(m) && unchanged(m.states)
    ensures m.Valid() && m.Abs() == old(m.Abs())
  {
  }

  class EventLoop {
    const machines: seq<StateMachine>
    /** Whether a first callback for every event is installed. */
    const preProc: bool

    ghost function Footprint(): (r: set<object>)
      reads machines
      ensures forall i :: 0 <= i < |machines| ==> machines[i] in r
      ensures forall i, s :: 0 <= i < |machines| && s in machines[i].states ==> s in r
    {
      (set m | m in machines) + (set m, s | m in machines && s in m.states :: s)
    }

    /** Machines are distinct, and no state is registered with two of them. */
    ghost predicate Valid()
      reads Footprint()
    {
      && (forall i :: 0 <= i < |machines| ==> machines[i].Valid())
      && (forall i, j :: 0 <= i < j < |machines| ==> machines[i] != machines[j])
      && (forall i, j, s :: 0 <= i < j < |machines| && s in machines[i].states ==> s !in machines[j].states)
    }

    ghost predicate Has(ms: seq<Machine>)
      reads Footprint()
    {
      |ms| == |machines| && forall i :: 0 <= i < |machines| ==> machines[i].Abs() == ms[i]
    }

    constructor (machines: seq<StateMachine>, preProc: bool)
      ensures this.machines == machines && this.preProc == preProc
    {
      this.machines, this.preProc := machines, preProc;
    }

    /** One round touches no other machine. */
    method ServeApart(i: nat, c: Command, ghost ms: seq<Machine>) returns (calls: seq<Call>)
      requires Valid() && AllWellFormed(ms) && Allowed(ms, c)
      requires i < |machines| == |ms| && machines[i].Abs() == ms[i]
      modifies machines[i], machines[i].states
      ensures forall j :: 0 <= j < |machines| ==> machines[j].Valid() && machines[j].states == old(machines[j].states)
      ensures forall j :: 0 <= j < |machines| && j != i ==> machines[j].Abs() == old(machines[j].Abs())
      ensures var o := One(ms, c, i); machines[i].Abs() == o.m && calls == o.calls
    {
      hide One, AllWellFormed, Allowed, Entered, Ids, Inits;
      forall j | 0 <= j < |machines| && j != i
        ensures forall k :: 0 <= k < |machines[j].states| ==> machines[j].states[k] !in machines[i].states
      {
        assert forall k :: 0 <= k < |machines[j].states| ==> machines[j].states[k] in machines[j].states;
      }
      calls := ServeMachine(machines[i], i, c, ms);
      forall j | 0 <= j < |machines| && j != i
        ensures machines[j].Valid() && machines[j].Abs() == old(machines[j].Abs())
      {
        NotServed(machines[j]);
      }
    }

    /** One round of a loop over the machines. */
    method Serve(i: nat, c: Command, ghost ms: seq<Machine>, ghost now: seq<Machine>) returns (calls: seq<Call>)
      requires Valid() && Has(now) && AllWellFormed(ms) && Allowed(ms, c)
      requires i < |machines| == |ms| && now[i] == ms[i]
      modifies Footprint()
      ensures Valid() && Footprint() == old(Footprint())
      ensures var o := One(ms, c, i); Has(now[i := o.m]) && calls == o.calls
    {
      calls := ServeApart(i, c, ms);
    }

    method ForEachMachine(c: Command, ghost ms: seq<Machine>) returns (trace: seq<Entry>)
      requires Valid() && Has(ms) && AllWellFormed(ms) && Allowed(ms, c)
      modifies Footprint()
      ensures Valid() && var r := Served(ms, Outcomes(ms, c), |ms|); Has(r.ms) && trace == r.trace
    {
      assert |ms| == |machines|;
      hide Valid, Has, Footprint, Served, Outcomes, One, CallsAt;
      trace := [];
      ghost var os := Outcomes(ms, c);
      NoneServed(ms, os);
      for i := 0 to |machines|
        invariant Valid() && Footprint() == old(Footprint())
        invariant Has(Served(ms, os, i).ms) && trace == Served(ms, os, i).trace
      {
        ServedNext(ms, c, i);
        var calls := Serve(i, c, ms, Served(ms, os, i).ms);
        trace := trace + CallsAt(i, calls);
      }
    }

    /** state_event_loop_start. */
    method Start(ghost ms: seq<Machine>) returns (trace: seq<Entry>)
      requires Valid() && Has(ms) && AllWellFormed(ms) && Allowed(ms, StartAll)
      modifies Footprint()
      ensures Valid() && var r := Step(preProc, ms, StartAll); Has(r.ms) && trace == r.trace
    {
      trace := ForEachMachine(StartAll, ms);
    }

    /** state_event_loop_stop. */
    method Stop(ghost ms: seq<Machine>) returns (trace: seq<Entry>)
      requires Valid() && Has(ms) && AllWellFormed(ms)
      modifies Footprint()
      ensures Valid() && var r := Step(preProc, ms, StopAll); Has(r.ms) && trace == r.trace
    {
      trace := ForEachMachine(StopAll, ms);
    }

    /** state_event_loop_exec_queue_f. */
    method Exec(event: nat, answers: seq<Answer>, ghost ms: seq<Machine>) returns (trace: seq<Entry>)
      requires Valid() && Has(ms) && AllWellFormed(ms) && Allowed(ms, Event(event, answers))
      modifies Footprint()
      ensures Valid() && var r := Step(preProc, ms, Event(event, answers)); Has(r.ms) && trace == r.trace
    {
      trace := [];
      if preProc {
        trace := [Prepared(event)];
      }
      ghost var pre := trace;
      var calls := ForEachMachine(Event(event, answers), ms);
      trace := trace + calls + [Notified(event)];
      trace := trace + [Released(event)];
      assert trace == pre + calls + [Notified(event), Released(event)];
    }
  }
}
