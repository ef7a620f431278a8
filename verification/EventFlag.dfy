/**
 * Event flags (inc/cutils/pthread/event_flag.h).
 *
 * As for the queue, every access is a section that holds the mutex, and an interleaving of any number of threads is a
 * sequence of sections.  A word of flags is the set of the bits that are set in it.
 */
module EventFlags {
  import opened Basics

  type Flags = set<nat>

  datatype WaitType = WaitOr | WaitAnd | WaitOrClear | WaitAndClear

  predicate Clears(t: WaitType) {
    t == WaitOrClear || t == WaitAndClear
  }

  /** One section: sending, clearing, or one check by a waiting thread, be it the first or after waking up. */
  datatype Section = Send(bits: Flags) | Clear(bits: Flags) | Check(required: Flags, wait: WaitType)

  /** Whether a check succeeds on the flags `val`. */
  predicate Passes(val: Flags, required: Flags, t: WaitType) {
    if t == WaitOr || t == WaitOrClear then val * required != {} else required <= val
  }

  function Apply(val: Flags, s: Section): Flags {
    match s
    case Send(bits) => val + bits
    case Clear(bits) => val - bits
    case Check(required, t) => if Passes(val, required, t) && Clears(t) then val - required else val
  }

  function After(val: Flags, run: seq<Section>): Flags {
    if run == [] then val else Apply(After(val, run[..|run| - 1]), run[|run| - 1])
  }

  // ---------------------------------------------------------------- single flags

  /** The section is a successful check that takes flag `k` away. */
  predicate Consumes(val: Flags, s: Section, k: nat) {
    s.Check? && Clears(s.wait) && Passes(val, s.required, s.wait) && k in val && k in s.required
  }

  function One(b: bool): nat {
    if b then 1 else 0
  }

  /** Sends of flag `k` in a run. */
  function Sends(run: seq<Section>, k: nat): nat {
    if run == [] then 0
    else
      var last := run[|run| - 1];
      Sends(run[..|run| - 1], k) + One(last.Send? && k in last.bits)
  }

  /** Successful waits that took flag `k`. */
  function Consumed(val: Flags, run: seq<Section>, k: nat): nat {
    if run == [] then 0
    else
      var before := run[..|run| - 1];
      Consumed(val, before, k) + One(Consumes(After(val, before), run[|run| - 1], k))
  }

  /** Sends of flag `k` while it was set, and clearings of it while it was set. */
  function Lost(val: Flags, run: seq<Section>, k: nat): nat {
    if run == [] then 0
    else
      var before, last := run[..|run| - 1], run[|run| - 1];
      Lost(val, before, k) + One(!last.Check? && k in last.bits && k in After(val, before))
  }

  /** Every send of a flag is consumed by one wait, is still there, or was lost: merged with one that was still there,
      or cleared. */
  lemma {:induction false} SendsAreAccountedFor(run: seq<Section>, k: nat)
    ensures Sends(run, k) == Consumed({}, run, k) + One(k in After({}, run)) + Lost({}, run, k)
    decreases |run|
  {
    if run != [] {
      var before, last := run[..|run| - 1], run[|run| - 1];
      SendsAreAccountedFor(before, k);
    }
  }

  /** Hence waits never take more than was sent. */
  lemma NeverMoreThanSent(run: seq<Section>, k: nat)
    ensures Consumed({}, run, k) + One(k in After({}, run)) <= Sends(run, k)
  {
    SendsAreAccountedFor(run, k);
  }

  /** Two waits that take the same flag have a send of it between them. */
  lemma {:induction false} SentBetween(val: Flags, run: seq<Section>, i: nat, j: nat, k: nat)
    requires i < j <= |run|
    requires Consumes(After(val, run[..i]), run[i], k) && k in After(val, run[..j])
    ensures exists x :: i < x < j && run[x].Send? && k in run[x].bits
    decreases j
  {
    assert run[..j][..j - 1] == run[..j - 1];
    if j - 1 > i && !(run[j - 1].Send? && k in run[j - 1].bits) {
      SentBetween(val, run, i, j - 1, k);
    }
  }

  // ---------------------------------------------------------------- whole waits

  /** How waiting on the condition variable ends: woken up, or with ETIMEDOUT, EINVAL, EPERM or another error. */
  datatype WakeUp = Woken | TimedOut | Invalid | NotPermitted | OtherError

  /** The three errors that make the call return false; after any other error it returns true without another check. */
  predicate Fails(w: WakeUp) {
    w.TimedOut? || w.Invalid? || w.NotPermitted?
  }

  /** What happens while a waiting thread has let go of the mutex. */
  datatype Pause = Pause(others: seq<Section>, wakeUp: WakeUp)

  datatype Progress = Waiting | Returned(ok: bool)

  /** `checked` is the value of the flags at the last check. */
  datatype WaitState = WaitState(val: Flags, checked: Flags, progress: Progress)

  /** A call of event_flag_wait that has the mutex, through the pauses it makes. */
  function WaitRun(val: Flags, required: Flags, t: WaitType, pauses: seq<Pause>): WaitState
    decreases |pauses|
  {
    if Passes(val, required, t) then WaitState(Apply(val, Check(required, t)), val, Returned(true))
    else if pauses == [] then WaitState(val, val, Waiting)
    else
      var now := After(val, pauses[0].others);
      if pauses[0].wakeUp == Woken then WaitRun(now, required, t, pauses[1..])
      else WaitState(now, val, Returned(!Fails(pauses[0].wakeUp)))
  }

  /** How the last pause that the call makes ends; Woken also if it makes none. */
  function LastWake(val: Flags, required: Flags, t: WaitType, pauses: seq<Pause>): WakeUp
    decreases |pauses|
  {
    if Passes(val, required, t) || pauses == [] then Woken
    else if pauses[0].wakeUp != Woken then pauses[0].wakeUp
    else LastWake(After(val, pauses[0].others), required, t, pauses[1..])
  }

  /** The sections of others during the pauses that the call makes. */
  function Others(val: Flags, required: Flags, t: WaitType, pauses: seq<Pause>): seq<Section>
    decreases |pauses|
  {
    if Passes(val, required, t) || pauses == [] then []
    else if pauses[0].wakeUp != Woken then pauses[0].others
    else pauses[0].others + Others(After(val, pauses[0].others), required, t, pauses[1..])
  }

  lemma {:induction false} AfterAppend(val: Flags, s: seq<Section>, r: seq<Section>)
    ensures After(val, s + r) == After(After(val, s), r)
    decreases |r|
  {
    if r == [] {
      assert s + r == s;
    } else {
      AfterAppend(val, s, r[..|r| - 1]);
      assert (s + r)[..|s + r| - 1] == s + r[..|r| - 1];
    }
  }

  /** What one check does, flag by flag: the AND types ask for all of their flags and the OR types for one, and a check
      that succeeds takes away the flags asked for if its type says so. */
  lemma CheckTakes(val: Flags, required: Flags, t: WaitType)
    ensures t.WaitAnd? || t.WaitAndClear? ==> (Passes(val, required, t) <==> forall k :: k in required ==> k in val)
    ensures t.WaitOr? || t.WaitOrClear? ==> (Passes(val, required, t) <==> exists k :: k in required && k in val)
    ensures forall k :: k in Apply(val, Check(required, t)) <==>
      k in val && !(Passes(val, required, t) && (t.WaitAndClear? || t.WaitOrClear?) && k in required)
  {
    assert forall k :: k in required && k in val <==> k in val * required;
  }

  /** A wait that returns true held its flags at one instant, all of them for the AND types and one of them for the OR
      types, and then took away what it asked for if its type says so, exactly if its last pause did not end with
      another error.  Any other wait changes nothing. */
  lemma WaitHeldItsFlags(val: Flags, required: Flags, t: WaitType, pauses: seq<Pause>)
    ensures
      var w, now := WaitRun(val, required, t, pauses), After(val, Others(val, required, t, pauses));
      var held := w.progress == Returned(true) && LastWake(val, required, t, pauses) != OtherError;
      && (LastWake(val, required, t, pauses) == OtherError ==> w.progress == Returned(true))
      && (w.progress == Returned(false) <==> LastWake(val, required, t, pauses) in {TimedOut, Invalid, NotPermitted})
      && (w.progress == Waiting <==> !held && LastWake(val, required, t, pauses) == Woken)
      && (t.WaitAnd? || t.WaitAndClear? ==> (held <==> forall k :: k in required ==> k in w.checked))
      && (t.WaitOr? || t.WaitOrClear? ==> (held <==> exists k :: k in required && k in w.checked))
      && (held || w.progress == Waiting ==> w.checked == now)
      && forall k :: k in w.val <==> k in now && !(held && (t.WaitAndClear? || t.WaitOrClear?) && k in required)
  {
    WaitRunIs(val, required, t, pauses);
    var w, now := WaitRun(val, required, t, pauses), After(val, Others(val, required, t, pauses));
    CheckTakes(w.checked, required, t);
    CheckTakes(now, required, t);
  }

  lemma {:induction false} WaitRunIs(val: Flags, required: Flags, t: WaitType, pauses: seq<Pause>)
    ensures
      var w, now := WaitRun(val, required, t, pauses), After(val, Others(val, required, t, pauses));
      var byError := LastWake(val, required, t, pauses) == OtherError;
      && (byError ==> w.progress == Returned(true))
      && (w.progress == Returned(false) <==> Fails(LastWake(val, required, t, pauses)))
      && (Passes(w.checked, required, t) <==> w.progress == Returned(true) && !byError)
      && if w.progress == Returned(true) && !byError then
           w.checked == now && w.val == Apply(now, Check(required, t))
         else
           w.val == now && (w.progress == Waiting ==> w.checked == now)
    decreases |pauses|
  {
    if !Passes(val, required, t) && pauses != [] && pauses[0].wakeUp == Woken {
      var now := After(val, pauses[0].others);
      WaitRunIs(now, required, t, pauses[1..]);
      AfterAppend(val, pauses[0].others, Others(now, required, t, pauses[1..]));
    }
  }

  /** Such a wait: it returns true although its flag is never set. */
  lemma ErrorIsTakenForSuccess()
    ensures LastWake({}, {0}, WaitAnd, [Pause([], OtherError)]) == OtherError
    ensures WaitRun({}, {0}, WaitAnd, [Pause([], OtherError)]) == WaitState({}, {}, Returned(true))
  {
  }

  /** The flags after the first `i` pauses, if none of the checks before takes any. */
  function ValueAt(val: Flags, pauses: seq<Pause>, i: nat): Flags
    requires i <= |pauses|
  {
    if i == 0 then val else After(ValueAt(val, pauses, i - 1), pauses[i - 1].others)
  }

  lemma {:induction false} ValueBehind(val: Flags, pauses: seq<Pause>, i: nat)
    requires 0 < i <= |pauses|
    ensures ValueAt(val, pauses, i) == ValueAt(After(val, pauses[0].others), pauses[1..], i - 1)
  {
    if i > 1 {
      ValueBehind(val, pauses, i - 1);
    }
  }

  /** A call makes `n` pauses, checking before each of them that its flags are not there, and all but the last end with
      a plain wake-up.  It ends true when they are there; otherwise the last pause decides. */
  lemma {:induction false} WaitChecksEachTime(val: Flags, required: Flags, t: WaitType, pauses: seq<Pause>)
      returns (n: nat)
    ensures n <= |pauses|
    ensures forall i :: 0 <= i < n ==> !Passes(ValueAt(val, pauses, i), required, t)
    ensures forall i :: 0 <= i < n - 1 ==> pauses[i].wakeUp == Woken
    ensures
      var progress := WaitRun(val, required, t, pauses).progress;
      if n > 0 && pauses[n - 1].wakeUp != Woken then progress == Returned(pauses[n - 1].wakeUp == OtherError)
      else if Passes(ValueAt(val, pauses, n), required, t) then progress == Returned(true)
      else progress == Waiting && n == |pauses|
    decreases |pauses|
  {
    if Passes(val, required, t) || pauses == [] {
      n := 0;
    } else {
      var now := After(val, pauses[0].others);
      n := 1;
      if pauses[0].wakeUp == Woken {
        var rest := WaitChecksEachTime(now, required, t, pauses[1..]);
        n := rest + 1;
      }
      forall i | 0 < i <= n ensures ValueAt(val, pauses, i) == ValueAt(now, pauses[1..], i - 1) {
        ValueBehind(val, pauses, i);
      }
    }
  }

  // ---------------------------------------------------------------- the object

  class EventFlag {
    var val: Flags

    /** event_flag_new. */
    constructor ()
      ensures val == {}
    {
      val := {};
    }

    /** check_flags. */
    method CheckFlags(required: Flags, t: WaitType) returns (ok: bool, actual: Option<Flags>)
      modifies this
      ensures t.WaitAnd? || t.WaitAndClear? ==> (ok <==> forall k :: k in required ==> k in old(val))
      ensures t.WaitOr? || t.WaitOrClear? ==> (ok <==> exists k :: k in required && k in old(val))
      ensures forall k ::
        k in val <==> k in old(val) && !(ok && (t.WaitAndClear? || t.WaitOrClear?) && k in required)
      ensures actual == if ok then Some(old(val) * required) else None
      ensures val == Apply(old(val), Check(required, t)) && ok == Passes(old(val), required, t)
    {
      CheckTakes(val, required, t);
      ok, actual := false, None;
      var act := val * required;
      if t == WaitOr || t == WaitOrClear {
        if act != {} {
          actual := Some(act);
          ok := true;
        }
      } else if act == required {
        actual := Some(act);
        ok := true;
      }
      if ok && (t == WaitAndClear || t == WaitOrClear) {
        val := val - act;
      }
    }

    /** The section of event_flag_send. */
    method SendBits(bits: Flags)
      modifies this
      ensures forall k :: k in val <==> k in old(val) || k in bits
      ensures val == Apply(old(val), Send(bits))
    {
      val := val + bits;
    }

    /** The section of event_flag_clear. */
    method ClearBits(bits: Flags)
      modifies this
      ensures forall k :: k in val <==> k in old(val) && k !in bits
      ensures val == Apply(old(val), Clear(bits))
    {
      val := val - bits;
    }

    /** Sections of other threads. */
    method RunOthers(others: seq<Section>)
      modifies this
      ensures val == After(old(val), others)
    {
      for i := 0 to |others|
        invariant val == After(old(val), others[..i])
      {
        assert others[..i + 1][..i] == others[..i];
        match others[i]
        case Send(bits) => SendBits(bits);
        case Clear(bits) => ClearBits(bits);
        case Check(required, t) => var _, _ := CheckFlags(required, t);
      }
      assert others[..|others|] == others;
    }

    /** event_flag_wait, once it has the mutex; `actual` is what the last check has found, if it succeeded. */
    method Wait(required: Flags, t: WaitType, pauses: seq<Pause>) returns (progress: Progress, actual: Option<Flags>)
      modifies this
      ensures
        var w := WaitRun(old(val), required, t, pauses);
        && val == w.val && progress == w.progress
        && actual ==
             if progress == Returned(true) && LastWake(old(val), required, t, pauses) != OtherError
             then Some(w.checked * required) else None
    {
      var ok;
      var i := 0;
      ok, actual := CheckFlags(required, t);
      ghost var at := old(val);
      while !ok
        invariant i <= |pauses|
        invariant WaitRun(at, required, t, pauses[i..]) == WaitRun(old(val), required, t, pauses)
        invariant LastWake(at, required, t, pauses[i..]) == LastWake(old(val), required, t, pauses)
        invariant ok == Passes(at, required, t) && val == Apply(at, Check(required, t))
        invariant actual == if ok then Some(at * required) else None
        decreases |pauses| - i, !ok
      {
        if i == |pauses| {
          return Waiting, None;
        }
        RunOthers(pauses[i].others);
        if Fails(pauses[i].wakeUp) {
          return Returned(false), None;
        }
        if pauses[i].wakeUp != Woken {
          break;
        }
        i := i + 1;
        at := val;
        ok, actual := CheckFlags(required, t);
      }
      progress := Returned(true);
    }
  }
}
