/**
 * Writer and reader of one ring buffer, without locks: the reader peeks, copies and then clears.  A step is one load of
 * the other side's offset, the copying of one byte, or the publication of an offset.
 */
module RingProtocol {
  import opened Basics
  import opened Arithmetic

  /** ring_buffer_write_data: not full when first looked at; copying `src`, of which positions in `done` are copied. */
  datatype Writer = Resting | Sizing(src: seq<Byte>) | Copying(src: seq<Byte>, done: set<nat>)

  /** ring_buffer_get_data (peek), copy_ring_data_to_buffer, ring_buffer_clear_data. */
  datatype Reader =
    | Waiting
    | Ranged(length: nat, avail: nat)
    | Fetching(n: nat, got: map<nat, Byte>)

  datatype State = State(
    memory: seq<Byte>, read: nat, write: nat, writer: Writer, reader: Reader,
    base: nat,                // both offsets at the start
    accepted: seq<Byte>,      // bytes of completed writes
    obtained: seq<Byte>)      // bytes copied and cleared by the reader

  datatype Action =
    | WriteLook(src: seq<Byte>) | WriteSize | WriteByte(j: nat) | WritePublish
    | ReadRange(length: nat) | ReadLook | ReadByte(j: nat) | ReadClear

  /** ring_buffer_get_bytes_available_for_read with the offsets as loaded. */
  function Available(write: nat, read: nat): nat {
    U32(write - read)
  }

  /** Where the byte `j` after an offset is kept. */
  function Slot(offset: nat, j: nat, size: nat): nat
    requires size > 0
  {
    (offset + j) % size
  }

  function Step(s: State, a: Action): Option<State> {
    var size := |s.memory|;
    match (a, s.writer, s.reader)
    case (WriteLook(src), Resting, _) =>
      Some(if U32(size - Available(s.write, s.read)) == 0 || src == [] then s else s.(writer := Sizing(src)))
    case (WriteSize, Sizing(src), _) =>
      Some(s.(writer := Copying(src[..Min(|src|, U32(size - Available(s.write, s.read)))], {})))
    case (WriteByte(j), Copying(src, done), _) =>
      if j < |src| && size > 0 then
        Some(s.(memory := s.memory[Slot(s.write, j, size) := src[j]], writer := Copying(src, done + {j})))
      else None
    case (WritePublish, Copying(src, done), _) =>
      if forall j :: 0 <= j < |src| ==> j in done then
        Some(s.(write := s.write + |src|, accepted := s.accepted + src, writer := Resting))
      else None
    case (ReadRange(length), _, Waiting) => Some(s.(reader := Ranged(length, Available(s.write, s.read))))
    case (ReadLook, _, Ranged(length, avail)) =>
      Some(s.(reader := if Available(s.write, s.read) == 0 || avail == 0 then Waiting
                        else Fetching(Min(length, avail), map[])))
    case (ReadByte(j), _, Fetching(n, got)) =>
      if j < n && size > 0 then Some(s.(reader := Fetching(n, got[j := s.memory[Slot(s.read, j, size)]]))) else None
    case (ReadClear, _, Fetching(n, got)) =>
      if forall j :: 0 <= j < n ==> j in got then
        var cleared := Min(n, Available(s.write, s.read));
        Some(s.(read := s.read + cleared, reader := Waiting,
                obtained := s.obtained + seq(cleared, j requires 0 <= j < cleared => got[j])))
      else None
    case _ => None
  }

  function Init(memory: seq<Byte>, base: nat): State {
    State(memory, base, base, Resting, Waiting, base, [], [])
  }

  // ---------------------------------------------------------------- the invariant

  predicate OffsetsOk(s: State) {
    && |s.memory| < TWO32 && s.base <= s.read <= s.write <= s.read + |s.memory|
    && |s.accepted| == s.write - s.base
  }

  /** Every unread byte is where it was written. */
  ghost predicate UnreadOk(s: State)
    requires OffsetsOk(s)
  {
    forall k :: s.read <= k < s.write ==> s.memory[k % |s.memory|] == s.accepted[k - s.base]
  }

  /** The room the writer counted on is still there, and holds what it has copied. */
  ghost predicate WriterOk(s: State)
    requires OffsetsOk(s)
  {
    s.writer.Copying? ==>
      && s.write + |s.writer.src| <= s.read + |s.memory|
      && (forall j :: j in s.writer.done ==> j < |s.writer.src|)
      && (forall j :: j in s.writer.done ==> s.memory[Slot(s.write, j, |s.memory|)] == s.writer.src[j])
  }

  /** The bytes the reader counted on are still unread, and it has copied them right. */
  ghost predicate ReaderOk(s: State)
    requires OffsetsOk(s)
  {
    && (s.reader.Ranged? ==> s.read + s.reader.avail <= s.write)
    && (s.reader.Fetching? ==>
          && s.read + s.reader.n <= s.write
          && (forall j :: j in s.reader.got ==> j < s.reader.n)
          && (forall j :: j in s.reader.got ==> s.reader.got[j] == s.accepted[s.read + j - s.base]))
  }

  ghost predicate Inv(s: State) {
    && OffsetsOk(s) && UnreadOk(s) && WriterOk(s) && ReaderOk(s)
    && s.obtained == s.accepted[..s.read - s.base]
  }

  lemma AvailableIsExact(s: State)
    requires OffsetsOk(s)
    ensures Available(s.write, s.read) == s.write - s.read
    ensures U32(|s.memory| - Available(s.write, s.read)) == s.read + |s.memory| - s.write
  {
  }

  lemma WriterGoesOn(s: State, w: Writer)
    requires Inv(s) && WriterOk(s.(writer := w))
    ensures Inv(s.(writer := w))
  {
  }

  lemma ReaderGoesOn(s: State, r: Reader)
    requires Inv(s) && ReaderOk(s.(reader := r))
    ensures Inv(s.(reader := r))
  {
  }

  /** The steps that load the other side's offset. */
  lemma WriterLooks(s: State, a: Action)
    requires Inv(s) && (a.WriteLook? || a.WriteSize?) && Step(s, a).Some?
    ensures Inv(Step(s, a).value)
  {
    hide UnreadOk, ReaderOk;
    AvailableIsExact(s);
    WriterGoesOn(s, Step(s, a).value.writer);
  }

  lemma ReaderLooks(s: State, a: Action)
    requires Inv(s) && (a.ReadRange? || a.ReadLook?) && Step(s, a).Some?
    ensures Inv(Step(s, a).value)
  {
    hide UnreadOk, WriterOk;
    AvailableIsExact(s);
    ReaderGoesOn(s, Step(s, a).value.reader);
  }

  /** The writer's bytes go to slots that hold no unread byte, and no other byte of the same write. */
  lemma WriteByteKeeps(s: State, a: Action)
    requires Inv(s) && a.WriteByte? && Step(s, a).Some?
    ensures Inv(Step(s, a).value)
  {
    var size, j := |s.memory|, a.j;
    forall k | s.read <= k < s.write
      ensures k % size != Slot(s.write, j, size)
    {
      ModDistinct(k, s.write + j, size);
    }
    forall i | 0 <= i < |s.writer.src| && i != j
      ensures Slot(s.write, i, size) != Slot(s.write, j, size)
    {
      if i < j {
        ModDistinct(s.write + i, s.write + j, size);
      } else {
        ModDistinct(s.write + j, s.write + i, size);
      }
    }
  }

  lemma PublishedIsUnread(s: State, src: seq<Byte>, k: nat)
    requires OffsetsOk(s) && UnreadOk(s) && s.writer.Copying? && s.writer.src == src && WriterOk(s)
    requires (forall j :: 0 <= j < |src| ==> j in s.writer.done) && s.read <= k < s.write + |src|
    ensures |s.memory| > 0 && s.memory[k % |s.memory|] == (s.accepted + src)[k - s.base]
  {
    if k >= s.write {
      assert k - s.write in s.writer.done;
      assert s.memory[Slot(s.write, k - s.write, |s.memory|)] == src[k - s.write];
    }
  }

  lemma PublishKeepsUnread(s: State, src: seq<Byte>, s': State)
    requires OffsetsOk(s) && UnreadOk(s) && s.writer.Copying? && s.writer.src == src && WriterOk(s)
    requires (forall j :: 0 <= j < |src| ==> j in s.writer.done)
    requires s' == s.(write := s.write + |src|, accepted := s.accepted + src, writer := Resting)
    ensures OffsetsOk(s') && UnreadOk(s') && WriterOk(s')
  {
    assert OffsetsOk(s') && WriterOk(s');
    hide WriterOk;
    forall k | s.read <= k < s'.write
      ensures |s.memory| > 0 && s.memory[k % |s.memory|] == (s.accepted + src)[k - s.base]
    {
      PublishedIsUnread(s, src, k);
    }
  }

  lemma PublishKeepsReader(s: State, s': State)
    requires OffsetsOk(s) && OffsetsOk(s') && ReaderOk(s) && s'.reader == s.reader && s'.read == s.read
    requires s'.base == s.base && s.write <= s'.write && s.accepted <= s'.accepted
    ensures ReaderOk(s') && s'.accepted[..s.read - s.base] == s.accepted[..s.read - s.base]
  {
  }

  lemma WritePublishKeeps(s: State, a: Action)
    requires Inv(s) && a.WritePublish? && Step(s, a).Some?
    ensures Inv(Step(s, a).value)
  {
    var src := s.writer.src;
    var s' := s.(write := s.write + |src|, accepted := s.accepted + src, writer := Resting);
    assert Step(s, a) == Some(s');
    hide Step, UnreadOk, WriterOk, ReaderOk;
    PublishKeepsUnread(s, src, s');
    PublishKeepsReader(s, s');
  }

  lemma ReadByteKeeps(s: State, a: Action)
    requires Inv(s) && a.ReadByte? && Step(s, a).Some?
    ensures Inv(Step(s, a).value)
  {
    assert s.memory[(s.read + a.j) % |s.memory|] == s.accepted[s.read + a.j - s.base];
  }

  lemma ReadClearKeeps(s: State, a: Action)
    requires Inv(s) && a.ReadClear? && Step(s, a).Some?
    ensures Inv(Step(s, a).value)
  {
    AvailableIsExact(s);
    var s' := Step(s, a).value;
    assert s'.obtained == s.accepted[..s'.read - s.base];
  }

  lemma StepKeepsInv(s: State, a: Action)
    requires Inv(s) && Step(s, a).Some?
    ensures Inv(Step(s, a).value)
  {
    hide Inv, Step;
    match a
    case WriteLook(_) => WriterLooks(s, a);
    case WriteSize => WriterLooks(s, a);
    case WriteByte(_) => WriteByteKeeps(s, a);
    case WritePublish => WritePublishKeeps(s, a);
    case ReadRange(_) => ReaderLooks(s, a);
    case ReadLook => ReaderLooks(s, a);
    case ReadByte(_) => ReadByteKeeps(s, a);
    case ReadClear => ReadClearKeeps(s, a);
  }

  // ---------------------------------------------------------------- every run

  function After(memory: seq<Byte>, base: nat, run: seq<Action>): Option<State> {
    if run == [] then Some(Init(memory, base))
    else
      match After(memory, base, run[..|run| - 1])
      case None => None
      case Some(s) => Step(s, run[|run| - 1])
  }

  lemma {:induction false} InvHoldsInEveryRun(memory: seq<Byte>, base: nat, run: seq<Action>)
    requires |memory| < TWO32
    ensures After(memory, base, run).Some? ==> Inv(After(memory, base, run).value)
  {
    if run != [] {
      InvHoldsInEveryRun(memory, base, run[..|run| - 1]);
      if After(memory, base, run).Some? {
        StepKeepsInv(After(memory, base, run[..|run| - 1]).value, run[|run| - 1]);
      }
    }
  }

  /** However the two sides interleave, the reader obtains exactly a prefix of the bytes the writer's calls accepted. */
  lemma ReaderObtainsPrefix(memory: seq<Byte>, base: nat, run: seq<Action>, s: State)
    requires |memory| < TWO32 && After(memory, base, run) == Some(s)
    ensures s.obtained <= s.accepted
    ensures |s.obtained| == s.read - s.base && |s.accepted| == s.write - s.base
  {
    InvHoldsInEveryRun(memory, base, run);
  }

  /** Stale offsets only under-report: a writer about to copy has the room for it, and a reader that has found bytes has
      them to read, whatever the other side has done since the load. */
  lemma StaleOffsetsAreSafe(memory: seq<Byte>, base: nat, run: seq<Action>, s: State)
    requires |memory| < TWO32 && After(memory, base, run) == Some(s)
    ensures s.writer.Copying? ==> |s.writer.src| <= |s.memory| - (s.write - s.read)
    ensures s.reader.Ranged? ==> s.reader.avail <= s.write - s.read
    ensures s.reader.Fetching? ==> s.reader.n <= s.write - s.read
  {
    InvHoldsInEveryRun(memory, base, run);
  }

  lemma StepKeepsUnread(s: State, a: Action, k: nat)
    requires Inv(s) && Step(s, a).Some? && s.read <= k < s.write
    ensures |s.memory| > 0 && |Step(s, a).value.memory| == |s.memory|
    ensures Step(s, a).value.memory[k % |s.memory|] == s.memory[k % |s.memory|]
  {
    if a.WriteByte? {
      ModDistinct(k, s.write + a.j, |s.memory|);
    } else {
      hide UnreadOk, ReaderOk, WriterOk, Available;
      assert Step(s, a).value.memory == s.memory;
    }
  }

  /** No step of the writer changes an unread byte. */
  lemma UnreadBytesAreUntouched(memory: seq<Byte>, base: nat, run: seq<Action>, s: State, a: Action, k: nat)
    requires |memory| < TWO32 && After(memory, base, run) == Some(s) && Step(s, a).Some? && s.read <= k < s.write
    ensures |s.memory| > 0 && |Step(s, a).value.memory| == |s.memory|
    ensures Step(s, a).value.memory[k % |s.memory|] == s.memory[k % |s.memory|]
  {
    InvHoldsInEveryRun(memory, base, run);
    StepKeepsUnread(s, a, k);
  }

  // ---------------------------------------------------------------- whole calls

  /** The state after a run from `s`. */
  function From(s: State, run: seq<Action>): Option<State>
    decreases |run|
  {
    if run == [] then Some(s)
    else
      match From(s, run[..|run| - 1])
      case None => None
      case Some(s1) => Step(s1, run[|run| - 1])
  }

  predicate WriterStarts(a: Action) {
    a.WriteLook? || a.WritePublish?
  }

  predicate ReaderStarts(a: Action) {
    a.ReadRange? || a.ReadClear?
  }

  /** A call of ring_buffer_write_data ends at once iff the ring is full or there is nothing to write. */
  lemma WriteLookIs(s: State, src: seq<Byte>)
    requires Inv(s) && s.writer.Resting?
    ensures Step(s, WriteLook(src)) ==
      Some(if s.write == s.read + |s.memory| || src == [] then s else s.(writer := Sizing(src)))
  {
    AvailableIsExact(s);
    hide UnreadOk, ReaderOk;
  }

  function Room(s: State): nat {
    if s.write <= s.read + |s.memory| then s.read + |s.memory| - s.write else 0
  }

  /** Nothing but the writer's own steps has changed what the writer goes by, and there is no less room. */
  predicate WriteStands(s: State, s': State) {
    && s'.write == s.write && s'.accepted == s.accepted && s'.base == s.base && |s'.memory| == |s.memory|
    && s'.read >= s.read
  }

  /** What one step changes while a write goes on. */
  lemma WriteGoesOnStep(s: State, a: Action, s': State)
    requires Inv(s) && Step(s, a) == Some(s') && !WriterStarts(a) && !s.writer.Resting?
    ensures WriteStands(s, s')
    ensures s.writer.Sizing? ==>
      s'.writer == if a == WriteSize then Copying(s.writer.src[..Min(|s.writer.src|, Room(s))], {}) else s.writer
    ensures s.writer.Copying? ==> a != WriteSize && s'.writer.Copying? && s'.writer.src == s.writer.src
  {
    AvailableIsExact(s);
    hide UnreadOk, WriterOk, ReaderOk, Available;
  }

  /** A write that began with `src` in `s0` is in state `s` after the steps `run`; WriteSize, if it is among them, is
      step `i`. */
  predicate Writing(s0: State, src: seq<Byte>, run: seq<Action>, i: nat, s: State) {
    if i < |run| then
      && run[i] == WriteSize && From(s0, run[..i]).Some? && WriteStands(s0, From(s0, run[..i]).value)
      && s.writer.Copying? && s.writer.src == src[..Min(|src|, Room(From(s0, run[..i]).value))]
    else
      s.writer == Sizing(src)
  }

  lemma {:induction false} WriteGoesOn(s0: State, src: seq<Byte>, run: seq<Action>, s: State) returns (i: nat)
    requires Inv(s0) && s0.writer == Sizing(src) && From(s0, run) == Some(s)
    requires forall k :: 0 <= k < |run| ==> !WriterStarts(run[k])
    ensures Inv(s) && WriteStands(s0, s) && Writing(s0, src, run, i, s)
    decreases |run|
  {
    i := 0;
    if run != [] {
      var before, a := run[..|run| - 1], run[|run| - 1];
      var s1 := From(s0, before).value;
      assert forall k :: 0 <= k < |before| ==> before[k] == run[k];
      i := WriteGoesOn(s0, src, before, s1);
      assert Step(s1, a) == Some(s);
      hide Step, Inv, From, Room;
      StepKeepsInv(s1, a);
      WriteGoesOnStep(s1, a, s);
      if i < |before| {
        assert run[..i] == before[..i];
      } else {
        i := if a == WriteSize then |before| else |run|;
      }
    }
  }

  lemma PublishAppends(s: State, s': State)
    requires Step(s, WritePublish) == Some(s')
    ensures s.writer.Copying? && s'.accepted == s.accepted + s.writer.src && s'.writer.Resting?
  {
  }

  /** A call of ring_buffer_write_data from its first look to the publication, the reader's steps anywhere in between:
      it appends the first bytes it was given, as many as there was room for when it looked again (after the steps
      `mid[..i]`), and that is no less than there was at first, and something. */
  lemma WriteAppendsFirstBytes(memory: seq<Byte>, base: nat, run: seq<Action>, s0: State, src: seq<Byte>, s1: State,
                               mid: seq<Action>, s: State, s': State) returns (i: nat, r: State)
    requires |memory| < TWO32 && After(memory, base, run) == Some(s0) && s0.writer.Resting?
    requires Step(s0, WriteLook(src)) == Some(s1) && s1 != s0
    requires From(s1, mid) == Some(s) && Step(s, WritePublish) == Some(s')
    requires forall j :: 0 <= j < |mid| ==> !WriterStarts(mid[j])
    ensures i < |mid| && mid[i] == WriteSize && From(s1, mid[..i]) == Some(r)
    ensures r.write == s0.write <= s0.read + |memory| && s0.read <= r.read
    ensures 0 < Min(|src|, s0.read + |memory| - s0.write) <= Min(|src|, r.read + |memory| - r.write)
    ensures s'.accepted == s0.accepted + src[..Min(|src|, r.read + |memory| - r.write)]
  {
    InvHoldsInEveryRun(memory, base, run);
    SameMemory(memory, base, run);
    WriteLookIs(s0, src);
    WriterGoesOn(s0, Sizing(src));
    i := WriteGoesOn(s1, src, mid, s);
    PublishAppends(s, s');
    r := From(s1, mid[..i]).value;
    hide UnreadOk, ReaderOk, WriterOk, After, From, Available, Step;
  }

  lemma {:induction false} SameMemory(memory: seq<Byte>, base: nat, run: seq<Action>)
    ensures After(memory, base, run).Some? ==> |After(memory, base, run).value.memory| == |memory|
  {
    if run != [] {
      SameMemory(memory, base, run[..|run| - 1]);
    }
  }

  /** A run of the writer's steps alone finishes the call, however far it is. */
  lemma WriterCanFinish(s: State) returns (run: seq<Action>, s': State)
    requires Inv(s) && !s.writer.Resting?
    ensures From(s, run) == Some(s') && s'.writer.Resting? && s'.write >= s.write && s'.reader == s.reader
  {
    run, s' := [], s;
    if s.writer.Sizing? {
      StepKeepsInv(s, WriteSize);
      run, s' := Then(s, run, s, WriteSize);
    }
    run, s' := WriterCanCopy(s, run, s', 0);
    run, s' := Then(s, run, s', WritePublish);
  }

  lemma Then(s: State, run: seq<Action>, s1: State, a: Action) returns (run': seq<Action>, s2: State)
    requires From(s, run) == Some(s1) && Step(s1, a).Some?
    ensures From(s, run') == Some(s2) && Some(s2) == Step(s1, a)
  {
    run', s2 := run + [a], Step(s1, a).value;
    assert run'[..|run|] == run;
  }

  lemma {:induction false} WriterCanCopy(s0: State, run: seq<Action>, s: State, from: nat)
      returns (run': seq<Action>, s': State)
    requires From(s0, run) == Some(s) && Inv(s) && s.writer.Copying? && from <= |s.writer.src|
    requires forall j :: 0 <= j < from ==> j in s.writer.done
    ensures From(s0, run') == Some(s') && s'.writer.Copying? && s'.writer.src == s.writer.src
    ensures s'.write == s.write && s'.reader == s.reader
    ensures forall j :: 0 <= j < |s.writer.src| ==> j in s'.writer.done
    decreases |s.writer.src| - from
  {
    run', s' := run, s;
    if from < |s.writer.src| {
      StepKeepsInv(s, WriteByte(from));
      run', s' := Then(s0, run, s, WriteByte(from));
      run', s' := WriterCanCopy(s0, run', s', from + 1);
    }
  }

  // ---------------------------------------------------------------- the reader's calls

  /** A peek for `length` bytes that began in `s0` is in state `s` after the steps `run`. */
  predicate Peeking(s0: State, length: nat, run: seq<Action>, s: State) {
    var unread := if s0.read <= s0.write then s0.write - s0.read else 0;
    if ReadLook !in run then s.reader == Ranged(length, unread)
    else if unread == 0 then s.reader.Waiting?
    else s.reader.Fetching? && s.reader.n == Min(length, unread)
  }

  /** Nothing but the reader's own steps has changed what the reader goes by, and there is no less to read. */
  predicate ReadStands(s: State, s': State) {
    && s'.read == s.read && s'.obtained == s.obtained && s'.base == s.base && s.accepted <= s'.accepted
    && s'.write >= s.write && |s'.memory| == |s.memory|
  }

  lemma ReadGoesOnStep(s: State, a: Action, s': State)
    requires Inv(s) && Step(s, a) == Some(s') && !ReaderStarts(a)
    ensures ReadStands(s, s')
    ensures a == ReadLook ==>
      && s.reader.Ranged?
      && (if s.write == s.read || s.reader.avail == 0 then s'.reader.Waiting?
          else s'.reader.Fetching? && s'.reader.n == Min(s.reader.length, s.reader.avail))
    ensures a != ReadLook ==>
      s'.reader == s.reader || (s.reader.Fetching? && s'.reader.Fetching? && s'.reader.n == s.reader.n)
  {
    AvailableIsExact(s);
    hide UnreadOk, WriterOk, ReaderOk, Available;
  }

  lemma PeekBegins(s0: State, length: nat, s1: State)
    requires Inv(s0) && s0.reader.Waiting? && Step(s0, ReadRange(length)) == Some(s1)
    ensures Inv(s1) && ReadStands(s0, s1) && Peeking(s0, length, [], s1)
  {
    AvailableIsExact(s0);
    StepKeepsInv(s0, ReadRange(length));
    hide UnreadOk, WriterOk, ReaderOk, Available;
  }

  lemma PeekGoesOn(s0: State, length: nat, before: seq<Action>, s: State, a: Action, s': State)
    requires Inv(s) && Step(s, a) == Some(s') && !ReaderStarts(a)
    requires s0.read <= s0.write && ReadStands(s0, s) && Peeking(s0, length, before, s)
    ensures ReadStands(s0, s') && Peeking(s0, length, before + [a], s')
  {
    ReadGoesOnStep(s, a, s');
    hide Step, Inv;
    assert ReadLook in before + [a] <==> ReadLook in before || a == ReadLook;
  }

  lemma ReadIsBehindWrite(s: State)
    requires Inv(s)
    ensures s.base <= s.read <= s.write && |s.accepted| == s.write - s.base
  {
    hide UnreadOk, WriterOk, ReaderOk;
  }

  lemma {:induction false} ReadGoesOn(s0: State, length: nat, s1: State, run: seq<Action>, s: State)
    requires Inv(s0) && s0.reader.Waiting? && Step(s0, ReadRange(length)) == Some(s1) && From(s1, run) == Some(s)
    requires forall k :: 0 <= k < |run| ==> !ReaderStarts(run[k])
    ensures Inv(s) && ReadStands(s0, s) && Peeking(s0, length, run, s)
    decreases |run|
  {
    hide Step, Inv, ReadStands, Peeking;
    ReadIsBehindWrite(s0);
    if run == [] {
      PeekBegins(s0, length, s);
    } else {
      var before, a := run[..|run| - 1], run[|run| - 1];
      var s2 := From(s1, before).value;
      assert forall k :: 0 <= k < |before| ==> before[k] == run[k];
      ReadGoesOn(s0, length, s1, before, s2);
      assert Step(s2, a) == Some(s) && run == before + [a];
      hide From;
      StepKeepsInv(s2, a);
      PeekGoesOn(s0, length, before, s2, a, s);
    }
  }

  lemma SameSlice<T>(a: seq<T>, b: seq<T>, from: nat, n: nat)
    requires a <= b && from + n <= |a|
    ensures b[from..][..n] == a[from..from + n]
  {
  }

  lemma ClearObtains(s: State, s': State)
    requires Inv(s) && Step(s, ReadClear) == Some(s')
    ensures s.reader.Fetching? && s.base <= s.read && s.read + s.reader.n <= s.write && |s.accepted| == s.write - s.base
    ensures s'.read == s.read + s.reader.n && s'.reader.Waiting?
    ensures s'.obtained == s.obtained + s.accepted[s.read - s.base..][..s.reader.n]
  {
    AvailableIsExact(s);
  }

  /** What a peek has come to when it is cleared, `s0` being the state in which it began. */
  lemma PeekedIsCleared(s0: State, length: nat, mid: seq<Action>, s: State, s': State)
    requires Inv(s0) && Inv(s) && ReadStands(s0, s) && Peeking(s0, length, mid, s) && Step(s, ReadClear) == Some(s')
    ensures s0.base <= s0.read < s0.write && |s0.accepted| == s0.write - s0.base
    ensures
      var n, from := Min(length, s0.write - s0.read), s0.read - s0.base;
      s'.read == s0.read + n && s'.obtained == s0.obtained + s0.accepted[from..from + n]
  {
    ClearObtains(s, s');
    hide UnreadOk, ReaderOk, WriterOk, Step;
    SameSlice(s0.accepted, s.accepted, s0.read - s0.base, s.reader.n);
  }

  /** A peek of `length` bytes, and the clearing of what it has handed out, the writer's steps anywhere in between: the
      reader obtains the oldest unread bytes, as many as asked for and unread when the peek began. */
  lemma PeekAndClearObtains(memory: seq<Byte>, base: nat, run: seq<Action>, s0: State, length: nat, s1: State,
                            mid: seq<Action>, s: State, s': State)
    requires |memory| < TWO32 && After(memory, base, run) == Some(s0) && s0.reader.Waiting?
    requires Step(s0, ReadRange(length)) == Some(s1) && From(s1, mid) == Some(s) && Step(s, ReadClear) == Some(s')
    requires forall j :: 0 <= j < |mid| ==> !ReaderStarts(mid[j])
    ensures s0.base <= s0.read < s0.write && |s0.accepted| == s0.write - s0.base
    ensures
      var n, from := Min(length, s0.write - s0.read), s0.read - s0.base;
      s'.read == s0.read + n && s'.obtained == s0.obtained + s0.accepted[from..from + n]
  {
    hide After, From, Step, Inv, ReadStands, Peeking;
    InvHoldsInEveryRun(memory, base, run);
    ReadGoesOn(s0, length, s1, mid, s);
    PeekedIsCleared(s0, length, mid, s, s');
  }

  lemma GotIsUnread(s0: State, s: State, j: nat)
    requires Inv(s0) && Inv(s) && ReadStands(s0, s) && s.reader.Fetching? && j in s.reader.got
    requires s.reader.n <= s0.write - s0.read
    ensures j < s.reader.n && 0 <= s0.read - s0.base + j < |s0.accepted|
    ensures s.reader.got[j] == s0.accepted[s0.read - s0.base + j]
  {
    hide UnreadOk, WriterOk;
  }

  lemma PeekedIsUnread(s0: State, length: nat, mid: seq<Action>, s: State)
    requires Inv(s0) && Inv(s) && ReadStands(s0, s) && Peeking(s0, length, mid, s) && ReadLook in mid
    ensures s0.base <= s0.read <= s0.write && |s0.accepted| == s0.write - s0.base
    ensures s.reader.Waiting? <==> s0.read == s0.write
    ensures !s.reader.Waiting? ==>
      && s.reader.Fetching? && s.reader.n == Min(length, s0.write - s0.read)
      && forall j :: j in s.reader.got ==> j < s.reader.n && s.reader.got[j] == s0.accepted[s0.read - s0.base + j]
  {
    hide UnreadOk, WriterOk, ReaderOk;
    if s.reader.Fetching? {
      forall j | j in s.reader.got
        ensures j < s.reader.n && s.reader.got[j] == s0.accepted[s0.read - s0.base + j]
      {
        GotIsUnread(s0, s, j);
      }
    }
  }

  /** A peek finds nothing iff nothing was unread when it began; what it finds are the oldest unread bytes. */
  lemma PeekFinds(memory: seq<Byte>, base: nat, run: seq<Action>, s0: State, length: nat, s1: State,
                  mid: seq<Action>, s: State)
    requires |memory| < TWO32 && After(memory, base, run) == Some(s0) && s0.reader.Waiting?
    requires Step(s0, ReadRange(length)) == Some(s1) && From(s1, mid) == Some(s) && ReadLook in mid
    requires forall j :: 0 <= j < |mid| ==> !ReaderStarts(mid[j])
    ensures s0.base <= s0.read <= s0.write && |s0.accepted| == s0.write - s0.base
    ensures s.reader.Waiting? <==> s0.read == s0.write
    ensures !s.reader.Waiting? ==>
      && s.reader.Fetching? && s.reader.n == Min(length, s0.write - s0.read)
      && forall j :: j in s.reader.got ==> j < s.reader.n && s.reader.got[j] == s0.accepted[s0.read - s0.base + j]
  {
    hide After, From, Step, Inv, ReadStands, Peeking;
    InvHoldsInEveryRun(memory, base, run);
    ReadGoesOn(s0, length, s1, mid, s);
    PeekedIsUnread(s0, length, mid, s);
  }

  /** The reader's steps alone finish what it is at. */
  lemma ReaderCanFinish(s: State) returns (run: seq<Action>, s': State)
    requires Inv(s) && !s.reader.Waiting?
    ensures From(s, run) == Some(s') && s'.reader.Waiting? && s'.writer == s.writer
  {
    run, s' := [], s;
    if s.reader.Ranged? {
      StepKeepsInv(s, ReadLook);
      run, s' := Then(s, run, s, ReadLook);
    }
    if s'.reader.Fetching? {
      run, s' := ReaderCanCopy(s, run, s', 0);
      run, s' := Then(s, run, s', ReadClear);
    }
  }

  lemma {:induction false} ReaderCanCopy(s0: State, run: seq<Action>, s: State, from: nat)
      returns (run': seq<Action>, s': State)
    requires From(s0, run) == Some(s) && Inv(s) && s.reader.Fetching? && from <= s.reader.n
    requires forall j :: 0 <= j < from ==> j in s.reader.got
    ensures From(s0, run') == Some(s') && s'.reader.Fetching? && s'.reader.n == s.reader.n && s'.writer == s.writer
    ensures forall j :: 0 <= j < s.reader.n ==> j in s'.reader.got
    decreases s.reader.n - from
  {
    run', s' := run, s;
    if from < s.reader.n {
      StepKeepsInv(s, ReadByte(from));
      run', s' := Then(s0, run, s, ReadByte(from));
      run', s' := ReaderCanCopy(s0, run', s', from + 1);
    }
  }
}
