/** The overwriting character window behind an escape-sequence filter (src/log_buffer.c). */
module LogBuffers {
  import opened Basics
  import opened Rings

  const ESCAPE: char := 0x1b as char
  const RETURN: char := 0xd as char
  const NUL: char := 0 as char

  // ---------------------------------------------------------------- the filter

  predicate IsLetter(c: char) {
    'a' <= c <= 'z' || 'A' <= c <= 'Z'
  }

  /** Whether the filter is inside an escape sequence behind the text `s`, which it began in state `esc`. */
  function EscapeAfter(s: string, esc: bool): bool {
    if s == [] then esc
    else
      var c, before := s[|s| - 1], EscapeAfter(s[..|s| - 1], esc);
      c == ESCAPE || (before && !IsLetter(c))
  }

  predicate Passes(c: char, esc: bool) {
    !esc && c != ESCAPE && c != RETURN && c != NUL
  }

  /** The characters of `s` that get through the filter and are stored. */
  function Visible(s: string, esc: bool): string {
    if s == [] then []
    else
      var c, before := s[|s| - 1], s[..|s| - 1];
      Visible(before, esc) + if Passes(c, EscapeAfter(before, esc)) then [c] else []
  }

  predicate NoLetterFrom(s: string, j: nat) {
    forall k :: j <= k < |s| ==> !('a' <= s[k] <= 'z' || 'A' <= s[k] <= 'Z')
  }

  /** A text ends inside a sequence iff its last escape character, or a sequence it began in, is followed by no
      letter. */
  lemma {:induction false} EscapeAfterIff(s: string, esc: bool)
    ensures EscapeAfter(s, esc) <==>
      || (exists j :: 0 <= j < |s| && s[j] == ESCAPE && NoLetterFrom(s, j))
      || (esc && NoLetterFrom(s, 0))
  {
    if s != [] {
      var n := |s| - 1;
      EscapeAfterIff(s[..n], esc);
      assert s[n] == ESCAPE ==> NoLetterFrom(s, n);
      assert forall j :: 0 <= j <= n && !IsLetter(s[n]) && NoLetterFrom(s[..n], j) ==> NoLetterFrom(s, j);
      assert forall j :: 0 <= j <= n && NoLetterFrom(s, j) ==> NoLetterFrom(s[..n], j) && !IsLetter(s[n]);
    }
  }

  /** Filtering two texts one after the other is filtering them at once. */
  lemma {:induction false} VisibleAppend(s: string, t: string, esc: bool)
    ensures EscapeAfter(s + t, esc) == EscapeAfter(t, EscapeAfter(s, esc))
    ensures Visible(s + t, esc) == Visible(s, esc) + Visible(t, EscapeAfter(s, esc))
    decreases |t|
  {
    if t == [] {
      assert s + t == s;
    } else {
      VisibleAppend(s, t[..|t| - 1], esc);
      assert (s + t)[..|s + t| - 1] == s + t[..|t| - 1];
    }
  }

  /** A sequence is open before position `j`: of an escape character, or of what came before, with no letter since. */
  ghost predicate OpenBefore(s: string, esc: bool, j: nat)
    requires j <= |s|
  {
    || (exists i :: 0 <= i < j && s[i] == ESCAPE && NoLetterFrom(s[..j], i))
    || (esc && NoLetterFrom(s[..j], 0))
  }

  lemma OpenIsEscape(s: string, esc: bool, j: nat)
    requires j <= |s|
    ensures EscapeAfter(s[..j], esc) <==> OpenBefore(s, esc, j)
  {
    EscapeAfterIff(s[..j], esc);
  }

  lemma {:induction false} VisiblePlaces(s: string, esc: bool) returns (places: seq<nat>)
    ensures |Visible(s, esc)| == |places|
    ensures forall k :: 0 <= k < |places| ==> places[k] < |s| && Visible(s, esc)[k] == s[places[k]]
    ensures forall k, l :: 0 <= k < l < |places| ==> places[k] < places[l]
    ensures forall j :: 0 <= j < |s| ==> (j in places <==> Passes(s[j], EscapeAfter(s[..j], esc)))
    decreases |s|
  {
    hide EscapeAfter, Passes;
    places := [];
    if s != [] {
      var n := |s| - 1;
      var before := VisiblePlaces(s[..n], esc);
      assert forall j :: 0 <= j < n ==> s[..n][..j] == s[..j];
      places := before + if Passes(s[n], EscapeAfter(s[..n], esc)) then [n] else [];
    }
  }

  /** What is stored of a text are, in their order, the characters at `places`: all those outside a sequence except the
      escape character, the return and NUL. */
  lemma VisibleKeepsOrder(s: string, esc: bool) returns (places: seq<nat>)
    ensures |Visible(s, esc)| == |places|
    ensures forall k :: 0 <= k < |places| ==> places[k] < |s| && Visible(s, esc)[k] == s[places[k]]
    ensures forall k, l :: 0 <= k < l < |places| ==> places[k] < places[l]
    ensures forall j :: 0 <= j < |s| ==>
      (j in places <==> !OpenBefore(s, esc, j) && s[j] != '\U{1b}' && s[j] != '\r' && s[j] != '\0')
  {
    hide Visible, OpenBefore, EscapeAfter;
    places := VisiblePlaces(s, esc);
    forall j | 0 <= j < |s| ensures EscapeAfter(s[..j], esc) <==> OpenBefore(s, esc, j) {
      OpenIsEscape(s, esc, j);
    }
  }

  /** A text without the three special characters is stored as it is, outside a sequence. */
  lemma {:induction false} PlainIsVisible(s: string)
    requires forall j :: 0 <= j < |s| ==> s[j] != ESCAPE && s[j] != RETURN && s[j] != NUL
    ensures Visible(s, false) == s && !EscapeAfter(s, false)
    decreases |s|
  {
    if s != [] {
      PlainIsVisible(s[..|s| - 1]);
    }
  }

  /** An escape sequence is not stored, up to and with its first letter. */
  lemma {:induction false} SequenceVanishes(s: string, esc: bool, letter: char)
    requires IsLetter(letter) && NoLetterFrom(s, 0) && (esc || (s != [] && s[0] == ESCAPE))
    ensures Visible(s + [letter], esc) == [] && !EscapeAfter(s + [letter], esc)
  {
    InsideVanishes(s, esc);
    assert (s + [letter])[..|s|] == s;
  }

  lemma {:induction false} InsideVanishes(s: string, esc: bool)
    requires NoLetterFrom(s, 0) && (esc || (s != [] && s[0] == ESCAPE))
    ensures Visible(s, esc) == [] && EscapeAfter(s, esc)
    decreases |s|
  {
    if |s| > 1 || (s != [] && esc) {
      InsideVanishes(s[..|s| - 1], esc);
    } else if s != [] {
      assert s[..0] == [];
    }
  }

  // ---------------------------------------------------------------- runs of pushes

  datatype Log = Log(content: string, inEscape: bool)

  /** What one push of an accepted text leaves in a buffer of `size`. */
  function Pushed(log: Log, s: string, size: nat): Log
    requires size > 0
  {
    Log(Last(log.content + Visible(s, log.inEscape), size - 1), EscapeAfter(s, log.inEscape))
  }

  lemma PushedTwice(log: Log, s: string, t: string, size: nat)
    requires size > 0
    ensures Pushed(Pushed(log, s, size), t, size) == Pushed(log, s + t, size)
  {
    VisibleAppend(s, t, log.inEscape);
    var u, v := Visible(s, log.inEscape), Visible(t, EscapeAfter(s, log.inEscape));
    LastLast(log.content + u, v, size - 1);
    Associates(log.content, u, v);
  }

  lemma PushedChar(log: Log, c: char, size: nat)
    requires size > |log.content|
    ensures Pushed(log, [c], size) == Log(
      if Passes(c, log.inEscape) then Last(log.content + [c], size - 1) else log.content,
      c == ESCAPE || (log.inEscape && !IsLetter(c)))
  {
    assert [c][..0] == [];
    assert Visible([c], log.inEscape) == if Passes(c, log.inEscape) then [c] else [];
  }

  function PushedAll(log: Log, texts: seq<string>, size: nat): Log
    requires size > 0
  {
    if texts == [] then log
    else Pushed(PushedAll(log, texts[..|texts| - 1], size), texts[|texts| - 1], size)
  }

  function Joined(texts: seq<string>): string {
    if texts == [] then [] else Joined(texts[..|texts| - 1]) + texts[|texts| - 1]
  }

  /** Any pushes leave what one push of the joined text would, even if that were too long to be accepted. */
  lemma {:induction false} SplitDoesNotMatter(log: Log, texts: seq<string>, size: nat)
    requires size > |log.content|
    ensures PushedAll(log, texts, size) == Pushed(log, Joined(texts), size)
    decreases |texts|
  {
    if texts != [] {
      var before := texts[..|texts| - 1];
      SplitDoesNotMatter(log, before, size);
      PushedTwice(log, Joined(before), texts[|texts| - 1], size);
    } else {
      assert log.content + [] == log.content;
    }
  }

  /** From an empty buffer outside a sequence: the last size - 1 visible characters of everything pushed. */
  lemma ContentIsTailOfText(texts: seq<string>, size: nat)
    requires size > 0
    ensures PushedAll(Log([], false), texts, size).content == Last(Visible(Joined(texts), false), size - 1)
  {
    SplitDoesNotMatter(Log([], false), texts, size);
    assert [] + Visible(Joined(texts), false) == Visible(Joined(texts), false);
  }

  // ---------------------------------------------------------------- the buffer

  class LogBuffer {
    var isInit: bool
    var buffer: array<char>
    var head: nat
    var tail: nat
    var inEscape: bool

    ghost predicate Valid()
      reads this
    {
      head < buffer.Length && tail < buffer.Length
    }

    function Count(): (n: nat)
      requires Valid()
      reads this
      ensures n < buffer.Length
    {
      if head >= tail then head - tail else buffer.Length - tail + head
    }

    ghost function Content(): string
      requires Valid()
      reads this, buffer
    {
      Around(buffer[..], tail, Count())
    }

    ghost function Abs(): Log
      requires Valid()
      reads this, buffer
    {
      Log(Content(), inEscape)
    }

    /** Storage that is all zero before log_buffer_init. */
    constructor ()
      ensures !isInit && !inEscape
    {
      isInit, head, tail, inEscape := false, 0, 0, false;
      buffer := new char[0];
    }

    /** log_buffer_init: does not leave an escape sequence that an earlier use has begun. */
    method Init(b: array<char>) returns (ok: bool)
      modifies this
      ensures ok <==> b.Length > 0
      ensures ok ==> isInit && buffer == b && Valid() && Abs() == Log([], old(inEscape))
      ensures !ok ==> isInit == old(isInit) && buffer == old(buffer) && head == old(head) && tail == old(tail)
      ensures inEscape == old(inEscape)
    {
      ok := false;
      if b.Length > 0 {
        buffer := b;
        head, tail := 0, 0;
        isInit := true;
        ok := true;
      }
    }

    /** log_buffer_filter_character: true when the character is dropped. */
    method FilterCharacter(c: char) returns (dropped: bool)
      modifies this`inEscape
      ensures inEscape == (c == ESCAPE || (old(inEscape) && !IsLetter(c)))
      ensures !dropped <==> !old(inEscape) && c != ESCAPE && c != RETURN
    {
      dropped := true;
      if c == ESCAPE {
        inEscape := true;
      } else if inEscape {
        if IsLetter(c) {
          inEscape := false;
        }
      } else if c != RETURN {
        dropped := false;
      }
    }

    /** A character written at the head lies behind the contents. */
    lemma StoredAtHead(memory: string, c: char)
      requires Valid() && |memory| == buffer.Length && buffer[..] == memory[head := c]
      ensures Around(buffer[..], tail, Count() + 1) == Around(memory, tail, Count()) + [c]
    {
      PlaceAdd(tail, Count(), buffer.Length);
      AroundWritten(memory, buffer[..], tail, Count(), [c]);
    }

    /** The memory without the place at the tail, once the head has come round to it. */
    lemma WithoutOldest()
      requires Valid()
      ensures Around(buffer[..], if tail + 1 < buffer.Length then tail + 1 else 0, buffer.Length - 1)
           == Around(buffer[..], tail, buffer.Length)[1..]
    {
      PlaceAdd(tail, 1, buffer.Length);
      AroundSplit(buffer[..], tail, buffer.Length, 1);
      AroundPlace(buffer[..], tail + 1, buffer.Length - 1);
    }

    /** What the buffer keeps of its contents and one more character. */
    lemma KeptWhenStored(kept: string)
      requires Valid() && |kept| == Count() + 1
      ensures Last(kept, buffer.Length - 1) == if Count() + 1 == buffer.Length then kept[1..] else kept
    {
    }

    /** log_buffer_char_push: overwrites the oldest character when full. */
    method CharPush(c: char)
      requires Valid()
      modifies this`head, this`tail, buffer
      ensures Valid()
      ensures Content() == if c == NUL then old(Content()) else Last(old(Content()) + [c], buffer.Length - 1)
    {
      if c != NUL {
        ghost var memory, kept := buffer[..], Content() + [c];
        buffer[head] := c;
        StoredAtHead(memory, c);
        KeptWhenStored(kept);
        hide Around, Last;
        head := if head + 1 < buffer.Length then head + 1 else 0;
        if head == tail {
          WithoutOldest();
          tail := if tail + 1 < buffer.Length then tail + 1 else 0;
        }
      }
    }

    /** One round of log_buffer_push. */
    method OneCharacter(c: char)
      requires Valid()
      modifies this`head, this`tail, this`inEscape, buffer
      ensures Valid() && Abs() == Pushed(old(Abs()), [c], buffer.Length)
    {
      PushedChar(Abs(), c, buffer.Length);
      var dropped := FilterCharacter(c);
      if !dropped {
        CharPush(c);
      }
    }

    /** log_buffer_push. */
    method Push(s: string) returns (ok: bool)
      requires isInit ==> Valid()
      modifies this`head, this`tail, this`inEscape, buffer
      ensures isInit ==> Valid()
      ensures ok <==> isInit && |s| < buffer.Length
      ensures isInit ==> Abs() == if ok then Pushed(old(Abs()), s, buffer.Length) else old(Abs())
    {
      ok := false;
      if isInit && |s| < buffer.Length {
        assert Content() + [] == Content();
        for i := 0 to |s|
          invariant Valid()
          invariant Abs() == Pushed(old(Abs()), s[..i], buffer.Length)
        {
          assert s[..i + 1] == s[..i] + [s[i]];
          PushedTwice(old(Abs()), s[..i], [s[i]], buffer.Length);
          OneCharacter(s[i]);
        }
        assert s[..|s|] == s;
        ok := true;
      }
    }

    /** log_buffer_char_pop: the oldest character, if any. */
    method CharPop() returns (c: Option<char>)
      requires Valid()
      modifies this`tail
      ensures Valid()
      ensures if old(Content()) == [] then c == None && Content() == []
              else c == Some(old(Content())[0]) && Content() == old(Content())[1..]
    {
      c := None;
      if head != tail {
        AroundFirst(buffer[..], tail, Count());
        PlaceAdd(tail, 1, buffer.Length);
        c := Some(buffer[tail]);
        tail := if tail + 1 < buffer.Length then tail + 1 else 0;
      }
    }

    /** log_buffer_is_empty. */
    method IsEmpty() returns (r: bool)
      requires isInit ==> Valid()
      ensures r <==> isInit && Content() == []
    {
      r := false;
      if isInit {
        r := head == tail;
      }
    }

    /** log_buffer_clear. */
    method Clear()
      requires isInit ==> Valid()
      modifies this`head, this`tail
      ensures isInit ==> Valid() && Abs() == Log([], old(inEscape))
    {
      if isInit {
        head, tail := 0, 0;
      }
    }

    /** log_buffer_current_size: one or two chunks of the memory that are the contents in place. */
    method CurrentSize() returns (total: nat, initial: nat, residue: nat)
      requires Valid()
      ensures total == initial + residue == |Content()|
      ensures tail + initial <= buffer.Length && residue <= buffer.Length
      ensures buffer[tail..tail + initial] + buffer[..residue] == Content()
    {
      initial, residue := 0, 0;
      if head > tail {
        initial := head - tail;
      } else if head < tail {
        initial := buffer.Length - tail;
        residue := head;
      }
      total := initial + residue;
      AroundPieces(buffer[..], tail, Count());
    }
  }
}
