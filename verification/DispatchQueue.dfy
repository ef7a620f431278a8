/**
 * The dispatch queue (inc/cutils/dispatch_queue.h, src/dispatch_queue.c): any number of threads post functions and try
 * to destroy the queue while its worker runs them.  Pool and queue operations are single steps here; Layers says which
 * steps of PoolModel and sections of TsQueues they are.
 */
module DispatchQueues {
  import opened Basics
  import PoolModel
  import PoolProofs

  /** A queued pool block, or the pointer that asks the worker to exit. */
  datatype Entry = Block(b: nat) | Kill

  /** dispatch_async_f: the destroying check is passed, a block is allocated, the block is filled in. */
  datatype Post<J> = NotPosting | Checked(j: J) | Got(b: nat, j: J) | Filled(b: nat, j: J)

  /** dispatch_queue_destroy: not called, flag won, kill queued, exit of the worker seen, finished or not needed. */
  datatype Destroy = NotDestroying | Flagged | Queued | Waited | Finished

  datatype Worker = Waiting | Running(b: nat) | Releasing(b: nat) | Exited

  datatype State<J> = State(
    queue: seq<Entry>, free: set<nat>, content: map<nat, J>, destroying: bool, signal: bool, released: bool,
    posts: seq<Post<J>>, destroys: seq<Destroy>, worker: Worker,
    posted: seq<J>,         // functions enqueued, oldest first
    ran: seq<J>,            // functions run, oldest first
    killAt: Option<nat>)    // how many functions had been enqueued when the kill was

  datatype Action<J> =
    | PostCheck(p: nat, j: J) | PostAlloc(p: nat, b: nat) | PostFill(p: nat) | PostEnqueue(p: nat)
    | DestroyFlag(d: nat) | DestroyKill(d: nat) | DestroyWait(d: nat) | DestroyRelease(d: nat)
    | WorkerTake | WorkerRun | WorkerRelease

  /** One step; `n` is the size of both the pool and the queue.  None when the step is not possible; posting without a
      free block and enqueueing without room stop the program in an assertion, and neither pool nor queue is there to
      post with once they have been released. */
  function Step<J>(n: nat, s: State<J>, a: Action<J>): Option<State<J>> {
    match a
    case PostCheck(p, j) =>
      if p < |s.posts| && s.posts[p].NotPosting? then
        Some(if s.destroying then s else s.(posts := s.posts[p := Checked(j)]))
      else None
    case PostAlloc(p, b) =>
      if p < |s.posts| && s.posts[p].Checked? && b in s.free && !s.released then
        Some(s.(free := s.free - {b}, posts := s.posts[p := Got(b, s.posts[p].j)]))
      else None
    case PostFill(p) =>
      if p < |s.posts| && s.posts[p].Got? then
        var b, j := s.posts[p].b, s.posts[p].j;
        Some(s.(content := s.content[b := j], posts := s.posts[p := Filled(b, j)]))
      else None
    case PostEnqueue(p) =>
      if p < |s.posts| && s.posts[p].Filled? && |s.queue| < n && !s.released then
        Some(s.(queue := s.queue + [Block(s.posts[p].b)], posted := s.posted + [s.posts[p].j],
                posts := s.posts[p := NotPosting]))
      else None
    case DestroyFlag(d) =>
      if d < |s.destroys| && s.destroys[d].NotDestroying? then
        Some(s.(destroying := true, destroys := s.destroys[d := if s.destroying then Finished else Flagged]))
      else None
    case DestroyKill(d) =>
      if d < |s.destroys| && s.destroys[d].Flagged? && |s.queue| < n then
        Some(s.(queue := s.queue + [Kill], killAt := Some(|s.posted|), destroys := s.destroys[d := Queued]))
      else None
    case DestroyWait(d) =>
      if d < |s.destroys| && s.destroys[d].Queued? && s.signal then
        Some(s.(signal := false, destroys := s.destroys[d := Waited]))
      else None
    case DestroyRelease(d) =>
      if d < |s.destroys| && s.destroys[d].Waited? then
        Some(s.(released := true, destroys := s.destroys[d := Finished]))
      else None
    case WorkerTake =>
      if s.worker.Waiting? && s.queue != [] then
        match s.queue[0]
        case Block(b) => Some(s.(queue := s.queue[1..], worker := Running(b)))
        case Kill => Some(s.(queue := s.queue[1..], worker := Exited, signal := true))
      else None
    case WorkerRun =>
      if s.worker.Running? && s.worker.b in s.content then
        Some(s.(ran := s.ran + [s.content[s.worker.b]], worker := Releasing(s.worker.b)))
      else None
    case WorkerRelease =>
      if s.worker.Releasing? then Some(s.(free := s.free + {s.worker.b}, worker := Waiting)) else None
  }

  function Init<J>(n: nat, posters: nat, destroyers: nat): State<J> {
    State([], PoolProofs.Upto(n), map[], false, false, false,
          seq(posters, _ => NotPosting), seq(destroyers, _ => NotDestroying), Waiting, [], [], None)
  }

  // ---------------------------------------------------------------- what the queue holds

  function Blocks(q: seq<Entry>): seq<nat> {
    if q == [] then [] else (if q[0].Block? then [q[0].b] else []) + Blocks(q[1..])
  }

  function BlocksBeforeKill(q: seq<Entry>): seq<nat> {
    if q == [] || q[0].Kill? then [] else [q[0].b] + BlocksBeforeKill(q[1..])
  }

  function Kills(q: seq<Entry>): nat {
    if q == [] then 0 else (if q[0].Kill? then 1 else 0) + Kills(q[1..])
  }

  lemma {:induction false} AppendedBlocks(q: seq<Entry>, e: Entry)
    ensures Blocks(q + [e]) == Blocks(q) + (if e.Block? then [e.b] else [])
    ensures Kills(q + [e]) == Kills(q) + (if e.Kill? then 1 else 0)
  {
    if q == [] {
      assert q + [e] == [e];
    } else {
      assert (q + [e])[1..] == q[1..] + [e];
      AppendedBlocks(q[1..], e);
    }
  }

  lemma {:induction false} AppendedBeforeKill(q: seq<Entry>, e: Entry)
    ensures BlocksBeforeKill(q + [e]) ==
      if Kills(q) == 0 && e.Block? then BlocksBeforeKill(q) + [e.b] else BlocksBeforeKill(q)
  {
    if q == [] {
      assert q + [e] == [e];
    } else {
      assert (q + [e])[1..] == q[1..] + [e];
      AppendedBeforeKill(q[1..], e);
    }
  }

  lemma {:induction false} KillsAndBlocks(q: seq<Entry>)
    ensures |q| == |Blocks(q)| + Kills(q)
    ensures |BlocksBeforeKill(q)| <= |Blocks(q)|
    ensures Kills(q) == 0 ==> BlocksBeforeKill(q) == Blocks(q)
  {
    if q != [] {
      KillsAndBlocks(q[1..]);
    }
  }

  // ---------------------------------------------------------------- the invariant

  predicate HasBlock<J>(p: Post<J>) {
    p.Got? || p.Filled?
  }

  function WorkerBlock(w: Worker): Option<nat> {
    if w.Running? || w.Releasing? then Some(w.b) else None
  }

  /** Every block is free, with one poster, queued once, or with the worker; never in two of these places. */
  ghost predicate BlocksOk<J>(n: nat, free: set<nat>, posts: seq<Post<J>>, queued: seq<nat>, w: Option<nat>) {
    && (forall b: nat :: b in free ==> b < n)
    && PoolModel.Distinct(queued)
    && (forall k :: 0 <= k < |queued| ==> queued[k] < n && queued[k] !in free && Some(queued[k]) != w)
    && (w.Some? ==> w.value < n && w.value !in free)
    && (forall p :: 0 <= p < |posts| && HasBlock(posts[p]) ==>
          posts[p].b < n && posts[p].b !in free && posts[p].b !in queued && Some(posts[p].b) != w)
    && (forall p, p' :: 0 <= p < p' < |posts| && HasBlock(posts[p]) && HasBlock(posts[p']) ==>
          posts[p].b != posts[p'].b)
  }

  /** The functions enqueued are those run, then the one running, then those queued, in that order. */
  ghost predicate LineOk<J>(posted: seq<J>, ran: seq<J>, content: map<nat, J>, queued: seq<nat>, w: Worker) {
    var base := |ran| + if w.Running? then 1 else 0;
    && |posted| == base + |queued|
    && ran <= posted
    && (w.Running? ==> w.b in content && content[w.b] == posted[|ran|])
    && (forall k :: 0 <= k < |queued| ==> queued[k] in content && content[queued[k]] == posted[base + k])
  }

  ghost predicate FilledOk<J>(content: map<nat, J>, posts: seq<Post<J>>) {
    forall p :: 0 <= p < |posts| && posts[p].Filled? ==> posts[p].b in content && content[posts[p].b] == posts[p].j
  }

  /** The destroyer has won the flag and not finished. */
  predicate Active(d: Destroy) {
    d.Flagged? || d.Queued? || d.Waited?
  }

  /** At most one kill is ever queued, by the one destroyer that won the flag. */
  ghost predicate KillOk(destroying: bool, destroys: seq<Destroy>, killAt: Option<nat>, kills: nat, before: nat,
                         ran: nat, w: Worker, signal: bool, released: bool)
  {
    && kills == (if killAt.Some? && !w.Exited? then 1 else 0)
    && (w.Exited? ==> killAt == Some(ran))
    && (killAt.Some? && !w.Exited? ==> ran + (if w.Running? then 1 else 0) + before == killAt.value)
    && (forall d :: 0 <= d < |destroys| && Active(destroys[d]) ==> destroying && !released)
    && (forall d :: 0 <= d < |destroys| && destroys[d].Flagged? ==> killAt.None?)
    && (forall d :: 0 <= d < |destroys| && destroys[d].Waited? ==> w.Exited?)
    && (forall d, d' :: 0 <= d < d' < |destroys| && Active(destroys[d]) ==> !Active(destroys[d']))
    && (killAt.Some? ==> destroying)
    && (signal ==> w.Exited?)
    && (released ==> destroying && w.Exited?)
  }

  ghost predicate Inv<J>(n: nat, s: State<J>) {
    && BlocksOk(n, s.free, s.posts, Blocks(s.queue), WorkerBlock(s.worker))
    && LineOk(s.posted, s.ran, s.content, Blocks(s.queue), s.worker)
    && FilledOk(s.content, s.posts)
    && KillOk(s.destroying, s.destroys, s.killAt, Kills(s.queue), |BlocksBeforeKill(s.queue)|, |s.ran|, s.worker,
              s.signal, s.released)
  }

  lemma CheckKeeps<J>(n: nat, s: State<J>, a: Action<J>)
    requires Inv(n, s) && a.PostCheck? && Step(n, s, a).Some?
    ensures Inv(n, Step(n, s, a).value)
  {
  }

  lemma AllocKeeps<J>(n: nat, s: State<J>, a: Action<J>)
    requires Inv(n, s) && a.PostAlloc? && Step(n, s, a).Some?
    ensures Inv(n, Step(n, s, a).value)
  {
  }

  lemma FilledBlocks<J>(n: nat, free: set<nat>, posts: seq<Post<J>>, queued: seq<nat>, w: Option<nat>, p: nat)
    requires BlocksOk(n, free, posts, queued, w) && p < |posts| && posts[p].Got?
    ensures BlocksOk(n, free, posts[p := Filled(posts[p].b, posts[p].j)], queued, w)
  {
  }

  /** A block that is neither queued nor running is filled in. */
  lemma FilledLine<J>(posted: seq<J>, ran: seq<J>, content: map<nat, J>, queued: seq<nat>, w: Worker, b: nat, j: J)
    requires LineOk(posted, ran, content, queued, w) && b !in queued && (w.Running? ==> w.b != b)
    ensures LineOk(posted, ran, content[b := j], queued, w)
  {
  }

  lemma FillKeeps<J>(n: nat, s: State<J>, a: Action<J>)
    requires Inv(n, s) && a.PostFill? && Step(n, s, a).Some?
    ensures Inv(n, Step(n, s, a).value)
  {
    var b, j := s.posts[a.p].b, s.posts[a.p].j;
    FilledBlocks(n, s.free, s.posts, Blocks(s.queue), WorkerBlock(s.worker), a.p);
    FilledLine(s.posted, s.ran, s.content, Blocks(s.queue), s.worker, b, j);
    hide KillOk, LineOk;
  }

  lemma EnqueuedBlocks<J>(n: nat, free: set<nat>, posts: seq<Post<J>>, queued: seq<nat>, w: Option<nat>, p: nat)
    requires BlocksOk(n, free, posts, queued, w) && p < |posts| && posts[p].Filled?
    ensures BlocksOk(n, free, posts[p := NotPosting], queued + [posts[p].b], w)
  {
  }

  lemma EnqueuedLine<J>(posted: seq<J>, ran: seq<J>, content: map<nat, J>, queued: seq<nat>, w: Worker, b: nat)
    requires LineOk(posted, ran, content, queued, w) && b in content
    ensures LineOk(posted + [content[b]], ran, content, queued + [b], w)
  {
  }

  /** What stands before the kill stays, once there is a kill. */
  lemma EnqueuedBeforeKill(destroying: bool, destroys: seq<Destroy>, killAt: Option<nat>, kills: nat, before: nat,
                           before': nat, ran: nat, w: Worker, signal: bool, released: bool)
    requires KillOk(destroying, destroys, killAt, kills, before, ran, w, signal, released)
    requires kills == 0 || before' == before
    ensures KillOk(destroying, destroys, killAt, kills, before', ran, w, signal, released)
  {
  }

  lemma EnqueueKeeps<J>(n: nat, s: State<J>, a: Action<J>)
    requires Inv(n, s) && a.PostEnqueue? && Step(n, s, a).Some?
    ensures Inv(n, Step(n, s, a).value)
  {
    var b, s' := s.posts[a.p].b, Step(n, s, a).value;
    hide BlocksOk, LineOk, KillOk;
    AppendedBlocks(s.queue, Block(b));
    AppendedBeforeKill(s.queue, Block(b));
    EnqueuedBlocks(n, s.free, s.posts, Blocks(s.queue), WorkerBlock(s.worker), a.p);
    EnqueuedLine(s.posted, s.ran, s.content, Blocks(s.queue), s.worker, b);
    EnqueuedBeforeKill(s.destroying, s.destroys, s.killAt, Kills(s.queue), |BlocksBeforeKill(s.queue)|,
                       |BlocksBeforeKill(s'.queue)|, |s.ran|, s.worker, s.signal, s.released);
  }

  lemma FlagKeeps<J>(n: nat, s: State<J>, a: Action<J>)
    requires Inv(n, s) && a.DestroyFlag? && Step(n, s, a).Some?
    ensures Inv(n, Step(n, s, a).value)
  {
  }

  lemma QueuedKill(destroying: bool, destroys: seq<Destroy>, kills: nat, before: nat, ran: nat, w: Worker, signal: bool,
                   released: bool, d: nat, killAt: Option<nat>, posted: nat)
    requires KillOk(destroying, destroys, killAt, kills, before, ran, w, signal, released)
    requires d < |destroys| && destroys[d].Flagged?
    requires kills == 0 ==> posted == ran + (if w.Running? then 1 else 0) + before
    ensures kills == 0
    ensures KillOk(destroying, destroys[d := Queued], Some(posted), 1, before, ran, w, signal, released)
  {
  }

  lemma KillKeeps<J>(n: nat, s: State<J>, a: Action<J>)
    requires Inv(n, s) && a.DestroyKill? && Step(n, s, a).Some?
    ensures Inv(n, Step(n, s, a).value)
  {
    KillsAndBlocks(s.queue);
    AppendedBlocks(s.queue, Kill);
    AppendedBeforeKill(s.queue, Kill);
    assert Blocks(s.queue + [Kill]) == Blocks(s.queue);
    QueuedKill(s.destroying, s.destroys, Kills(s.queue), |BlocksBeforeKill(s.queue)|, |s.ran|, s.worker, s.signal,
               s.released, a.d, s.killAt, |s.posted|);
  }

  lemma WaitKeeps<J>(n: nat, s: State<J>, a: Action<J>)
    requires Inv(n, s) && a.DestroyWait? && Step(n, s, a).Some?
    ensures Inv(n, Step(n, s, a).value)
  {
  }

  lemma DestroyedKeeps<J>(n: nat, s: State<J>, a: Action<J>)
    requires Inv(n, s) && a.DestroyRelease? && Step(n, s, a).Some?
    ensures Inv(n, Step(n, s, a).value)
  {
  }

  lemma TakenBlocks<J>(n: nat, free: set<nat>, posts: seq<Post<J>>, queued: seq<nat>)
    requires queued != [] && BlocksOk(n, free, posts, queued, None)
    ensures BlocksOk(n, free, posts, queued[1..], Some(queued[0]))
  {
  }

  lemma TakenLine<J>(posted: seq<J>, ran: seq<J>, content: map<nat, J>, queued: seq<nat>)
    requires queued != [] && LineOk(posted, ran, content, queued, Waiting)
    ensures LineOk(posted, ran, content, queued[1..], Running(queued[0]))
  {
  }

  lemma TakeBlockKeeps<J>(n: nat, s: State<J>)
    requires Inv(n, s) && s.worker.Waiting? && s.queue != [] && s.queue[0].Block?
    ensures Inv(n, Step(n, s, WorkerTake).value)
  {
    KillsAndBlocks(s.queue);
    assert Blocks(s.queue)[1..] == Blocks(s.queue[1..]);
    TakenBlocks(n, s.free, s.posts, Blocks(s.queue));
    TakenLine(s.posted, s.ran, s.content, Blocks(s.queue));
  }

  lemma TakenKill(destroying: bool, destroys: seq<Destroy>, killAt: Option<nat>, kills: nat, before: nat, ran: nat,
                  signal: bool, released: bool)
    requires KillOk(destroying, destroys, killAt, kills, 0, ran, Waiting, signal, released) && kills > 0
    ensures KillOk(destroying, destroys, killAt, kills - 1, before, ran, Exited, true, released)
  {
  }

  lemma TakeKillKeeps<J>(n: nat, s: State<J>)
    requires Inv(n, s) && s.worker.Waiting? && s.queue != [] && s.queue[0].Kill?
    ensures Inv(n, Step(n, s, WorkerTake).value)
  {
    hide BlocksOk, FilledOk;
    KillsAndBlocks(s.queue);
    assert Blocks(s.queue) == Blocks(s.queue[1..]);
    assert BlocksBeforeKill(s.queue) == [];
    TakenKill(s.destroying, s.destroys, s.killAt, Kills(s.queue), |BlocksBeforeKill(s.queue[1..])|, |s.ran|, s.signal,
              s.released);
    assert LineOk(s.posted, s.ran, s.content, Blocks(s.queue[1..]), Exited);
  }

  lemma RunKeeps<J>(n: nat, s: State<J>, a: Action<J>)
    requires Inv(n, s) && a.WorkerRun? && Step(n, s, a).Some?
    ensures Inv(n, Step(n, s, a).value)
  {
  }

  lemma ReleasedBlocks<J>(n: nat, free: set<nat>, posts: seq<Post<J>>, queued: seq<nat>, b: nat)
    requires BlocksOk(n, free, posts, queued, Some(b))
    ensures BlocksOk(n, free + {b}, posts, queued, None)
  {
  }

  lemma ReleaseKeeps<J>(n: nat, s: State<J>, a: Action<J>)
    requires Inv(n, s) && a.WorkerRelease? && Step(n, s, a).Some?
    ensures Inv(n, Step(n, s, a).value)
  {
    hide BlocksOk, FilledOk;
    ReleasedBlocks(n, s.free, s.posts, Blocks(s.queue), s.worker.b);
  }

  lemma StepKeepsInv<J>(n: nat, s: State<J>, a: Action<J>)
    requires Inv(n, s) && Step(n, s, a).Some?
    ensures Inv(n, Step(n, s, a).value)
  {
    match a
    case PostCheck(_, _) => CheckKeeps(n, s, a);
    case PostAlloc(_, _) => AllocKeeps(n, s, a);
    case PostFill(_) => FillKeeps(n, s, a);
    case PostEnqueue(_) => EnqueueKeeps(n, s, a);
    case DestroyFlag(_) => FlagKeeps(n, s, a);
    case DestroyKill(_) => KillKeeps(n, s, a);
    case DestroyWait(_) => WaitKeeps(n, s, a);
    case DestroyRelease(_) => DestroyedKeeps(n, s, a);
    case WorkerTake =>
      if s.queue[0].Block? {
        TakeBlockKeeps(n, s);
      } else {
        TakeKillKeeps(n, s);
      }
    case WorkerRun => RunKeeps(n, s, a);
    case WorkerRelease => ReleaseKeeps(n, s, a);
  }

  // ---------------------------------------------------------------- every run

  /** The state after a run with any numbers of posting and destroying threads; None if an action was not possible. */
  ghost function After<J>(n: nat, posters: nat, destroyers: nat, run: seq<Action<J>>): (r: Option<State<J>>)
    ensures r.Some? ==> Inv(n, r.value)
  {
    if run == [] then Some(Init(n, posters, destroyers))
    else
      var before := After(n, posters, destroyers, run[..|run| - 1]);
      if before.None? then None
      else
        var r := Step(n, before.value, run[|run| - 1]);
        if r.Some? then StepKeepsInv(n, before.value, run[|run| - 1]); r else None
  }

  /** The functions run are, in order and once each, a prefix of those enqueued; when the worker has exited they are
      exactly those enqueued before the kill. */
  lemma RunsWhatWasEnqueuedBeforeKill<J>(n: nat, posters: nat, destroyers: nat, run: seq<Action<J>>, s: State<J>)
    requires After(n, posters, destroyers, run) == Some(s)
    ensures s.ran <= s.posted
    ensures s.worker.Exited? ==>
      s.killAt.Some? && s.killAt.value <= |s.posted| && s.ran == s.posted[..s.killAt.value]
    ensures s.killAt.Some? ==> |s.ran| <= s.killAt.value
  {
  }

  /** A function is run from the block it was posted in: nobody has touched the block since it was filled. */
  lemma RunsTheFunctionPosted<J>(n: nat, posters: nat, destroyers: nat, run: seq<Action<J>>, s: State<J>)
    requires After(n, posters, destroyers, run) == Some(s) && s.worker.Running?
    ensures |s.ran| < |s.posted| && Step(n, s, WorkerRun).Some?
    ensures Step(n, s, WorkerRun).value.ran == s.ran + [s.posted[|s.ran|]]
  {
  }

  /** Until a kill is queued an enqueue in dispatch_async_f cannot fail. */
  lemma EnqueueHasRoom<J>(n: nat, posters: nat, destroyers: nat, run: seq<Action<J>>, s: State<J>, p: nat)
    requires After(n, posters, destroyers, run) == Some(s) && p < |s.posts| && s.posts[p].Filled?
    requires s.killAt.None?
    ensures Step(n, s, PostEnqueue(p)).Some?
  {
    KillsAndBlocks(s.queue);
    PoolProofs.Pigeonhole(Blocks(s.queue), n, s.posts[p].b);
  }

  /** Before the release an enqueue in dispatch_async_f fails exactly when the kill is still queued along with every
      other block; after it there is no queue. */
  lemma EnqueueFailsOnlyBehindKill<J>(n: nat, posters: nat, destroyers: nat, run: seq<Action<J>>, s: State<J>, p: nat)
    requires After(n, posters, destroyers, run) == Some(s) && p < |s.posts| && s.posts[p].Filled?
    ensures Step(n, s, PostEnqueue(p)).None? <==> s.released || (Kills(s.queue) == 1 && |Blocks(s.queue)| == n - 1)
  {
    KillsAndBlocks(s.queue);
    PoolProofs.Pigeonhole(Blocks(s.queue), n, s.posts[p].b);
  }

  /** The kill itself finds no room exactly when every block is queued. */
  lemma KillFailsOnlyWhenFull<J>(n: nat, posters: nat, destroyers: nat, run: seq<Action<J>>, s: State<J>, d: nat)
    requires After(n, posters, destroyers, run) == Some(s) && d < |s.destroys| && s.destroys[d].Flagged?
    ensures Step(n, s, DestroyKill(d)).None? <==> |Blocks(s.queue)| == n
  {
    KillsAndBlocks(s.queue);
    PoolProofs.AtMost(Blocks(s.queue), n);
  }

  /** Live queue entries are distinct allocated blocks, and at most one kill. */
  lemma EntriesAreDistinctBlocks<J>(n: nat, posters: nat, destroyers: nat, run: seq<Action<J>>, s: State<J>)
    requires After(n, posters, destroyers, run) == Some(s)
    ensures PoolModel.Distinct(Blocks(s.queue)) && Kills(s.queue) <= 1
    ensures forall k :: 0 <= k < |Blocks(s.queue)| ==> Blocks(s.queue)[k] < n && Blocks(s.queue)[k] !in s.free
    ensures forall d, e :: 0 <= d < e < |s.destroys| && s.destroys[d].Queued? ==> !s.destroys[e].Queued?
  {
  }

  // ---------------------------------------------------------------- posts and the release

  /** The state after a run from `s`. */
  function From<J>(n: nat, s: State<J>, run: seq<Action<J>>): Option<State<J>>
    decreases |run|
  {
    if run == [] then Some(s)
    else
      match From(n, s, run[..|run| - 1])
      case None => None
      case Some(s1) => Step(n, s1, run[|run| - 1])
  }

  /** No thread is inside dispatch_async_f. */
  predicate NobodyPosts<J>(s: State<J>) {
    forall p :: 0 <= p < |s.posts| ==> s.posts[p].NotPosting?
  }

  lemma NobodyEnters<J>(n: nat, s: State<J>, a: Action<J>)
    requires s.destroying && NobodyPosts(s) && Step(n, s, a).Some?
    ensures Step(n, s, a).value.destroying && NobodyPosts(Step(n, s, a).value)
  {
  }

  /** Once the flag is set nobody gets into a post any more. */
  lemma {:induction false} NobodyStartsToPost<J>(n: nat, s: State<J>, run: seq<Action<J>>, s': State<J>)
    requires s.destroying && NobodyPosts(s) && From(n, s, run) == Some(s')
    ensures s'.destroying && NobodyPosts(s')
    decreases |run|
  {
    hide Step, NobodyPosts;
    if run != [] {
      var s1 := From(n, s, run[..|run| - 1]).value;
      NobodyStartsToPost(n, s, run[..|run| - 1], s1);
      NobodyEnters(n, s1, run[|run| - 1]);
    }
  }

  lemma Then<J>(n: nat, s: State<J>, run: seq<Action<J>>, s1: State<J>, a: Action<J>)
      returns (run': seq<Action<J>>, s2: State<J>)
    requires From(n, s, run) == Some(s1) && Step(n, s1, a).Some?
    ensures From(n, s, run') == Some(s2) && Some(s2) == Step(n, s1, a)
  {
    run', s2 := run + [a], Step(n, s1, a).value;
    assert run'[..|run|] == run;
  }

  /** Nothing but the worker has gone on. */
  ghost predicate OnlyWorked<J>(s: State<J>, s': State<J>) {
    && s'.posts == s.posts && s'.destroys == s.destroys && s'.killAt == s.killAt && s'.destroying == s.destroying
    && s'.released == s.released
  }

  /** With no kill queued the worker can take the next block, and run and release it. */
  lemma WorkerCanGoOn<J>(n: nat, s: State<J>) returns (a: Action<J>)
    requires Inv(n, s) && s.killAt.None? && (s.queue != [] || !s.worker.Waiting?)
    ensures Step(n, s, a).Some? && Inv(n, Step(n, s, a).value) && OnlyWorked(s, Step(n, s, a).value)
    ensures Work(Step(n, s, a).value) < Work(s)
  {
    a := if s.worker.Waiting? then WorkerTake else if s.worker.Running? then WorkerRun else WorkerRelease;
    StepKeepsInv(n, s, a);
  }

  /** How many steps the worker has to make until it waits before an empty queue. */
  function Work<J>(s: State<J>): nat {
    3 * |s.queue| + if s.worker.Running? then 2 else if s.worker.Releasing? then 1 else 0
  }

  lemma {:induction false} WorkerCanFinish<J>(n: nat, s0: State<J>, run0: seq<Action<J>>, s: State<J>)
      returns (run: seq<Action<J>>, s': State<J>)
    requires From(n, s0, run0) == Some(s) && Inv(n, s) && s.killAt.None?
    ensures From(n, s0, run) == Some(s') && Inv(n, s') && OnlyWorked(s, s')
    ensures s'.queue == [] && s'.worker.Waiting?
    decreases Work(s)
  {
    if s.queue == [] && s.worker.Waiting? {
      run, s' := run0, s;
    } else {
      var a := WorkerCanGoOn(n, s);
      var run1, s1 := Then(n, s0, run0, s, a);
      run, s' := WorkerCanFinish(n, s0, run1, s1);
    }
  }

  /** The thread that has won the flag can get to the release while every post stands still. */
  lemma ReleaseCanComeFirst<J>(n: nat, s: State<J>, d: nat) returns (run: seq<Action<J>>, s': State<J>)
    requires n > 0 && Inv(n, s) && d < |s.destroys| && s.destroys[d].Flagged?
    ensures From(n, s, run) == Some(s') && s'.released && s'.posts == s.posts
  {
    run, s' := WorkerCanFinish(n, s, [], s);
    hide From;
    run, s' := Then(n, s, run, s', DestroyKill(d));
    run, s' := Then(n, s, run, s', WorkerTake);
    run, s' := Then(n, s, run, s', DestroyWait(d));
    run, s' := Then(n, s, run, s', DestroyRelease(d));
  }

  /** No post is overtaken by the release of pool and queue, in any run that follows, exactly if no thread is inside
      dispatch_async_f when dispatch_queue_destroy has set the flag. */
  lemma ReleaseOvertakesNoPostIff<J>(n: nat, posters: nat, destroyers: nat, run: seq<Action<J>>, s: State<J>, d: nat)
    requires n > 0 && After(n, posters, destroyers, run) == Some(s) && d < |s.destroys| && s.destroys[d].Flagged?
    ensures (forall more, s' :: From(n, s, more) == Some(s') && s'.released ==> NobodyPosts(s')) <==> NobodyPosts(s)
  {
    if NobodyPosts(s) {
      forall more, s' | From(n, s, more) == Some(s') && s'.released ensures NobodyPosts(s') {
        NobodyStartsToPost(n, s, more, s');
      }
    } else {
      var more, s' := ReleaseCanComeFirst(n, s, d);
      assert !NobodyPosts(s');
    }
  }

  // ---------------------------------------------------------------- what is posted

  /** The post has begun with function `j` and not ended. */
  ghost predicate Carries<J>(s: State<J>, p: nat, j: J) {
    p < |s.posts| && !s.posts[p].NotPosting? && s.posts[p].j == j
  }

  lemma StepKeepsFunction<J>(n: nat, s: State<J>, a: Action<J>, p: nat, j: J)
    requires Carries(s, p, j) && a != PostEnqueue(p) && Step(n, s, a).Some?
    ensures Carries(Step(n, s, a).value, p, j)
  {
  }

  lemma {:induction false} RunKeepsFunction<J>(n: nat, s: State<J>, run: seq<Action<J>>, s': State<J>, p: nat, j: J)
    requires Carries(s, p, j) && From(n, s, run) == Some(s')
    requires forall k :: 0 <= k < |run| ==> run[k] != PostEnqueue(p)
    ensures Carries(s', p, j)
    decreases |run|
  {
    hide Step, Carries;
    if run != [] {
      var s1 := From(n, s, run[..|run| - 1]).value;
      RunKeepsFunction(n, s, run[..|run| - 1], s1, p, j);
      StepKeepsFunction(n, s1, run[|run| - 1], p, j);
    }
  }

  lemma CheckIs<J>(n: nat, s: State<J>, p: nat, j: J, s': State<J>)
    requires Step(n, s, PostCheck(p, j)) == Some(s')
    ensures s' == if s.destroying then s else s.(posts := s.posts[p := Checked(j)])
    ensures !s.destroying ==> Carries(s', p, j)
  {
  }

  lemma EnqueueIs<J>(n: nat, s: State<J>, p: nat, s': State<J>)
    requires Step(n, s, PostEnqueue(p)) == Some(s')
    ensures p < |s.posts| && s.posts[p].Filled?
    ensures s'.posted == s.posted + [s.posts[p].j] && s'.queue == s.queue + [Block(s.posts[p].b)]
  {
  }

  /** A post that passes the destroying check enqueues the function it was given, in the block it was allocated,
      whatever other threads do between its steps; one that does not pass changes nothing. */
  lemma PostsTheFunctionGiven<J>(n: nat, posters: nat, destroyers: nat, run: seq<Action<J>>, s0: State<J>, p: nat, j: J,
                                 s1: State<J>, mid: seq<Action<J>>, s: State<J>, s': State<J>)
    requires After(n, posters, destroyers, run) == Some(s0) && Step(n, s0, PostCheck(p, j)) == Some(s1)
    requires From(n, s1, mid) == Some(s) && forall k :: 0 <= k < |mid| ==> mid[k] != PostEnqueue(p)
    requires Step(n, s, PostEnqueue(p)) == Some(s')
    ensures s0.destroying ==> s1 == s0
    ensures p < |s.posts| && s.posts[p].Filled? && (!s0.destroying ==> s'.posted == s.posted + [j])
    ensures s'.queue == s.queue + [Block(s.posts[p].b)]
  {
    CheckIs(n, s0, p, j, s1);
    EnqueueIs(n, s, p, s');
    hide Step, After, From, Inv;
    if !s0.destroying {
      RunKeepsFunction(n, s1, mid, s, p, j);
    }
  }

  // ---------------------------------------------------------------- both assertions can fail

  lemma Next<J>(run: seq<Action<J>>, s: State<J>, a: Action<J>) returns (run': seq<Action<J>>, s': State<J>)
    requires After(1, 1, 1, run) == Some(s) && Step(1, s, a).Some?
    ensures run' == run + [a] && After(1, 1, 1, run') == Some(s') && Some(s') == Step(1, s, a)
  {
    run', s' := run + [a], Step(1, s, a).value;
    assert run'[..|run|] == run;
  }

  /** One block, one poster and one destroyer: the poster has filled the block and not yet enqueued it. */
  lemma BlockCanBeFilled<J>(j: J) returns (run: seq<Action<J>>, s: State<J>)
    ensures After(1, 1, 1, run) == Some(s)
    ensures |s.posts| == |s.destroys| == 1 && s.posts[0] == Filled(0, j) && s.destroys[0] == NotDestroying
    ensures s.queue == [] && !s.destroying && !s.released
  {
    assert After(1, 1, 1, []) == Some(Init<J>(1, 1, 1));
    hide Inv, After;
    run, s := Next([], Init(1, 1, 1), PostCheck(0, j));
    run, s := Next(run, s, PostAlloc(0, 0));
    run, s := Next(run, s, PostFill(0));
  }

  /** A post that has passed the destroying check can find the queue filled by the kill. */
  lemma EnqueueCanFail<J>(j: J) returns (run: seq<Action<J>>, s: State<J>)
    ensures After(1, 1, 1, run) == Some(s) && |s.posts| == 1 && s.posts[0] == Filled(0, j)
    ensures Step(1, s, PostEnqueue(0)).None? && !s.released
  {
    hide Inv, After;
    run, s := BlockCanBeFilled(j);
    run, s := Next(run, s, DestroyFlag(0));
    run, s := Next(run, s, DestroyKill(0));
  }

  /** A kill can find the queue filled by a function that has yet to run. */
  lemma KillCanFail<J>(j: J) returns (run: seq<Action<J>>, s: State<J>)
    ensures After(1, 1, 1, run) == Some(s) && |s.destroys| == 1 && s.destroys[0] == Flagged
    ensures Step(1, s, DestroyKill(0)).None?
  {
    hide Inv, After;
    run, s := BlockCanBeFilled(j);
    run, s := Next(run, s, PostEnqueue(0));
    run, s := Next(run, s, DestroyFlag(0));
  }
}
