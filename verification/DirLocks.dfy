/**
 The directory locks (src/vfs.py): one per directory, made when wanted and dropped when nobody wants it,
 re-entrant per task, taken in sorted order.

 Each method is what a task runs between two awaits; tasks interleave only between methods, so what `Valid`
 says holds in every reachable state of any number of tasks. The lock itself is asyncio's: a flag and a queue
 of futures, where the head is woken on release and claims the lock when it runs.
 */
module DirLocks {
  import opened Wrappers
  import opened Bytes
  import opened Tags

  type Task = nat
  type EntryId = nat

  // A queued future: `woken` is its result set, `cancelled` its task's cancellation, delivered or about to be.
  datatype Waiter = Waiter(task: Task, woken: bool, cancelled: bool)

  // A `_DirLock`: the lock's flag and queue, and how many want it.
  datatype Entry = Entry(locked: bool, waiters: seq<Waiter>, users: nat)

  // One `async with _locked_dirs(...)` of a task: what it has taken, what it still wants, what it is queued for.
  datatype Frame = Frame(taken: seq<(Id, EntryId)>, todo: seq<Id>, waiting: Option<EntryId>)

  // ------------------------------------------------------------------ sorted order

  predicate Below(a: Id, b: Id) { LexLeq(a, b) && a != b }

  predicate Ascending(s: seq<Id>) { forall i, j :: 0 <= i < j < |s| ==> Below(s[i], s[j]) }

  lemma BelowChain(a: Id, b: Id, c: Id)
    requires Below(a, b) && Below(b, c)
    ensures Below(a, c)
  {
    LexTransitive(a, b, c);
    if a == c { LexAntisymmetric(a, b); }
  }

  lemma BelowTotal(a: Id, b: Id)
    ensures a == b || Below(a, b) || Below(b, a)
  {
    LexTotal(a, b);
  }

  lemma NotBelowBack(a: Id, b: Id)
    requires Below(a, b)
    ensures !Below(b, a)
  {
    if Below(b, a) { LexAntisymmetric(a, b); }
  }

  // `sorted` of a set.
  method SortIds(ids: set<Id>) returns (s: seq<Id>)
    ensures Ascending(s) && forall d :: d in s <==> d in ids
  {
    s := [];
    var left := ids;
    while left != {}
      invariant left <= ids && Ascending(s) && forall d :: d in ids <==> d in left || d in s
      invariant forall a, b :: a in s && b in left ==> Below(a, b)
      decreases left
    {
      var least := LeastOf(left);
      left := left - {least};
      s := s + [least];
    }
  }

  method LeastOf(ids: set<Id>) returns (least: Id)
    requires ids != {}
    ensures least in ids && forall d :: d in ids && d != least ==> Below(least, d)
  {
    least :| least in ids;
    var left := ids - {least};
    while left != {}
      invariant least in ids && least !in left && left <= ids
      invariant forall d :: d in ids && d !in left && d != least ==> Below(least, d)
      decreases left
    {
      var d :| d in left;
      left := left - {d};
      BelowTotal(d, least);
      if LexLeq(d, least) {
        forall c | c in ids && c !in left && c != d ensures Below(d, c) {
          if c != least { BelowChain(d, least, c); }
        }
        least := d;
      }
    }
  }

  // ------------------------------------------------------------------ frames

  function Dirs(taken: seq<(Id, EntryId)>): seq<Id> { seq(|taken|, i requires 0 <= i < |taken| => taken[i].0) }

  // Every directory a task's frames have taken, outermost first.
  function Flat(fs: seq<Frame>): seq<Id> {
    if fs == [] then [] else Flat(fs[..|fs| - 1]) + Dirs(fs[|fs| - 1].taken)
  }

  predicate NoRepeat(s: seq<Id>) { forall i, j :: 0 <= i < j < |s| ==> s[i] != s[j] }

  function Top(fs: seq<Frame>): Frame
    requires fs != []
  {
    fs[|fs| - 1]
  }

  function WithTop(fs: seq<Frame>, f: Frame): seq<Frame>
    requires fs != []
  {
    fs[..|fs| - 1] + [f]
  }

  lemma FlatTop(fs: seq<Frame>, f: Frame)
    ensures Flat(fs + [f]) == Flat(fs) + Dirs(f.taken)
  {
    assert (fs + [f])[..|fs|] == fs;
  }

  predicate Waits(fs: seq<Frame>) { fs != [] && Top(fs).waiting.Some? }

  // ------------------------------------------------------------------ entries

  // The queue is fair, nobody but its head is ever woken, and an unlocked lock never has a sleeping head.
  predicate QueueOk(x: Entry) {
    && (forall i :: 0 < i < |x.waiters| ==> !x.waiters[i].woken)
    && (x.waiters != [] && x.waiters[0].woken ==> !x.locked)
    && (x.waiters != [] && !x.locked ==> x.waiters[0].woken || x.waiters[0].cancelled)
    && (forall i, j :: 0 <= i < j < |x.waiters| ==> x.waiters[i].task != x.waiters[j].task)
  }

  // Users are the holder, if any, and the waiters.
  predicate CountOk(x: Entry) { x.users == |x.waiters| + (if x.locked then 1 else 0) }

  // `_wake_up_first`.
  function Woken(x: Entry): Entry {
    if x.waiters != [] && !x.waiters[0].cancelled then x.(waiters := [x.waiters[0].(woken := true)] + x.waiters[1..]) else x
  }

  function IndexOf(ws: seq<Waiter>, t: Task): (i: nat)
    requires exists k :: 0 <= k < |ws| && ws[k].task == t
    ensures i < |ws| && ws[i].task == t
  {
    if ws[0].task == t then 0 else 1 + IndexOf(ws[1..], t)
  }

  // ------------------------------------------------------------------ the tables

  // `_dir_locks` and the lock objects it holds; `_dirs_held_by`; and where each task is in its calls.
  datatype Locks = Locks(registry: map<Id, EntryId>, entries: map<EntryId, Entry>, heldBy: map<Task, set<Id>>,
                         frames: map<Task, seq<Frame>>, nextEntry: EntryId)
  {
    function Held(t: Task): set<Id> { if t in heldBy then heldBy[t] else {} }

    predicate Holds(t: Task, d: Id) { d in Held(t) }

    function FramesOf(t: Task): seq<Frame> { if t in frames then frames[t] else [] }

    // The lock object a directory has now.
    predicate Has(d: Id) { d in registry && registry[d] in entries }

    function EntryOf(d: Id): Entry
      requires Has(d)
    {
      entries[registry[d]]
    }

    // The task is queued for that directory.
    predicate WaitsFor(t: Task, d: Id) {
      Waits(FramesOf(t)) && var f := Top(FramesOf(t));
      f.todo != [] && f.todo[0] == d && d in registry && f.waiting == Some(registry[d])
    }

    ghost predicate InQueue(t: Task, d: Id) {
      Has(d) && exists k :: 0 <= k < |EntryOf(d).waiters| && EntryOf(d).waiters[k].task == t
    }
  }

  // ------------------------------------------------------------------ the invariant

  ghost predicate EntryOk(s: Locks, owner: map<Id, Task>, d: Id) {
    d in s.registry ==>
      && s.Has(d) && s.registry[d] < s.nextEntry
      && QueueOk(s.EntryOf(d)) && CountOk(s.EntryOf(d)) && s.EntryOf(d).users > 0
      && (s.EntryOf(d).locked <==> d in owner)
      && forall i :: 0 <= i < |s.EntryOf(d).waiters| ==> s.WaitsFor(s.EntryOf(d).waiters[i].task, d)
  }

  ghost predicate FrameOk(s: Locks, t: Task, f: Frame) {
    && (forall k :: 0 <= k < |f.taken| ==> f.taken[k].0 in s.registry && s.registry[f.taken[k].0] == f.taken[k].1)
    && Ascending(Dirs(f.taken) + f.todo)
    && (forall k :: 0 <= k < |f.todo| ==> !s.Holds(t, f.todo[k]))
  }

  ghost predicate TaskOk(s: Locks, t: Task) {
    && RestOk(s, t)
    && (Waits(s.FramesOf(t)) ==> Top(s.FramesOf(t)).todo != [] && s.WaitsFor(t, Wanted(s, t)) && s.InQueue(t, Wanted(s, t)))
  }

  // A task's own books, but for its place in a queue.
  ghost predicate RestOk(s: Locks, t: Task) {
    var fs := s.FramesOf(t);
    && (forall i :: 0 <= i < |fs| ==> FrameOk(s, t, fs[i]))
    && (forall i :: 0 <= i < |fs| - 1 ==> fs[i].todo == [] && fs[i].waiting.None?)
    && NoRepeat(Flat(fs)) && (forall d :: d in Flat(fs) <==> s.Holds(t, d))
    && (t in s.heldBy ==> fs != [])
  }

  ghost predicate Owned(s: Locks, owner: map<Id, Task>) {
    && owner.Keys <= s.registry.Keys
    && forall t, d :: s.Holds(t, d) <==> d in owner && owner[d] == t
  }

  ghost predicate OneEach(s: Locks) {
    forall a, b :: a in s.registry && b in s.registry && s.registry[a] == s.registry[b] ==> a == b
  }

  ghost predicate Inv(s: Locks, owner: map<Id, Task>) {
    && (forall d :: d in s.registry ==> EntryOk(s, owner, d))
    && OneEach(s) && Owned(s, owner) && (forall t :: TaskOk(s, t))
  }

  // ------------------------------------------------------------------ what it is for

  /** No directory is ever held by two tasks, however often its lock object was dropped and made again. */
  lemma MutualExclusion(s: Locks, owner: map<Id, Task>, t: Task, u: Task, d: Id)
    requires Inv(s, owner) && s.Holds(t, d) && s.Holds(u, d)
    ensures t == u
  {
    hide TaskOk, EntryOk;
  }

  /** A directory is registered exactly while somebody holds it or is queued for it. */
  lemma RegistryIsExact(s: Locks, owner: map<Id, Task>, d: Id)
    requires Inv(s, owner)
    ensures d in s.registry <==> exists t :: s.Holds(t, d) || s.WaitsFor(t, d)
  {
    if d in s.registry {
      assert EntryOk(s, owner, d);
      var x := s.EntryOf(d);
      if x.locked {
        assert s.Holds(owner[d], d);
      } else {
        assert s.WaitsFor(x.waiters[0].task, d);
      }
    }
  }

  function TasksOf(ws: seq<Waiter>): set<Task> { set i | 0 <= i < |ws| :: ws[i].task }

  lemma {:induction false} DistinctTasks(ws: seq<Waiter>)
    requires forall i, j :: 0 <= i < j < |ws| ==> ws[i].task != ws[j].task
    ensures |TasksOf(ws)| == |ws|
  {
    if ws != [] {
      var n := |ws| - 1;
      DistinctTasks(ws[..n]);
      assert TasksOf(ws) == TasksOf(ws[..n]) + {ws[n].task} by {
        forall t | t in TasksOf(ws) ensures t in TasksOf(ws[..n]) + {ws[n].task} {
          var i :| 0 <= i < |ws| && ws[i].task == t;
          if i < n { assert ws[..n][i].task == t; }
        }
        forall t | t in TasksOf(ws[..n]) ensures t in TasksOf(ws) {
          var i :| 0 <= i < n && ws[..n][i].task == t;
          assert ws[i].task == t;
        }
      }
    }
  }

  /** `users` counts the tasks that hold the directory and the tasks that are queued for it, each once. */
  lemma UsersAreCounted(s: Locks, owner: map<Id, Task>, d: Id)
    requires Inv(s, owner) && s.Has(d)
    ensures var holders := set t | t in s.heldBy && s.Holds(t, d);
            var waiters := set t | t in s.frames && s.WaitsFor(t, d);
            s.EntryOf(d).users == |holders| + |waiters|
  {
    assert EntryOk(s, owner, d);
    var x := s.EntryOf(d);
    var holders := set t | t in s.heldBy && s.Holds(t, d);
    var waiters := set t | t in s.frames && s.WaitsFor(t, d);
    DistinctTasks(x.waiters);
    assert waiters == TasksOf(x.waiters) by {
      forall t | t in waiters ensures t in TasksOf(x.waiters) {
        assert TaskOk(s, t);
        assert s.InQueue(t, d);
      }
    }
    if x.locked {
      assert s.Holds(owner[d], d);
      assert holders == {owner[d]};
    } else {
      assert holders == {};
    }
  }

  // ------------------------------------------------------------------ the steps, on tables

  // At the end of every call so far, or inside the innermost one's body.
  predicate Running(s: Locks, t: Task) { s.FramesOf(t) == [] || (Top(s.FramesOf(t)).todo == [] && Top(s.FramesOf(t)).waiting.None?) }

  function Entered(s: Locks, t: Task, wanted: seq<Id>): Locks {
    s.(frames := s.frames[t := s.FramesOf(t) + [Frame([], wanted, None)]], heldBy := s.heldBy[t := s.Held(t)])
  }

  // Still on its way through the directories it wants, and not queued.
  predicate Asking(s: Locks, t: Task) {
    s.FramesOf(t) != [] && Top(s.FramesOf(t)).todo != [] && Top(s.FramesOf(t)).waiting.None?
  }

  function Wanted(s: Locks, t: Task): Id
    requires s.FramesOf(t) != [] && Top(s.FramesOf(t)).todo != []
  {
    Top(s.FramesOf(t)).todo[0]
  }

  // The registered lock object, or a new one.
  function Found(s: Locks, d: Id): Entry { if s.Has(d) then s.EntryOf(d) else Entry(false, [], 0) }

  function Registered(s: Locks, d: Id, x: Entry): (r: Locks)
    ensures r.Has(d) && r.EntryOf(d) == x
  {
    if s.Has(d) then s.(entries := s.entries[s.registry[d] := x])
    else s.(registry := s.registry[d := s.nextEntry], entries := s.entries[s.nextEntry := x], nextEntry := s.nextEntry + 1)
  }

  predicate Free(x: Entry) { !x.locked && forall i :: 0 <= i < |x.waiters| ==> x.waiters[i].cancelled && !x.waiters[i].woken }

  // The lock is `t`'s: noted, and off its list.
  function Taken(s: Locks, t: Task): Locks
    requires s.FramesOf(t) != [] && Top(s.FramesOf(t)).todo != [] && s.Has(Wanted(s, t))
  {
    var fs, d := s.FramesOf(t), Wanted(s, t);
    var e, f := s.registry[d], Top(fs);
    s.(heldBy := s.heldBy[t := s.Held(t) + {d}],
       frames := s.frames[t := WithTop(fs, Frame(f.taken + [(d, e)], f.todo[1..], None))])
  }

  function Without(ws: seq<Waiter>, i: nat): seq<Waiter>
    requires i < |ws|
  {
    ws[..i] + ws[i + 1..]
  }

  // One user fewer; nobody left means the lock object is forgotten.
  function Forgotten(s: Locks, d: Id, x: Entry): Locks
    requires s.Has(d) && x.users > 0
  {
    var x' := x.(users := x.users - 1);
    var s' := s.(entries := s.entries[s.registry[d] := x']);
    if x'.users == 0 then s'.(registry := s'.registry - {d}) else s'
  }

  // ------------------------------------------------------------------ what a step leaves of everything else

  // Only `t`'s frames and notes, only `d`'s lock object, and only who has `d`.
  ghost predicate OnlyThere(s: Locks, owner: map<Id, Task>, s': Locks, owner': map<Id, Task>, t: Task, d: Id) {
    && OnlyTask(s, s', t) && OnlyDir(s, s', d)
    && (forall c :: c != d ==> (c in owner' <==> c in owner)) && (forall c :: c != d && c in owner ==> owner'[c] == owner[c])
    && (Waits(s.FramesOf(t)) ==> s.WaitsFor(t, d))
  }

  ghost predicate OnlyTask(s: Locks, s': Locks, t: Task) {
    forall u :: u != t ==> s'.FramesOf(u) == s.FramesOf(u) && s'.Held(u) == s.Held(u) && (u in s'.heldBy <==> u in s.heldBy)
  }

  ghost predicate OnlyDir(s: Locks, s': Locks, d: Id) {
    && (forall c :: c != d ==> (c in s'.registry <==> c in s.registry))
    && (forall c :: c != d && c in s.registry ==> s'.registry[c] == s.registry[c])
    && (forall c :: c != d && s.Has(c) ==> s'.Has(c) && s'.EntryOf(c) == s.EntryOf(c))
    && s.nextEntry <= s'.nextEntry
  }

  // Whoever else has to do with `d` keeps its lock object and its place in the queue.
  ghost predicate KeptThere(s: Locks, s': Locks, t: Task, d: Id) {
    forall u :: u != t && (s.Holds(u, d) || s.WaitsFor(u, d)) ==>
      d in s.registry && d in s'.registry && s'.registry[d] == s.registry[d] && (s.InQueue(u, d) ==> s'.InQueue(u, d))
  }

  lemma OthersOk(s: Locks, owner: map<Id, Task>, s': Locks, owner': map<Id, Task>, t: Task, d: Id, u: Task)
    requires Inv(s, owner) && OnlyThere(s, owner, s', owner', t, d) && KeptThere(s, s', t, d) && u != t
    ensures TaskOk(s', u)
  {
    assert TaskOk(s, u);
    hide Inv, FrameOk, KeptThere, OnlyDir;
    var fs := s.FramesOf(u);
    forall i | 0 <= i < |fs| ensures FrameOk(s', u, fs[i]) {
      OtherFrame(s, s', t, d, u, i);
    }
    if Waits(fs) { OtherWaits(s, s', t, d, u); }
  }

  lemma OtherFrame(s: Locks, s': Locks, t: Task, d: Id, u: Task, i: nat)
    requires TaskOk(s, u) && OnlyTask(s, s', t) && OnlyDir(s, s', d) && KeptThere(s, s', t, d) && u != t && i < |s.FramesOf(u)|
    ensures FrameOk(s', u, s.FramesOf(u)[i])
  {
    var f := s.FramesOf(u)[i];
    assert FrameOk(s, u, f);
    forall k | 0 <= k < |f.taken| ensures var c := f.taken[k].0; c in s'.registry && s'.registry[c] == f.taken[k].1 {
      TakenIsHeld(s, u, i, k);
      assert s.Holds(u, f.taken[k].0);
    }
  }

  lemma OtherWaits(s: Locks, s': Locks, t: Task, d: Id, u: Task)
    requires TaskOk(s, u) && OnlyTask(s, s', t) && OnlyDir(s, s', d) && KeptThere(s, s', t, d) && u != t && Waits(s.FramesOf(u))
    ensures s'.FramesOf(u) == s.FramesOf(u) && Top(s.FramesOf(u)).todo != []
    ensures s'.WaitsFor(u, Wanted(s', u)) && s'.InQueue(u, Wanted(s', u))
  {
    hide RestOk;
    var c := Top(s.FramesOf(u)).todo[0];
    assert s.WaitsFor(u, c) && s.InQueue(u, c);
  }

  lemma {:induction false} FlatHas(fs: seq<Frame>, i: nat, k: nat)
    requires i < |fs| && k < |fs[i].taken|
    ensures fs[i].taken[k].0 in Flat(fs)
    decreases |fs|
  {
    if i == |fs| - 1 {
      assert Dirs(fs[i].taken)[k] == fs[i].taken[k].0;
    } else {
      FlatHas(fs[..|fs| - 1], i, k);
    }
  }

  lemma TakenIsHeld(s: Locks, t: Task, i: nat, k: nat)
    requires TaskOk(s, t) && i < |s.FramesOf(t)| && k < |s.FramesOf(t)[i].taken|
    ensures s.Holds(t, s.FramesOf(t)[i].taken[k].0)
  {
    FlatHas(s.FramesOf(t), i, k);
  }

  lemma ElsewhereOk(s: Locks, owner: map<Id, Task>, s': Locks, owner': map<Id, Task>, t: Task, d: Id, c: Id)
    requires Inv(s, owner) && OnlyThere(s, owner, s', owner', t, d) && c != d && c in s'.registry
    ensures EntryOk(s', owner', c)
  {
    hide TaskOk, QueueOk, CountOk, Owned;
    assert EntryOk(s, owner, c);
    var x := s.EntryOf(c);
    forall i | 0 <= i < |x.waiters| ensures s'.WaitsFor(x.waiters[i].task, c) {
      StillWaits(s, owner, s', owner', t, d, c, x.waiters[i].task);
    }
    hide OnlyThere, Locks.WaitsFor;
    assert s'.EntryOf(c) == x;
  }

  lemma StillWaits(s: Locks, owner: map<Id, Task>, s': Locks, owner': map<Id, Task>, t: Task, d: Id, c: Id, u: Task)
    requires OnlyThere(s, owner, s', owner', t, d) && c != d && s.WaitsFor(u, c)
    ensures s'.WaitsFor(u, c)
  {
  }

  /** A step that is right about the directory and the task it concerns is right. */
  lemma StepOk(s: Locks, owner: map<Id, Task>, s': Locks, owner': map<Id, Task>, t: Task, d: Id)
    requires Inv(s, owner) && OnlyThere(s, owner, s', owner', t, d) && KeptThere(s, s', t, d)
    requires EntryOk(s', owner', d) && OneEach(s') && Owned(s', owner') && TaskOk(s', t)
    ensures Inv(s', owner')
  {
    forall u ensures TaskOk(s', u) {
      if u != t { OthersOk(s, owner, s', owner', t, d, u); }
    }
    forall c | c in s'.registry ensures EntryOk(s', owner', c) {
      if c != d { ElsewhereOk(s, owner, s', owner', t, d, c); }
    }
    hide TaskOk, EntryOk, OneEach, Owned;
  }

  // ------------------------------------------------------------------ taking

  // The task's own side of having taken what it wanted next.
  lemma TakenTask(s: Locks, t: Task)
    requires RestOk(s, t) && s.FramesOf(t) != [] && Top(s.FramesOf(t)).todo != [] && s.Has(Wanted(s, t))
    ensures TaskOk(Taken(s, t), t)
  {
    var s', fs, d := Taken(s, t), s.FramesOf(t), Wanted(s, t);
    var f, init := Top(fs), fs[..|fs| - 1];
    var f' := Frame(f.taken + [(d, s.registry[d])], f.todo[1..], None);
    assert s'.FramesOf(t) == init + [f'] && fs == init + [f];
    FlatTop(init, f');
    FlatTop(init, f);
    assert Dirs(f'.taken) == Dirs(f.taken) + [d];
    assert Flat(init + [f']) == Flat(fs) + [d];
    assert FrameOk(s, t, fs[|fs| - 1]);
    assert Dirs(f'.taken) + f'.todo == Dirs(f.taken) + f.todo;
    TakenFrames(s, t);
  }

  lemma TakenFrames(s: Locks, t: Task)
    requires RestOk(s, t) && s.FramesOf(t) != [] && Top(s.FramesOf(t)).todo != [] && s.Has(Wanted(s, t))
    ensures var s' := Taken(s, t); forall i :: 0 <= i < |s'.FramesOf(t)| ==> FrameOk(s', t, s'.FramesOf(t)[i])
  {
    var s', fs, d := Taken(s, t), s.FramesOf(t), Wanted(s, t);
    var n := |fs| - 1;
    var f := fs[n];
    assert FrameOk(s, t, f);
    var f' := s'.FramesOf(t)[n];
    assert Dirs(f'.taken) + f'.todo == Dirs(f.taken) + f.todo;
    forall k | 0 <= k < |f'.todo| ensures !s'.Holds(t, f'.todo[k]) {
      assert f'.todo[k] == f.todo[k + 1];
      AscendsApart(Dirs(f.taken) + f.todo, |f.taken|, |f.taken| + k + 1);
    }
    forall i | 0 <= i < n ensures FrameOk(s', t, fs[i]) {
      assert FrameOk(s, t, fs[i]);
    }
  }

  lemma AscendsApart(s: seq<Id>, i: nat, j: nat)
    requires Ascending(s) && i < j < |s|
    ensures s[i] != s[j] && Below(s[i], s[j])
  {
  }

  // Registering touches nothing a task has taken.
  lemma RegisteredTask(s: Locks, owner: map<Id, Task>, t: Task, d: Id, x: Entry)
    requires Inv(s, owner) && (Waits(s.FramesOf(t)) ==> s.WaitsFor(t, d))
    ensures RestOk(Registered(s, d, x), t)
  {
    assert TaskOk(s, t);
    var s', fs := Registered(s, d, x), s.FramesOf(t);
    if d in s.registry { assert EntryOk(s, owner, d); }
    forall i | 0 <= i < |fs| ensures FrameOk(s', t, fs[i]) {
      assert FrameOk(s, t, fs[i]);
    }
  }

  lemma RegisteredOneEach(s: Locks, owner: map<Id, Task>, d: Id, x: Entry)
    requires Inv(s, owner)
    ensures OneEach(Registered(s, d, x)) && (d in s.registry ==> s.Has(d))
    ensures forall c :: c in s.registry ==> s.Has(c) && s.registry[c] < s.nextEntry
  {
    hide TaskOk;
    forall c | c in s.registry ensures s.Has(c) && s.registry[c] < s.nextEntry {
      assert EntryOk(s, owner, c);
    }
  }

  lemma NoStranger(s: Locks, owner: map<Id, Task>, d: Id, u: Task)
    requires Inv(s, owner) && (s.Holds(u, d) || s.WaitsFor(u, d))
    ensures s.Has(d) && d in s.registry && EntryOk(s, owner, d) && (s.WaitsFor(u, d) ==> s.InQueue(u, d))
    ensures s.Holds(u, d) ==> s.EntryOf(d).locked && owner[d] == u
  {
    assert TaskOk(s, u);
    assert EntryOk(s, owner, d);
  }

  // `t` gets what it wants next, and the lock object becomes `x`.
  function Gets(s: Locks, t: Task, x: Entry): Locks
    requires s.FramesOf(t) != [] && Top(s.FramesOf(t)).todo != []
  {
    Taken(Registered(s, Wanted(s, t), x), t)
  }

  ghost predicate MayGet(s: Locks, owner: map<Id, Task>, t: Task) {
    && s.FramesOf(t) != [] && Top(s.FramesOf(t)).todo != [] && Wanted(s, t) !in owner
    && (Waits(s.FramesOf(t)) ==> s.WaitsFor(t, Wanted(s, t)))
    && (forall c :: c in s.registry ==> s.Has(c) && s.registry[c] < s.nextEntry) && OneEach(s)
  }

  lemma GetsOnlyThere(s: Locks, owner: map<Id, Task>, t: Task, x: Entry)
    requires MayGet(s, owner, t)
    ensures OnlyThere(s, owner, Gets(s, t, x), owner[Wanted(s, t) := t], t, Wanted(s, t))
  {
    var s', d := Gets(s, t, x), Wanted(s, t);
    RegisteredOnly(s, d, x);
    assert OnlyTask(s, s', t) by { hide OnlyDir, OneEach, Wanted; }
    assert OnlyDir(s, s', d) by {
      assert s'.registry == Registered(s, d, x).registry && s'.entries == Registered(s, d, x).entries;
      hide Gets, Registered, OneEach;
    }
    hide Gets, Registered, OnlyTask, OnlyDir, OneEach;
  }

  lemma RegisteredOnly(s: Locks, d: Id, x: Entry)
    requires (forall c :: c in s.registry ==> s.Has(c) && s.registry[c] < s.nextEntry) && OneEach(s)
    ensures OnlyDir(s, Registered(s, d, x), d) && Registered(s, d, x).frames == s.frames && Registered(s, d, x).heldBy == s.heldBy
    ensures OneEach(Registered(s, d, x))
  {
  }

  lemma GetsEntry(s: Locks, owner: map<Id, Task>, t: Task, x: Entry)
    requires MayGet(s, owner, t) && QueueOk(x) && CountOk(x) && x.users > 0 && x.locked
    requires forall i :: 0 <= i < |x.waiters| ==> x.waiters[i].task != t && s.WaitsFor(x.waiters[i].task, Wanted(s, t))
    ensures EntryOk(Gets(s, t, x), owner[Wanted(s, t) := t], Wanted(s, t))
  {
    hide QueueOk, CountOk, OneEach;
    var s' := Gets(s, t, x);
    forall i | 0 <= i < |x.waiters| ensures s'.WaitsFor(x.waiters[i].task, Wanted(s, t)) {
      assert s.WaitsFor(x.waiters[i].task, Wanted(s, t));
    }
  }

  lemma GetsOwned(s: Locks, owner: map<Id, Task>, t: Task, x: Entry)
    requires MayGet(s, owner, t) && Owned(s, owner)
    ensures Owned(Gets(s, t, x), owner[Wanted(s, t) := t])
  {
    var s' := Gets(s, t, x);
    assert forall u, c :: u != t ==> (s'.Holds(u, c) <==> s.Holds(u, c));
    assert forall c :: s'.Holds(t, c) <==> s.Holds(t, c) || c == Wanted(s, t);
  }

  // Everybody else who was in the queue still is.
  ghost predicate QueueKeeps(x: Entry, x': Entry, t: Task) {
    forall k :: 0 <= k < |x.waiters| && x.waiters[k].task != t ==> Queues(x', x.waiters[k].task)
  }

  ghost predicate Queues(x: Entry, u: Task) { exists k :: 0 <= k < |x.waiters| && x.waiters[k].task == u }

  // What others have to do with `d` stays, if its lock object and its queue do.
  lemma KeptByQueue(s: Locks, owner: map<Id, Task>, s': Locks, t: Task, d: Id)
    requires Inv(s, owner)
    requires s.Has(d) ==> s'.Has(d) && s'.registry[d] == s.registry[d] && QueueKeeps(s.EntryOf(d), s'.EntryOf(d), t)
    ensures KeptThere(s, s', t, d)
  {
    forall u | u != t && (s.Holds(u, d) || s.WaitsFor(u, d))
      ensures d in s.registry && d in s'.registry && s'.registry[d] == s.registry[d] && (s.InQueue(u, d) ==> s'.InQueue(u, d))
    {
      NoStranger(s, owner, d, u);
      hide Inv, EntryOk;
      if s.InQueue(u, d) {
        var k :| 0 <= k < |s.EntryOf(d).waiters| && s.EntryOf(d).waiters[k].task == u;
        assert Queues(s'.EntryOf(d), u);
      }
    }
  }

  // Getting it, given that the lock object comes out right.
  lemma GetsKeeps(s: Locks, owner: map<Id, Task>, t: Task, x: Entry)
    requires Inv(s, owner) && s.FramesOf(t) != [] && Top(s.FramesOf(t)).todo != [] && Wanted(s, t) !in owner
    requires QueueOk(x) && CountOk(x) && x.users > 0 && x.locked && QueueKeeps(Found(s, Wanted(s, t)), x, t)
    requires forall i :: 0 <= i < |x.waiters| ==> x.waiters[i].task != t && s.WaitsFor(x.waiters[i].task, Wanted(s, t))
    ensures Inv(Gets(s, t, x), owner[Wanted(s, t) := t])
  {
    var d, s', owner' := Wanted(s, t), Gets(s, t, x), owner[Wanted(s, t) := t];
    assert TaskOk(s, t);
    RegisteredOneEach(s, owner, d, x);
    RegisteredTask(s, owner, t, d, x);
    GetsKept(s, owner, t, x);
    assert MayGet(s, owner, t) && Owned(s, owner);
    hide Inv, QueueOk, CountOk, RestOk, FrameOk;
    TakenTask(Registered(s, d, x), t);
    GetsOnlyThere(s, owner, t, x);
    GetsOwned(s, owner, t, x);
    GetsEntry(s, owner, t, x);
    hide TaskOk, OneEach, Owned, OnlyThere, KeptThere, EntryOk, MayGet, Registered, Taken, Gets;
    GetsOneEach(s, t, x);
    StepOk(s, owner, s', owner', t, d);
  }

  lemma GetsOneEach(s: Locks, t: Task, x: Entry)
    requires s.FramesOf(t) != [] && Top(s.FramesOf(t)).todo != [] && OneEach(Registered(s, Wanted(s, t), x))
    ensures OneEach(Gets(s, t, x)) && Gets(s, t, x) == Taken(Registered(s, Wanted(s, t), x), t)
  {
  }

  lemma GetsKept(s: Locks, owner: map<Id, Task>, t: Task, x: Entry)
    requires Inv(s, owner) && s.FramesOf(t) != [] && Top(s.FramesOf(t)).todo != []
    requires QueueKeeps(Found(s, Wanted(s, t)), x, t)
    ensures KeptThere(s, Gets(s, t, x), t, Wanted(s, t))
  {
    hide Inv, QueueKeeps, KeptThere;
    KeptByQueue(s, owner, Gets(s, t, x), t, Wanted(s, t));
  }

  // `acquire` with nobody in the way.
  function TookNow(s: Locks, t: Task): Locks
    requires Asking(s, t)
  {
    var x := Found(s, Wanted(s, t));
    Gets(s, t, x.(locked := true, users := x.users + 1))
  }

  lemma TookNowKeeps(s: Locks, owner: map<Id, Task>, t: Task)
    requires Inv(s, owner) && Asking(s, t) && Free(Found(s, Wanted(s, t)))
    ensures Inv(TookNow(s, t), owner[Wanted(s, t) := t])
  {
    var d := Wanted(s, t);
    var x := Found(s, d);
    RegisteredOneEach(s, owner, d, x);
    FreeFound(s, owner, t);
    hide Inv, TaskOk, EntryOk, Registered, OneEach, Found, QueueOk, CountOk;
    FreeClaimed(x, t);
    var x' := x.(locked := true, users := x.users + 1);
    hide QueueKeeps;
    GetsKeeps(s, owner, t, x');
  }

  // What is known of a free lock somebody asks for.
  lemma FreeFound(s: Locks, owner: map<Id, Task>, t: Task)
    requires Inv(s, owner) && Asking(s, t) && Free(Found(s, Wanted(s, t)))
    ensures var d := Wanted(s, t); var x := Found(s, d);
            && d !in owner && QueueOk(x) && CountOk(x)
            && forall i :: 0 <= i < |x.waiters| ==> x.waiters[i].task != t && s.WaitsFor(x.waiters[i].task, d)
  {
    var d := Wanted(s, t);
    if d in s.registry { assert EntryOk(s, owner, d); }
    assert TaskOk(s, t);
    hide TaskOk, OneEach;
  }

  // A lock nobody holds and nobody is about to get, taken.
  lemma FreeClaimed(x: Entry, t: Task)
    requires QueueOk(x) && CountOk(x) && Free(x)
    ensures var x' := x.(locked := true, users := x.users + 1);
            QueueOk(x') && CountOk(x') && QueueKeeps(x, x', t)
  {
    var x' := x.(locked := true, users := x.users + 1);
    forall k | 0 <= k < |x.waiters| && x.waiters[k].task != t ensures Queues(x', x.waiters[k].task) {
      assert x'.waiters[k].task == x.waiters[k].task;
    }
  }

  // The woken head of the queue claims the lock.
  function Resumed(s: Locks, t: Task, i: nat): Locks
    requires s.FramesOf(t) != [] && Top(s.FramesOf(t)).todo != []
    requires i < |Found(s, Wanted(s, t)).waiters|
  {
    var x := Found(s, Wanted(s, t));
    Gets(s, t, x.(locked := true, waiters := Without(x.waiters, i)))
  }

  predicate CanResume(s: Locks, t: Task, i: nat) {
    && Waits(s.FramesOf(t)) && Top(s.FramesOf(t)).todo != [] && i < |Found(s, Wanted(s, t)).waiters|
    && var w := Found(s, Wanted(s, t)).waiters[i];
    w.task == t && w.woken && !w.cancelled
  }

  lemma ResumedKeeps(s: Locks, owner: map<Id, Task>, t: Task, i: nat)
    requires Inv(s, owner) && CanResume(s, t, i)
    ensures i == 0 && Inv(Resumed(s, t, i), owner[Wanted(s, t) := t])
  {
    var d := Wanted(s, t);
    var x := Found(s, d);
    assert EntryOk(s, owner, d) && TaskOk(s, t);
    assert i == 0;
    HeadClaims(x, t);
    assert Without(x.waiters, 0) == x.waiters[1..];
    var x' := x.(locked := true, waiters := x.waiters[1..]);
    forall k | 0 <= k < |x'.waiters| ensures x'.waiters[k].task != t && s.WaitsFor(x'.waiters[k].task, d) {
      assert s.WaitsFor(x.waiters[k + 1].task, d);
    }
    hide Inv, TaskOk, EntryOk, QueueOk, CountOk, QueueKeeps;
    GetsKeeps(s, owner, t, x');
  }

  // The head of a queue takes the lock and leaves the queue.
  lemma HeadClaims(x: Entry, t: Task)
    requires QueueOk(x) && CountOk(x) && x.users > 0 && x.waiters != [] && x.waiters[0].woken && x.waiters[0].task == t
    ensures var x' := x.(locked := true, waiters := x.waiters[1..]);
            && QueueOk(x') && CountOk(x') && QueueKeeps(x, x', t)
            && forall k :: 0 <= k < |x'.waiters| ==> x'.waiters[k].task != t
  {
    var x' := x.(locked := true, waiters := x.waiters[1..]);
    forall k | 0 <= k < |x.waiters| && x.waiters[k].task != t ensures Queues(x', x.waiters[k].task) {
      assert x'.waiters[k - 1].task == x.waiters[k].task;
    }
  }

  // ------------------------------------------------------------------ queueing

  // `t` waits behind whoever is there.
  function Queued(s: Locks, t: Task): Locks
    requires Asking(s, t)
  {
    var fs, d := s.FramesOf(t), Wanted(s, t);
    var x := Found(s, d);
    var r := Registered(s, d, x.(waiters := x.waiters + [Waiter(t, false, false)], users := x.users + 1));
    r.(frames := s.frames[t := WithTop(fs, Top(fs).(waiting := Some(r.registry[d])))])
  }

  lemma TailJoins(x: Entry, t: Task)
    requires QueueOk(x) && CountOk(x) && !Free(x) && forall k :: 0 <= k < |x.waiters| ==> x.waiters[k].task != t
    ensures var x' := x.(waiters := x.waiters + [Waiter(t, false, false)], users := x.users + 1);
            QueueOk(x') && CountOk(x') && QueueKeeps(x, x', t) && Queues(x', t)
  {
    var x' := x.(waiters := x.waiters + [Waiter(t, false, false)], users := x.users + 1);
    forall k | 0 <= k < |x.waiters| ensures Queues(x', x.waiters[k].task) {
      assert x'.waiters[k].task == x.waiters[k].task;
    }
    assert x'.waiters[|x.waiters|].task == t;
  }

  lemma QueuedKeeps(s: Locks, owner: map<Id, Task>, t: Task)
    requires Inv(s, owner) && Asking(s, t) && !Free(Found(s, Wanted(s, t)))
    ensures Inv(Queued(s, t), owner)
  {
    var d := Wanted(s, t);
    var x := Found(s, d);
    QueuedReady(s, owner, t);
    hide Inv;
    TailJoins(x, t);
    var x' := x.(waiters := x.waiters + [Waiter(t, false, false)], users := x.users + 1);
    QueuedTask(s, t, x');
    QueuedEntry(s, owner, t, x');
    QueuedOwned(s, owner, t);
    QueuedThere(s, owner, t);
    hide EntryOk, TaskOk, QueueOk, CountOk, Owned, KeptThere, OnlyThere, OneEach, Registered, Queued;
    StepOk(s, owner, Queued(s, t), owner, t, d);
  }

  lemma QueuedReady(s: Locks, owner: map<Id, Task>, t: Task)
    requires Inv(s, owner) && Asking(s, t) && !Free(Found(s, Wanted(s, t)))
    ensures var d := Wanted(s, t);
            && s.Has(d) && d in s.registry && EntryOk(s, owner, d) && TaskOk(s, t) && RestOk(s, t) && Owned(s, owner)
            && forall k :: 0 <= k < |Found(s, d).waiters| ==> Found(s, d).waiters[k].task != t
  {
    var d := Wanted(s, t);
    RegisteredOneEach(s, owner, d, Found(s, d));
    assert TaskOk(s, t) && d in s.registry && EntryOk(s, owner, d);
    forall k | 0 <= k < |Found(s, d).waiters| ensures Found(s, d).waiters[k].task != t {
      assert s.WaitsFor(Found(s, d).waiters[k].task, d);
    }
  }

  lemma QueuedThere(s: Locks, owner: map<Id, Task>, t: Task)
    requires Inv(s, owner) && Asking(s, t) && s.Has(Wanted(s, t))
    requires var x := s.EntryOf(Wanted(s, t));
             QueueKeeps(x, x.(waiters := x.waiters + [Waiter(t, false, false)], users := x.users + 1), t)
    ensures OnlyThere(s, owner, Queued(s, t), owner, t, Wanted(s, t)) && OneEach(Queued(s, t))
    ensures KeptThere(s, Queued(s, t), t, Wanted(s, t))
  {
    var d, s' := Wanted(s, t), Queued(s, t);
    var x := s.EntryOf(d);
    var x' := x.(waiters := x.waiters + [Waiter(t, false, false)], users := x.users + 1);
    RegisteredOneEach(s, owner, d, x);
    RegisteredOnly(s, d, x');
    QueuedKept(s, owner, t);
    assert !Waits(s.FramesOf(t));
    hide Inv, KeptThere, EntryOk, TaskOk, QueueKeeps;
    QueuedOnly(s, t);
    hide OnlyDir, OnlyTask, OneEach, Queued, Registered;
  }

  lemma QueuedOnly(s: Locks, t: Task)
    requires Asking(s, t) && s.Has(Wanted(s, t)) && OneEach(s)
    ensures OnlyTask(s, Queued(s, t), t) && OnlyDir(s, Queued(s, t), Wanted(s, t)) && OneEach(Queued(s, t))
  {
  }

  lemma QueuedKept(s: Locks, owner: map<Id, Task>, t: Task)
    requires Inv(s, owner) && Asking(s, t) && s.Has(Wanted(s, t))
    requires var x := s.EntryOf(Wanted(s, t));
             QueueKeeps(x, x.(waiters := x.waiters + [Waiter(t, false, false)], users := x.users + 1), t)
    ensures KeptThere(s, Queued(s, t), t, Wanted(s, t))
  {
    hide Inv, KeptThere, QueueKeeps;
    KeptByQueue(s, owner, Queued(s, t), t, Wanted(s, t));
  }

  lemma QueuedOwned(s: Locks, owner: map<Id, Task>, t: Task)
    requires Asking(s, t) && Owned(s, owner)
    ensures Owned(Queued(s, t), owner)
  {
    assert forall u, c :: Queued(s, t).Holds(u, c) <==> s.Holds(u, c);
  }

  lemma QueuedTask(s: Locks, t: Task, x': Entry)
    requires Asking(s, t) && RestOk(s, t) && s.Has(Wanted(s, t)) && Queued(s, t).EntryOf(Wanted(s, t)) == x' && Queues(x', t)
    ensures TaskOk(Queued(s, t), t)
  {
    var s', fs, n := Queued(s, t), s.FramesOf(t), |s.FramesOf(t)| - 1;
    var fs' := s'.FramesOf(t);
    assert fs == fs[..n] + [fs[n]];
    FlatTop(fs[..n], fs[n]);
    FlatTop(fs[..n], fs'[n]);
    assert Flat(fs') == Flat(fs);
    forall i | 0 <= i < |fs'| ensures FrameOk(s', t, fs'[i]) {
      assert FrameOk(s, t, fs[i]);
    }
  }

  lemma QueuedEntry(s: Locks, owner: map<Id, Task>, t: Task, x': Entry)
    requires Asking(s, t) && s.Has(Wanted(s, t)) && EntryOk(s, owner, Wanted(s, t)) && QueueOk(x') && CountOk(x')
    requires x' == s.EntryOf(Wanted(s, t)).(waiters := s.EntryOf(Wanted(s, t)).waiters + [Waiter(t, false, false)],
                                            users := s.EntryOf(Wanted(s, t)).users + 1)
    ensures EntryOk(Queued(s, t), owner, Wanted(s, t))
  {
    hide QueueOk, CountOk;
    var s', d, x := Queued(s, t), Wanted(s, t), s.EntryOf(Wanted(s, t));
    forall i | 0 <= i < |x'.waiters| ensures s'.WaitsFor(x'.waiters[i].task, d) {
      if i < |x.waiters| { assert s.WaitsFor(x.waiters[i].task, d); }
    }
  }

  // ------------------------------------------------------------------ cancelling

  predicate InLine(s: Locks, t: Task, i: nat) {
    && Waits(s.FramesOf(t)) && Top(s.FramesOf(t)).todo != [] && s.Has(Wanted(s, t))
    && i < |s.EntryOf(Wanted(s, t)).waiters| && s.EntryOf(Wanted(s, t)).waiters[i].task == t
  }

  // `task.cancel()`: the future is cancelled, or, if it was done already, the cancellation comes when the task runs.
  function Cancelled(s: Locks, t: Task, i: nat): Locks
    requires InLine(s, t, i)
  {
    var x := s.EntryOf(Wanted(s, t));
    s.(entries := s.entries[s.registry[Wanted(s, t)] := x.(waiters := x.waiters[i := x.waiters[i].(cancelled := true)])])
  }

  lemma CancelledKeeps(s: Locks, owner: map<Id, Task>, t: Task, i: nat)
    requires Inv(s, owner) && InLine(s, t, i)
    ensures Inv(Cancelled(s, t, i), owner)
  {
    var d, s' := Wanted(s, t), Cancelled(s, t, i);
    assert TaskOk(s, t) && EntryOk(s, owner, d) && Owned(s, owner);
    CancelledThere(s, owner, t, i);
    CancelledOnly(s, owner, t, i);
    CancelledTask(s, t, i);
    CancelledEntry(s, owner, t, i);
    CancelledOwned(s, owner, t, i);
    hide Inv, EntryOk, TaskOk, Owned, KeptThere, OneEach, OnlyTask, OnlyDir, Cancelled;
    StepOk(s, owner, s', owner, t, d);
  }

  lemma CancelledThere(s: Locks, owner: map<Id, Task>, t: Task, i: nat)
    requires Inv(s, owner) && InLine(s, t, i)
    ensures KeptThere(s, Cancelled(s, t, i), t, Wanted(s, t))
  {
    hide Inv, KeptThere;
    var d, s' := Wanted(s, t), Cancelled(s, t, i);
    var x := s.EntryOf(d);
    forall k | 0 <= k < |x.waiters| ensures Queues(s'.EntryOf(d), x.waiters[k].task) {
      assert s'.EntryOf(d).waiters[k].task == x.waiters[k].task;
    }
    KeptByQueue(s, owner, s', t, d);
  }

  // Only the lock object of the directory waited for is written.
  lemma CancelledOnly(s: Locks, owner: map<Id, Task>, t: Task, i: nat)
    requires Inv(s, owner) && InLine(s, t, i)
    ensures var s', d := Cancelled(s, t, i), Wanted(s, t); OnlyTask(s, s', t) && OnlyDir(s, s', d) && OneEach(s')
  {
    var d, s' := Wanted(s, t), Cancelled(s, t, i);
    RegisteredOneEach(s, owner, d, s'.EntryOf(d));
    InvOneEach(s, owner);
    hide Inv, OneEach, OnlyDir;
    assert s' == Registered(s, d, s'.EntryOf(d));
    RegisteredOnly(s, d, s'.EntryOf(d));
  }

  lemma InvOneEach(s: Locks, owner: map<Id, Task>)
    requires Inv(s, owner)
    ensures OneEach(s)
  {
  }

  lemma CancelledOwned(s: Locks, owner: map<Id, Task>, t: Task, i: nat)
    requires InLine(s, t, i) && Owned(s, owner)
    ensures Owned(Cancelled(s, t, i), owner)
  {
    assert forall u, c :: Cancelled(s, t, i).Holds(u, c) <==> s.Holds(u, c);
  }

  lemma CancelledTask(s: Locks, t: Task, i: nat)
    requires InLine(s, t, i) && TaskOk(s, t)
    ensures TaskOk(Cancelled(s, t, i), t)
  {
    var s', fs := Cancelled(s, t, i), s.FramesOf(t);
    assert s'.EntryOf(Wanted(s, t)).waiters[i].task == t;
    forall k | 0 <= k < |fs| ensures FrameOk(s', t, fs[k]) {
      assert FrameOk(s, t, fs[k]);
    }
  }

  lemma CancelledEntry(s: Locks, owner: map<Id, Task>, t: Task, i: nat)
    requires InLine(s, t, i) && EntryOk(s, owner, Wanted(s, t))
    ensures EntryOk(Cancelled(s, t, i), owner, Wanted(s, t))
  {
    var s', d := Cancelled(s, t, i), Wanted(s, t);
    forall k | 0 <= k < |s'.EntryOf(d).waiters| ensures s'.WaitsFor(s'.EntryOf(d).waiters[k].task, d) {
      assert s.WaitsFor(s.EntryOf(d).waiters[k].task, d);
    }
  }

  // ------------------------------------------------------------------ leaving

  // `t` and the directory part, and the directory's lock object becomes `x` with one user fewer.
  ghost predicate Leaves(s: Locks, owner: map<Id, Task>, s0: Locks, owner': map<Id, Task>, t: Task, d: Id, x: Entry) {
    && s.Has(d) && s0.registry == s.registry && s0.entries == s.entries && s0.nextEntry == s.nextEntry
    && OnlyTask(s, s0, t) && LeavesQueue(s, t, d, x) && LeavesOwner(s0, owner, owner', t, d, x)
    && (Waits(s.FramesOf(t)) ==> s.WaitsFor(t, d)) && !Waits(s0.FramesOf(t)) && RestOk(s0, t) && d !in Flat(s0.FramesOf(t))
  }

  // The lock object comes out right, and nobody else has lost a place in its queue.
  ghost predicate LeavesQueue(s: Locks, t: Task, d: Id, x: Entry)
    requires s.Has(d)
  {
    && x.users > 0 && QueueOk(x) && CountOk(x.(users := x.users - 1)) && QueueKeeps(s.EntryOf(d), x, t)
    && (forall i :: 0 <= i < |x.waiters| ==> x.waiters[i].task != t && s.WaitsFor(x.waiters[i].task, d))
  }

  // Who has what is as before, except that `t` may no longer have `d`.
  ghost predicate LeavesOwner(s0: Locks, owner: map<Id, Task>, owner': map<Id, Task>, t: Task, d: Id, x: Entry) {
    && (x.locked <==> d in owner') && Owned(s0, owner')
    && (forall c :: c != d ==> (c in owner' <==> c in owner)) && (forall c :: c != d && c in owner ==> owner'[c] == owner[c])
    && (d in owner && owner[d] != t ==> d in owner')
  }

  lemma LeavesKeeps(s: Locks, owner: map<Id, Task>, s0: Locks, owner': map<Id, Task>, t: Task, d: Id, x: Entry)
    requires Inv(s, owner) && Leaves(s, owner, s0, owner', t, d, x)
    ensures Inv(Forgotten(s0, d, x), owner')
  {
    var s' := Forgotten(s0, d, x);
    LeavesTask(s, owner, s0, owner', t, d, x);
    LeavesEntry(s, owner, s0, owner', t, d, x);
    LeavesOwned(s0, owner', d, x);
    LeavesKept(s, owner, s0, owner', t, d, x);
    LeavesThere(s, owner, s0, owner', t, d, x);
    hide Inv, EntryOk, TaskOk, Owned, OneEach, KeptThere, OnlyThere, Leaves, Forgotten;
    StepOk(s, owner, s', owner', t, d);
  }

  lemma LeavesTask(s: Locks, owner: map<Id, Task>, s0: Locks, owner': map<Id, Task>, t: Task, d: Id, x: Entry)
    requires Leaves(s, owner, s0, owner', t, d, x)
    ensures TaskOk(Forgotten(s0, d, x), t)
  {
    hide QueueOk, CountOk, QueueKeeps, Owned, OnlyTask;
    var s', fs := Forgotten(s0, d, x), s0.FramesOf(t);
    forall i | 0 <= i < |fs| ensures FrameOk(s', t, fs[i]) {
      assert FrameOk(s0, t, fs[i]);
      forall k | 0 <= k < |fs[i].taken| ensures fs[i].taken[k].0 in s'.registry && s'.registry[fs[i].taken[k].0] == fs[i].taken[k].1 {
        FlatHas(fs, i, k);
      }
    }
  }

  lemma LeavesEntry(s: Locks, owner: map<Id, Task>, s0: Locks, owner': map<Id, Task>, t: Task, d: Id, x: Entry)
    requires Inv(s, owner) && Leaves(s, owner, s0, owner', t, d, x)
    ensures EntryOk(Forgotten(s0, d, x), owner', d)
  {
    var s' := Forgotten(s0, d, x);
    assert EntryOk(s, owner, d);
    hide Inv, QueueKeeps, Owned, RestOk, OneEach, Flat;
    if d in s'.registry {
      SameQueue(x, s'.EntryOf(d));
      hide CountOk, QueueOk;
      forall i | 0 <= i < |x.waiters| ensures s'.WaitsFor(x.waiters[i].task, d) {
        LeavesWaiter(s, owner, s0, owner', t, d, x, x.waiters[i].task);
      }
      hide Locks.WaitsFor, OnlyTask;
    }
  }

  lemma LeavesWaiter(s: Locks, owner: map<Id, Task>, s0: Locks, owner': map<Id, Task>, t: Task, d: Id, x: Entry, u: Task)
    requires Leaves(s, owner, s0, owner', t, d, x) && u != t && s.WaitsFor(u, d) && d in Forgotten(s0, d, x).registry
    ensures Forgotten(s0, d, x).WaitsFor(u, d)
  {
    hide QueueOk, CountOk, QueueKeeps, RestOk, Owned, LeavesOwner, LeavesQueue;
    assert s0.FramesOf(u) == s.FramesOf(u);
  }

  lemma SameQueue(x: Entry, x': Entry)
    requires QueueOk(x) && x'.waiters == x.waiters && x'.locked == x.locked
    ensures QueueOk(x')
  {
  }

  lemma LeavesOwned(s0: Locks, owner': map<Id, Task>, d: Id, x: Entry)
    requires Owned(s0, owner') && s0.Has(d) && x.users > 0 && CountOk(x.(users := x.users - 1)) && (x.locked <==> d in owner')
    ensures Owned(Forgotten(s0, d, x), owner')
  {
    assert forall u, c :: Forgotten(s0, d, x).Holds(u, c) <==> s0.Holds(u, c);
  }

  lemma LeavesKept(s: Locks, owner: map<Id, Task>, s0: Locks, owner': map<Id, Task>, t: Task, d: Id, x: Entry)
    requires Inv(s, owner) && Leaves(s, owner, s0, owner', t, d, x)
    ensures KeptThere(s, Forgotten(s0, d, x), t, d)
  {
    forall u | u != t && (s.Holds(u, d) || s.WaitsFor(u, d)) ensures StaysAt(s, Forgotten(s0, d, x), d, u) {
      NoStranger(s, owner, d, u);
      LeavesKeptAt(s, owner, s0, owner', t, d, x, u);
    }
    hide Inv, Leaves, Forgotten, Locks.Holds, Locks.WaitsFor, Locks.InQueue;
  }

  ghost predicate StaysAt(s: Locks, s': Locks, d: Id, u: Task) {
    d in s.registry && d in s'.registry && s'.registry[d] == s.registry[d] && (s.InQueue(u, d) ==> s'.InQueue(u, d))
  }

  lemma LeavesKeptAt(s: Locks, owner: map<Id, Task>, s0: Locks, owner': map<Id, Task>, t: Task, d: Id, x: Entry, u: Task)
    requires Leaves(s, owner, s0, owner', t, d, x) && u != t
    requires (s.Holds(u, d) && d in owner && owner[d] == u) || s.InQueue(u, d)
    ensures StaysAt(s, Forgotten(s0, d, x), d, u)
  {
    hide QueueOk, RestOk, Owned, OnlyTask;
    if s.InQueue(u, d) {
      var k :| 0 <= k < |s.EntryOf(d).waiters| && s.EntryOf(d).waiters[k].task == u;
      assert Queues(x, u);
      var k' :| 0 <= k' < |x.waiters| && x.waiters[k'].task == u;
      assert Forgotten(s0, d, x).EntryOf(d).waiters[k'].task == u;
    }
  }

  // Rewriting one directory's lock object, or forgetting it, concerns no other directory.
  lemma ForgottenOnly(s: Locks, s0: Locks, d: Id, x: Entry)
    requires OneEach(s) && s.Has(d) && s0.registry == s.registry && s0.entries == s.entries && s0.nextEntry == s.nextEntry
    requires x.users > 0
    ensures OnlyDir(s, Forgotten(s0, d, x), d) && OneEach(Forgotten(s0, d, x))
  {
  }

  lemma LeavesThere(s: Locks, owner: map<Id, Task>, s0: Locks, owner': map<Id, Task>, t: Task, d: Id, x: Entry)
    requires OneEach(s) && Leaves(s, owner, s0, owner', t, d, x)
    ensures OnlyThere(s, owner, Forgotten(s0, d, x), owner', t, d) && OneEach(Forgotten(s0, d, x))
  {
    var s' := Forgotten(s0, d, x);
    ForgottenOnly(s, s0, d, x);
    hide QueueOk, CountOk, RestOk, Owned, QueueKeeps, OnlyDir, OneEach, LeavesQueue;
    assert s'.frames == s0.frames && s'.heldBy == s0.heldBy;
    SameTasks(s, s0, s', t);
    hide Forgotten, OnlyTask;
  }

  lemma SameTasks(s: Locks, s0: Locks, s': Locks, t: Task)
    requires OnlyTask(s, s0, t) && s'.frames == s0.frames && s'.heldBy == s0.heldBy
    ensures OnlyTask(s, s', t)
  {
  }

  // ------------------------------------------------------------------ giving up a wait, releasing, and the ends of a call

  // The queue without its member `i`, the new head woken if the lock is to be had.
  function Dequeued(x: Entry, i: nat): Entry
    requires i < |x.waiters|
  {
    var x' := x.(waiters := Without(x.waiters, i));
    if x'.locked then x' else Woken(x')
  }

  // A cancelled waiter runs: out of the queue, out of the count, and no further in this call.
  function Unqueued(s: Locks, t: Task, i: nat): Locks
    requires InLine(s, t, i) && s.EntryOf(Wanted(s, t)).users > 0
  {
    var fs, d := s.FramesOf(t), Wanted(s, t);
    Forgotten(s.(frames := s.frames[t := WithTop(fs, Frame(Top(fs).taken, [], None))]), d, Dequeued(s.EntryOf(d), i))
  }

  lemma WithoutOk(x: Entry, i: nat)
    requires QueueOk(x) && i < |x.waiters|
    ensures var ws := Without(x.waiters, i);
            && |ws| == |x.waiters| - 1
            && (forall k :: 0 <= k < |ws| ==> ws[k] == x.waiters[if k < i then k else k + 1])
            && (forall k :: 0 < k < |ws| ==> !ws[k].woken)
            && (forall j, k :: 0 <= j < k < |ws| ==> ws[j].task != ws[k].task)
            && (ws != [] && ws[0].woken ==> ws[0] == x.waiters[0])
  {
  }

  lemma WokenOk(x: Entry)
    requires (forall k :: 0 < k < |x.waiters| ==> !x.waiters[k].woken) && !x.locked
    requires forall j, k :: 0 <= j < k < |x.waiters| ==> x.waiters[j].task != x.waiters[k].task
    ensures QueueOk(Woken(x)) && |Woken(x).waiters| == |x.waiters| && Woken(x).users == x.users && !Woken(x).locked
    ensures forall k :: 0 <= k < |x.waiters| ==> Woken(x).waiters[k].task == x.waiters[k].task
  {
  }

  lemma DequeuedOk(x: Entry, i: nat)
    requires QueueOk(x) && CountOk(x) && i < |x.waiters| && x.users > 0
    ensures var x' := Dequeued(x, i);
            && QueueOk(x') && CountOk(x'.(users := x'.users - 1)) && QueueKeeps(x, x', x.waiters[i].task)
            && x'.locked == x.locked && x'.users == x.users && |x'.waiters| == |x.waiters| - 1
            && forall k :: 0 <= k < |x'.waiters| ==> x'.waiters[k].task == x.waiters[if k < i then k else k + 1].task
  {
    WithoutOk(x, i);
    var x1, x' := x.(waiters := Without(x.waiters, i)), Dequeued(x, i);
    if !x.locked { WokenOk(x1); }
    hide Woken, Without, QueueKeeps;
    assert forall k :: 0 <= k < |x'.waiters| ==> x'.waiters[k].task == x.waiters[if k < i then k else k + 1].task;
    StillQueued(x, x', i);
  }

  lemma StillQueued(x: Entry, x': Entry, i: nat)
    requires i < |x.waiters| && |x'.waiters| == |x.waiters| - 1
    requires forall k :: 0 <= k < |x'.waiters| ==> x'.waiters[k].task == x.waiters[if k < i then k else k + 1].task
    ensures QueueKeeps(x, x', x.waiters[i].task)
  {
    forall k | 0 <= k < |x.waiters| && x.waiters[k].task != x.waiters[i].task ensures Queues(x', x.waiters[k].task) {
      var k' := if k < i then k else k - 1;
      assert x'.waiters[k'].task == x.waiters[k].task;
    }
  }

  lemma UnqueuedKeeps(s: Locks, owner: map<Id, Task>, t: Task, i: nat)
    requires Inv(s, owner) && InLine(s, t, i)
    ensures s.EntryOf(Wanted(s, t)).users > 0 && Inv(Unqueued(s, t, i), owner)
  {
    var fs, d := s.FramesOf(t), Wanted(s, t);
    var x := s.EntryOf(d);
    assert TaskOk(s, t) && EntryOk(s, owner, d);
    var s0 := s.(frames := s.frames[t := WithTop(fs, Frame(Top(fs).taken, [], None))]);
    hide Inv;
    UnqueuedLeaves(s, owner, t, i);
    hide EntryOk, TaskOk, Leaves, Dequeued;
    LeavesKeeps(s, owner, s0, owner, t, d, Dequeued(x, i));
  }

  lemma UnqueuedLeaves(s: Locks, owner: map<Id, Task>, t: Task, i: nat)
    requires InLine(s, t, i) && TaskOk(s, t) && EntryOk(s, owner, Wanted(s, t)) && Owned(s, owner)
    requires Wanted(s, t) in s.registry
    ensures var s0 := s.(frames := s.frames[t := WithTop(s.FramesOf(t), Frame(Top(s.FramesOf(t)).taken, [], None))]);
            Leaves(s, owner, s0, owner, t, Wanted(s, t), Dequeued(s.EntryOf(Wanted(s, t)), i))
  {
    var fs, d := s.FramesOf(t), Wanted(s, t);
    var x := s.EntryOf(d);
    var s0 := s.(frames := s.frames[t := WithTop(fs, Frame(Top(fs).taken, [], None))]);
    AbandonTask(s, t);
    assert Owned(s0, owner) by { assert forall u, c :: s0.Holds(u, c) <==> s.Holds(u, c); }
    assert LeavesOwner(s0, owner, owner, t, d, Dequeued(x, i)) by { hide RestOk, Owned, QueueOk, CountOk; }
    assert OnlyTask(s, s0, t);
    assert s.WaitsFor(t, d) && !Waits(s0.FramesOf(t));
    UnqueuedQueue(s, owner, t, i);
    hide QueueOk, CountOk, QueueKeeps, RestOk, Dequeued, OnlyTask, Owned, LeavesQueue, LeavesOwner, Flat, EntryOk;
  }

  lemma UnqueuedQueue(s: Locks, owner: map<Id, Task>, t: Task, i: nat)
    requires InLine(s, t, i) && EntryOk(s, owner, Wanted(s, t)) && Wanted(s, t) in s.registry
    ensures LeavesQueue(s, t, Wanted(s, t), Dequeued(s.EntryOf(Wanted(s, t)), i))
  {
    var x, d := s.EntryOf(Wanted(s, t)), Wanted(s, t);
    DequeuedOk(x, i);
    forall k | 0 <= k < |Dequeued(x, i).waiters| ensures s.WaitsFor(Dequeued(x, i).waiters[k].task, d) {
      assert s.WaitsFor(x.waiters[if k < i then k else k + 1].task, d);
    }
    hide CountOk, QueueKeeps, Dequeued;
  }

  // Dropping what is left to take changes nothing that was taken.
  lemma AbandonTask(s: Locks, t: Task)
    requires RestOk(s, t) && s.FramesOf(t) != [] && Top(s.FramesOf(t)).todo != []
    ensures var s0 := s.(frames := s.frames[t := WithTop(s.FramesOf(t), Frame(Top(s.FramesOf(t)).taken, [], None))]);
            RestOk(s0, t) && Flat(s0.FramesOf(t)) == Flat(s.FramesOf(t)) && Wanted(s, t) !in Flat(s0.FramesOf(t))
  {
    var fs, n := s.FramesOf(t), |s.FramesOf(t)| - 1;
    var s0 := s.(frames := s.frames[t := WithTop(fs, Frame(Top(fs).taken, [], None))]);
    var fs' := s0.FramesOf(t);
    assert fs == fs[..n] + [fs[n]];
    FlatTop(fs[..n], fs[n]);
    FlatTop(fs[..n], fs'[n]);
    assert FrameOk(s, t, fs[n]);
    AscendingPrefix(Dirs(fs[n].taken), fs[n].todo);
    assert Dirs(fs'[n].taken) + [] == Dirs(fs[n].taken);
    forall i | 0 <= i < |fs'| ensures FrameOk(s0, t, fs'[i]) {
      assert FrameOk(s, t, fs[i]);
    }
    assert Wanted(s, t) == fs[n].todo[0] && !s.Holds(t, fs[n].todo[0]);
  }

  lemma AscendingPrefix(a: seq<Id>, b: seq<Id>)
    requires Ascending(a + b)
    ensures Ascending(a)
  {
    forall i, j | 0 <= i < j < |a| ensures Below(a[i], a[j]) {
      assert (a + b)[i] == a[i] && (a + b)[j] == a[j];
    }
  }

  lemma LastApart(a: seq<Id>, d: Id)
    requires NoRepeat(a + [d])
    ensures NoRepeat(a) && d !in a && forall c :: c in a <==> c in a + [d] && c != d
  {
    var all := a + [d];
    forall i | 0 <= i < |a| ensures a[i] != d {
      assert all[i] == a[i] && all[|a|] == d;
    }
    forall i, j | 0 <= i < j < |a| ensures a[i] != a[j] {
      assert all[i] == a[i] && all[j] == a[j];
    }
  }

  // The last directory a call has taken, given back.
  predicate CanRelease(s: Locks, t: Task) {
    && s.FramesOf(t) != [] && Top(s.FramesOf(t)).todo == [] && Top(s.FramesOf(t)).waiting.None?
    && Top(s.FramesOf(t)).taken != []
  }

  function LastTaken(s: Locks, t: Task): Id
    requires CanRelease(s, t)
  {
    var f := Top(s.FramesOf(t));
    f.taken[|f.taken| - 1].0
  }

  function Dropped(s: Locks, t: Task): Locks
    requires CanRelease(s, t)
  {
    var fs := s.FramesOf(t);
    var f := Top(fs);
    s.(frames := s.frames[t := WithTop(fs, Frame(f.taken[..|f.taken| - 1], [], None))],
       heldBy := s.heldBy[t := s.Held(t) - {LastTaken(s, t)}])
  }

  function Released(s: Locks, t: Task): Locks
    requires CanRelease(s, t) && s.Has(LastTaken(s, t)) && s.EntryOf(LastTaken(s, t)).users > 0
  {
    var d := LastTaken(s, t);
    Forgotten(Dropped(s, t), d, Woken(s.EntryOf(d).(locked := false)))
  }

  lemma UnlockedOk(x: Entry, t: Task)
    requires QueueOk(x) && CountOk(x) && x.locked
    ensures var x' := Woken(x.(locked := false));
            && QueueOk(x') && CountOk(x'.(users := x'.users - 1)) && x'.users == x.users && !x'.locked && x.users > 0
            && |x'.waiters| == |x.waiters| && (forall k :: 0 <= k < |x.waiters| ==> x'.waiters[k].task == x.waiters[k].task)
            && QueueKeeps(x, x', t)
  {
    var x' := Woken(x.(locked := false));
    forall k | 0 <= k < |x.waiters| ensures Queues(x', x.waiters[k].task) {
      assert x'.waiters[k].task == x.waiters[k].task;
    }
  }

  lemma DroppedTask(s: Locks, t: Task)
    requires RestOk(s, t) && CanRelease(s, t)
    ensures RestOk(Dropped(s, t), t) && LastTaken(s, t) !in Flat(Dropped(s, t).FramesOf(t)) && s.Holds(t, LastTaken(s, t))
  {
    var fs, n, d := s.FramesOf(t), |s.FramesOf(t)| - 1, LastTaken(s, t);
    var f, s0 := fs[n], Dropped(s, t);
    var fs' := s0.FramesOf(t);
    var f' := fs'[n];
    assert fs == fs[..n] + [f] && fs' == fs[..n] + [f'];
    FlatTop(fs[..n], f);
    FlatTop(fs[..n], f');
    assert Dirs(f.taken) == Dirs(f'.taken) + [d];
    assert Flat(fs) == Flat(fs') + [d];
    assert FrameOk(s, t, f);
    LastApart(Flat(fs'), d);
    DroppedFrames(s, t);
    assert forall c :: s0.Holds(t, c) <==> s.Holds(t, c) && c != d;
    assert s.Holds(t, d) by { assert d in Flat(fs); }
    hide Flat, Dirs, FrameOk, NoRepeat;
  }

  lemma DroppedFrames(s: Locks, t: Task)
    requires RestOk(s, t) && CanRelease(s, t)
    ensures var s0 := Dropped(s, t); forall i :: 0 <= i < |s0.FramesOf(t)| ==> FrameOk(s0, t, s0.FramesOf(t)[i])
  {
    var fs, n, s0 := s.FramesOf(t), |s.FramesOf(t)| - 1, Dropped(s, t);
    var fs' := s0.FramesOf(t);
    forall i | 0 <= i < |fs'| ensures FrameOk(s0, t, fs'[i]) {
      assert FrameOk(s, t, fs[i]);
      if i == n {
        var kept := Dirs(fs'[n].taken);
        assert Dirs(fs[n].taken) + [] == kept + [LastTaken(s, t)];
        AscendingPrefix(kept, [LastTaken(s, t)]);
        assert kept + [] == kept;
      }
    }
  }

  lemma ReleasedKeeps(s: Locks, owner: map<Id, Task>, t: Task)
    requires Inv(s, owner) && CanRelease(s, t)
    ensures s.Has(LastTaken(s, t)) && s.EntryOf(LastTaken(s, t)).users > 0
    ensures Inv(Released(s, t), owner - {LastTaken(s, t)})
  {
    var d, s0 := LastTaken(s, t), Dropped(s, t);
    assert TaskOk(s, t);
    DroppedTask(s, t);
    NoStranger(s, owner, d, t);
    var x := s.EntryOf(d);
    ReleasedLeaves(s, owner, t);
    UnlockedOk(x, t);
    hide Inv, QueueOk, CountOk, QueueKeeps, Leaves, RestOk, Woken, EntryOk, TaskOk;
    LeavesKeeps(s, owner, s0, owner - {d}, t, d, Woken(x.(locked := false)));
  }

  lemma ReleasedLeaves(s: Locks, owner: map<Id, Task>, t: Task)
    requires Owned(s, owner) && CanRelease(s, t) && s.Has(LastTaken(s, t)) && EntryOk(s, owner, LastTaken(s, t))
    requires RestOk(s, t) && s.Holds(t, LastTaken(s, t)) && s.EntryOf(LastTaken(s, t)).locked
    ensures var d := LastTaken(s, t);
            Leaves(s, owner, Dropped(s, t), owner - {d}, t, d, Woken(s.EntryOf(d).(locked := false)))
  {
    var d, s0 := LastTaken(s, t), Dropped(s, t);
    var x := s.EntryOf(d);
    DroppedTask(s, t);
    DroppedOwned(s, owner, t);
    UnlockedOk(x, t);
    ReleasedQueue(s, owner, t);
    DroppedOnly(s, t);
    assert owner[d] == t;
    assert LeavesOwner(s0, owner, owner - {d}, t, d, Woken(x.(locked := false))) by {
      hide OnlyTask, RestOk, LeavesQueue, Dropped, QueueOk, CountOk, QueueKeeps;
    }
    hide QueueOk, CountOk, QueueKeeps, RestOk, Woken, OnlyTask, Owned, LeavesQueue, EntryOk, LeavesOwner, Flat;
  }

  lemma DroppedOnly(s: Locks, t: Task)
    requires CanRelease(s, t)
    ensures OnlyTask(s, Dropped(s, t), t) && !Waits(Dropped(s, t).FramesOf(t)) && !Waits(s.FramesOf(t))
    ensures Dropped(s, t).registry == s.registry && Dropped(s, t).entries == s.entries && Dropped(s, t).nextEntry == s.nextEntry
  {
  }

  lemma ReleasedQueue(s: Locks, owner: map<Id, Task>, t: Task)
    requires CanRelease(s, t) && s.Has(LastTaken(s, t)) && EntryOk(s, owner, LastTaken(s, t))
    requires s.EntryOf(LastTaken(s, t)).locked
    ensures LeavesQueue(s, t, LastTaken(s, t), Woken(s.EntryOf(LastTaken(s, t)).(locked := false)))
  {
    var d := LastTaken(s, t);
    var x := s.EntryOf(d);
    UnlockedOk(x, t);
    var x' := Woken(x.(locked := false));
    hide QueueOk, CountOk, QueueKeeps, Woken;
    forall k | 0 <= k < |x'.waiters| ensures x'.waiters[k].task != t && s.WaitsFor(x'.waiters[k].task, d) {
      assert s.WaitsFor(x.waiters[k].task, d);
    }
  }

  lemma DroppedOwned(s: Locks, owner: map<Id, Task>, t: Task)
    requires CanRelease(s, t) && Owned(s, owner) && s.Holds(t, LastTaken(s, t))
    ensures Owned(Dropped(s, t), owner - {LastTaken(s, t)})
  {
    var s0, d := Dropped(s, t), LastTaken(s, t);
    assert forall u, c :: s0.Holds(u, c) <==> s.Holds(u, c) && !(u == t && c == d);
  }

  // A step of `t` that touches no lock object.
  lemma NoLockStep(s: Locks, owner: map<Id, Task>, s': Locks, t: Task)
    requires Inv(s, owner) && OnlyTask(s, s', t) && s'.Held(t) == s.Held(t)
    requires s'.registry == s.registry && s'.entries == s.entries && s'.nextEntry == s.nextEntry
    requires !Waits(s.FramesOf(t)) && !Waits(s'.FramesOf(t)) && RestOk(s', t)
    ensures Inv(s', owner)
  {
    forall c | c in s'.registry ensures EntryOk(s', owner, c) {
      assert EntryOk(s, owner, c);
      SameEntry(s, owner, s', t, c);
    }
    forall u ensures TaskOk(s', u) {
      if u != t {
        assert TaskOk(s, u);
        SameTask(s, s', u);
      }
    }
    SameOwned(s, owner, s', t);
    hide EntryOk, TaskOk, Owned, OnlyTask;
  }

  lemma SameOwned(s: Locks, owner: map<Id, Task>, s': Locks, t: Task)
    requires Owned(s, owner) && OnlyTask(s, s', t) && s'.Held(t) == s.Held(t) && s'.registry == s.registry
    ensures Owned(s', owner)
  {
    assert forall u, c :: s'.Holds(u, c) <==> s.Holds(u, c);
  }

  lemma SameEntry(s: Locks, owner: map<Id, Task>, s': Locks, t: Task, c: Id)
    requires EntryOk(s, owner, c) && c in s.registry && OnlyTask(s, s', t) && !Waits(s.FramesOf(t))
    requires s'.registry == s.registry && s'.entries == s.entries && s'.nextEntry == s.nextEntry
    ensures EntryOk(s', owner, c)
  {
    forall i | 0 <= i < |s.EntryOf(c).waiters| ensures s'.WaitsFor(s.EntryOf(c).waiters[i].task, c) {
      assert s.WaitsFor(s.EntryOf(c).waiters[i].task, c);
    }
  }

  lemma SameTask(s: Locks, s': Locks, u: Task)
    requires TaskOk(s, u) && s'.FramesOf(u) == s.FramesOf(u) && s'.Held(u) == s.Held(u) && (u in s'.heldBy <==> u in s.heldBy)
    requires s'.registry == s.registry && s'.entries == s.entries
    ensures TaskOk(s', u)
  {
    forall i | 0 <= i < |s.FramesOf(u)| ensures FrameOk(s', u, s.FramesOf(u)[i]) {
      assert FrameOk(s, u, s.FramesOf(u)[i]);
    }
    if Waits(s.FramesOf(u)) {
      var d := Wanted(s, u);
      assert s.InQueue(u, d) && s'.EntryOf(d) == s.EntryOf(d);
    }
  }

  lemma EnteredKeeps(s: Locks, owner: map<Id, Task>, t: Task, wanted: seq<Id>)
    requires Inv(s, owner) && Running(s, t) && Ascending(wanted) && forall k :: 0 <= k < |wanted| ==> !s.Holds(t, wanted[k])
    ensures Inv(Entered(s, t, wanted), owner)
  {
    assert TaskOk(s, t);
    EnteredTask(s, t, wanted);
    EnteredOnly(s, t, wanted);
    assert !Waits(s.FramesOf(t)) && !Waits(Entered(s, t, wanted).FramesOf(t));
    hide Inv, RestOk, TaskOk, OnlyTask, Ascending, Running;
    NoLockStep(s, owner, Entered(s, t, wanted), t);
  }

  lemma EnteredOnly(s: Locks, t: Task, wanted: seq<Id>)
    ensures OnlyTask(s, Entered(s, t, wanted), t) && Entered(s, t, wanted).Held(t) == s.Held(t)
  {
  }

  lemma EnteredTask(s: Locks, t: Task, wanted: seq<Id>)
    requires RestOk(s, t) && Running(s, t) && Ascending(wanted) && forall k :: 0 <= k < |wanted| ==> !s.Holds(t, wanted[k])
    ensures RestOk(Entered(s, t, wanted), t)
  {
    var s', fs, f := Entered(s, t, wanted), s.FramesOf(t), Frame([], wanted, None);
    FlatTop(fs, f);
    assert Dirs(f.taken) == [] && Flat(fs) + [] == Flat(fs);
    EnteredFrames(s, t, wanted);
    assert forall d :: s'.Holds(t, d) <==> s.Holds(t, d);
    assert s'.FramesOf(t) == fs + [f];
    hide Flat, FrameOk, Ascending, NoRepeat, Dirs;
  }

  lemma EnteredFrames(s: Locks, t: Task, wanted: seq<Id>)
    requires RestOk(s, t) && Ascending(wanted) && forall k :: 0 <= k < |wanted| ==> !s.Holds(t, wanted[k])
    ensures var s' := Entered(s, t, wanted); forall i :: 0 <= i < |s'.FramesOf(t)| ==> FrameOk(s', t, s'.FramesOf(t)[i])
  {
    hide Flat, NoRepeat;
    var s', fs, f := Entered(s, t, wanted), s.FramesOf(t), Frame([], wanted, None);
    assert Dirs(f.taken) + wanted == wanted;
    forall i | 0 <= i < |s'.FramesOf(t)| ensures FrameOk(s', t, s'.FramesOf(t)[i]) {
      if i < |fs| { assert FrameOk(s, t, fs[i]); }
    }
  }

  // The end of a call: everything it took has been given back.
  predicate CanLeave(s: Locks, t: Task) {
    && s.FramesOf(t) != [] && Top(s.FramesOf(t)).todo == [] && Top(s.FramesOf(t)).waiting.None?
    && Top(s.FramesOf(t)).taken == []
  }

  function Left(s: Locks, t: Task): Locks
    requires s.FramesOf(t) != []
  {
    s.(frames := s.frames[t := s.FramesOf(t)[..|s.FramesOf(t)| - 1]], heldBy := if s.Held(t) == {} then s.heldBy - {t} else s.heldBy)
  }

  lemma LeftKeeps(s: Locks, owner: map<Id, Task>, t: Task)
    requires Inv(s, owner) && CanLeave(s, t)
    ensures Inv(Left(s, t), owner)
  {
    assert TaskOk(s, t);
    LeftTask(s, t);
    LeftOnly(s, t);
    hide Inv, RestOk, TaskOk, OnlyTask, Left;
    NoLockStep(s, owner, Left(s, t), t);
  }

  lemma LeftOnly(s: Locks, t: Task)
    requires CanLeave(s, t)
    ensures OnlyTask(s, Left(s, t), t) && !Waits(s.FramesOf(t))
    ensures Left(s, t).registry == s.registry && Left(s, t).entries == s.entries && Left(s, t).nextEntry == s.nextEntry
  {
  }

  lemma LeftTask(s: Locks, t: Task)
    requires RestOk(s, t) && CanLeave(s, t)
    ensures RestOk(Left(s, t), t) && Left(s, t).Held(t) == s.Held(t) && !Waits(Left(s, t).FramesOf(t))
  {
    var s', fs, n := Left(s, t), s.FramesOf(t), |s.FramesOf(t)| - 1;
    var inner := fs[..n];
    assert s'.FramesOf(t) == inner && s'.Held(t) == s.Held(t);
    assert fs == inner + [fs[n]];
    FlatTop(inner, fs[n]);
    assert Dirs(fs[n].taken) == [] && Flat(inner) + [] == Flat(inner);
    assert Flat(inner) == Flat(fs);
    LeftFrames(s, t);
    hide FrameOk, Dirs, NoRepeat;
    if n == 0 {
      assert Flat(inner) == [];
      hide Flat;
      assert forall d :: d in s.Held(t) ==> s.Holds(t, d);
      assert s.Held(t) == {};
    }
  }

  lemma LeftFrames(s: Locks, t: Task)
    requires RestOk(s, t) && CanLeave(s, t)
    ensures forall i :: 0 <= i < |Left(s, t).FramesOf(t)| ==> FrameOk(Left(s, t), t, Left(s, t).FramesOf(t)[i])
  {
    hide Flat, NoRepeat;
    var fs := s.FramesOf(t);
    forall i | 0 <= i < |Left(s, t).FramesOf(t)| ensures FrameOk(Left(s, t), t, Left(s, t).FramesOf(t)[i]) {
      assert FrameOk(s, t, fs[i]);
    }
  }

  // ------------------------------------------------------------------ first come, first served

  // The tasks queued for a directory, in the order they will have it.
  function Line(s: Locks, d: Id): seq<Task> {
    if s.Has(d) then seq(|s.EntryOf(d).waiters|, i requires 0 <= i < |s.EntryOf(d).waiters| => s.EntryOf(d).waiters[i].task) else []
  }

  ghost predicate SameLines(s: Locks, s': Locks) { forall c :: Line(s', c) == Line(s, c) }

  ghost predicate OtherLines(s: Locks, s': Locks, d: Id) { forall c :: c != d ==> Line(s', c) == Line(s, c) }

  // The lines are in the lock objects and nowhere else.
  lemma SameTables(s: Locks, s': Locks)
    requires s'.registry == s.registry && s'.entries == s.entries
    ensures SameLines(s, s')
  {
    assert forall c :: s'.Has(c) <==> s.Has(c);
  }

  // One lock object brought up to date.
  lemma RegisteredLines(s: Locks, owner: map<Id, Task>, d: Id, x: Entry)
    requires Inv(s, owner)
    ensures OtherLines(s, Registered(s, d, x), d)
    ensures |Line(Registered(s, d, x), d)| == |x.waiters| && forall k :: 0 <= k < |x.waiters| ==> Line(Registered(s, d, x), d)[k] == x.waiters[k].task
  {
    RegisteredOneEach(s, owner, d, x);
    InvOneEach(s, owner);
    hide Inv;
    forall c | c != d ensures Line(Registered(s, d, x), c) == Line(s, c) {
      if c in s.registry { assert s.Has(c) && Registered(s, d, x).EntryOf(c) == s.EntryOf(c); }
    }
  }

  // Who waits for a directory, in its lock object's words.
  lemma FoundLine(s: Locks, d: Id)
    ensures |Line(s, d)| == |Found(s, d).waiters| && forall k :: 0 <= k < |Line(s, d)| ==> Line(s, d)[k] == Found(s, d).waiters[k].task
  {
  }

  lemma LineOf(s: Locks, s': Locks, d: Id)
    requires s.Has(d) && s'.Has(d) && |s.EntryOf(d).waiters| == |s'.EntryOf(d).waiters|
    requires forall k :: 0 <= k < |s.EntryOf(d).waiters| ==> s'.EntryOf(d).waiters[k].task == s.EntryOf(d).waiters[k].task
    ensures Line(s', d) == Line(s, d)
  {
  }

  /** Whoever has to wait joins the end. */
  lemma QueuedLine(s: Locks, owner: map<Id, Task>, t: Task)
    requires Inv(s, owner) && Asking(s, t)
    ensures Line(Queued(s, t), Wanted(s, t)) == Line(s, Wanted(s, t)) + [t] && OtherLines(s, Queued(s, t), Wanted(s, t))
  {
    var d := Wanted(s, t);
    var x := Found(s, d);
    var x' := x.(waiters := x.waiters + [Waiter(t, false, false)], users := x.users + 1);
    RegisteredLines(s, owner, d, x');
    FoundLine(s, d);
    hide Inv, Line, Found, Registered;
    SameTables(Registered(s, d, x'), Queued(s, t));
  }

  lemma TookLine(s: Locks, owner: map<Id, Task>, t: Task)
    requires Inv(s, owner) && Asking(s, t)
    ensures SameLines(s, TookNow(s, t))
  {
    var d := Wanted(s, t);
    var x := Found(s, d);
    var x' := x.(locked := true, users := x.users + 1);
    RegisteredLines(s, owner, d, x');
    FoundLine(s, d);
    hide Inv, Line, Found, Registered;
    SameTables(Registered(s, d, x'), TookNow(s, t));
    assert Line(Registered(s, d, x'), d) == Line(s, d);
  }

  /** Whoever takes the lock out of the queue was first in it. */
  lemma ResumedLine(s: Locks, owner: map<Id, Task>, t: Task)
    requires Inv(s, owner) && CanResume(s, t, 0)
    ensures var d, s' := Wanted(s, t), Resumed(s, t, 0);
            Line(s, d) == [t] + Line(s', d) && OtherLines(s, s', d)
  {
    var d := Wanted(s, t);
    assert TaskOk(s, t) && s.WaitsFor(t, d);
    var x := Found(s, d);
    var x' := x.(locked := true, waiters := Without(x.waiters, 0));
    RegisteredLines(s, owner, d, x');
    FoundLine(s, d);
    hide Inv, TaskOk, Line, Found, Registered;
    SameTables(Registered(s, d, x'), Resumed(s, t, 0));
  }

  lemma CancelledLine(s: Locks, owner: map<Id, Task>, t: Task, i: nat)
    requires Inv(s, owner) && InLine(s, t, i)
    ensures SameLines(s, Cancelled(s, t, i))
  {
    var d, s' := Wanted(s, t), Cancelled(s, t, i);
    RegisteredLines(s, owner, d, s'.EntryOf(d));
    hide Inv, Line;
    assert s' == Registered(s, d, s'.EntryOf(d));
    LineOf(s, s', d);
  }

  lemma LeftLine(s: Locks, t: Task)
    requires s.FramesOf(t) != []
    ensures SameLines(s, Left(s, t))
  {
    assert forall c :: Left(s, t).Has(c) <==> s.Has(c);
  }

  // A lock object that is forgotten has nobody waiting for it.
  lemma ForgottenLines(s: Locks, owner: map<Id, Task>, s0: Locks, d: Id, x: Entry)
    requires Inv(s, owner) && s.Has(d) && x.users > 0 && CountOk(x.(users := x.users - 1))
    requires s0.registry == s.registry && s0.entries == s.entries
    ensures OtherLines(s, Forgotten(s0, d, x), d) && |Line(Forgotten(s0, d, x), d)| == |x.waiters|
    ensures forall k :: 0 <= k < |x.waiters| ==> Line(Forgotten(s0, d, x), d)[k] == x.waiters[k].task
  {
    var x', s' := x.(users := x.users - 1), Forgotten(s0, d, x);
    var r := Registered(s, d, x');
    RegisteredLines(s, owner, d, x');
    assert s'.entries == r.entries && s'.registry == if x'.users == 0 then r.registry - {d} else r.registry;
    hide Inv, Registered, Forgotten, Line;
    if x'.users > 0 { SameTables(r, s'); } else { UnregisteredLines(r, s', d); }
  }

  lemma UnregisteredLines(s: Locks, s': Locks, d: Id)
    requires s'.entries == s.entries && s'.registry == s.registry - {d}
    ensures OtherLines(s, s', d) && Line(s', d) == []
  {
    assert forall c :: c != d ==> (s'.Has(c) <==> s.Has(c));
  }

  lemma UnqueuedLine(s: Locks, owner: map<Id, Task>, t: Task, i: nat)
    requires Inv(s, owner) && InLine(s, t, i) && s.EntryOf(Wanted(s, t)).users > 0
    ensures var d, s' := Wanted(s, t), Unqueued(s, t, i);
            i < |Line(s, d)| && Line(s', d) == Line(s, d)[..i] + Line(s, d)[i + 1..] && OtherLines(s, s', d)
  {
    var d := Wanted(s, t);
    assert EntryOk(s, owner, d);
    DequeuedOk(s.EntryOf(d), i);
    var fs := s.FramesOf(t);
    hide QueueOk, QueueKeeps, EntryOk;
    ForgottenLines(s, owner, s.(frames := s.frames[t := WithTop(fs, Frame(Top(fs).taken, [], None))]), d, Dequeued(s.EntryOf(d), i));
  }

  lemma ReleasedLine(s: Locks, owner: map<Id, Task>, t: Task)
    requires Inv(s, owner) && CanRelease(s, t) && s.Has(LastTaken(s, t)) && s.EntryOf(LastTaken(s, t)).users > 0
    ensures SameLines(s, Released(s, t))
  {
    var d := LastTaken(s, t);
    assert TaskOk(s, t) && EntryOk(s, owner, d);
    DroppedTask(s, t);
    assert s.EntryOf(d).locked;
    UnlockedOk(s.EntryOf(d), t);
    hide QueueOk, QueueKeeps, EntryOk, TaskOk, Woken;
    ForgottenLines(s, owner, Dropped(s, t), d, Woken(s.EntryOf(d).(locked := false)));
  }

  // ------------------------------------------------------------------ no deadlock

  // Calls made inside a call name only directories already held; so only a task's outermost call takes any.
  ghost predicate Orderly(s: Locks) {
    forall t, i :: 1 <= i < |s.FramesOf(t)| ==> TakesNothing(s.FramesOf(t)[i])
  }

  predicate TakesNothing(f: Frame) { f.taken == [] && f.todo == [] }

  // A waiting task has one call that takes anything.
  lemma OneFrame(s: Locks, owner: map<Id, Task>, t: Task)
    requires Inv(s, owner) && Orderly(s) && Waits(s.FramesOf(t))
    ensures s.FramesOf(t) == [Top(s.FramesOf(t))] && Top(s.FramesOf(t)).todo != []
    ensures FrameOk(s, t, Top(s.FramesOf(t))) && forall d :: s.Holds(t, d) ==> d in Dirs(Top(s.FramesOf(t)).taken)
  {
    assert TaskOk(s, t);
    hide Inv, FrameOk, Flat;
    var fs := s.FramesOf(t);
    assert !TakesNothing(s.FramesOf(t)[|fs| - 1]);
    hide Orderly;
    assert FrameOk(s, t, fs[0]);
    FlatOne(fs);
  }

  lemma FlatOne(fs: seq<Frame>)
    requires |fs| == 1
    ensures fs == [Top(fs)] && Flat(fs) == Dirs(Top(fs).taken)
  {
    assert fs == [] + [fs[0]];
    FlatTop([], fs[0]);
  }

  /** A waiting task holds only directories that sort before the one it waits for. */
  lemma HoldsBelow(s: Locks, owner: map<Id, Task>, t: Task, d: Id)
    requires Inv(s, owner) && Orderly(s) && Waits(s.FramesOf(t)) && s.Holds(t, d)
    ensures Top(s.FramesOf(t)).todo != [] && Below(d, Wanted(s, t))
  {
    OneFrame(s, owner, t);
    hide Inv, Orderly, Flat;
    var f := Top(s.FramesOf(t));
    var all := Dirs(f.taken) + f.todo;
    var i :| 0 <= i < |Dirs(f.taken)| && Dirs(f.taken)[i] == d;
    assert all[i] == d && all[|f.taken|] == f.todo[0];
  }

  // What a waiting task waits for.
  function Target(s: Locks, t: Task): Id {
    if s.FramesOf(t) != [] && Top(s.FramesOf(t)).todo != [] then Wanted(s, t) else []
  }

  ghost predicate WaitsOn(s: Locks, t: Task, u: Task) { Waits(s.FramesOf(t)) && s.Holds(u, Target(s, t)) }

  ghost predicate Cycle(s: Locks, ts: seq<Task>) {
    && ts != [] && (forall i :: 0 <= i < |ts| - 1 ==> WaitsOn(s, ts[i], ts[i + 1]))
    && WaitsOn(s, ts[|ts| - 1], ts[0])
  }

  lemma {:induction false} ChainAscends(s: Locks, owner: map<Id, Task>, ts: seq<Task>, n: nat)
    requires Inv(s, owner) && Orderly(s) && Cycle(s, ts) && 0 < n < |ts|
    ensures Below(Target(s, ts[0]), Target(s, ts[n]))
  {
    hide Inv, Orderly;
    assert WaitsOn(s, ts[n - 1], ts[n]) && (n < |ts| - 1 ==> WaitsOn(s, ts[n], ts[n + 1]));
    HoldsBelow(s, owner, ts[n], Target(s, ts[n - 1]));
    if n > 1 {
      ChainAscends(s, owner, ts, n - 1);
      BelowChain(Target(s, ts[0]), Target(s, ts[n - 1]), Target(s, ts[n]));
    }
  }

  /** No tasks wait for each other in a circle. */
  lemma NoCycle(s: Locks, owner: map<Id, Task>, ts: seq<Task>)
    requires Inv(s, owner) && Orderly(s)
    ensures !Cycle(s, ts)
  {
    hide Inv, Orderly;
    if Cycle(s, ts) {
      var last := |ts| - 1;
      assert last > 0 ==> WaitsOn(s, ts[0], ts[1]);
      HoldsBelow(s, owner, ts[0], Target(s, ts[last]));
      if last > 0 {
        ChainAscends(s, owner, ts, last);
        NotBelowBack(Target(s, ts[0]), Target(s, ts[last]));
      }
    }
  }

  // The task has something to run: it is in a call and not queued, or its place in the queue has come or been cancelled.
  ghost predicate CanMove(s: Locks, t: Task) {
    s.FramesOf(t) != [] && (!Waits(s.FramesOf(t)) || exists i :: InLineReady(s, t, i))
  }

  ghost predicate InLineReady(s: Locks, t: Task, i: nat) {
    InLine(s, t, i) && (s.EntryOf(Wanted(s, t)).waiters[i].woken || s.EntryOf(Wanted(s, t)).waiters[i].cancelled)
  }

  ghost function WaitingAbove(s: Locks, t: Task): set<Task>
    requires s.FramesOf(t) != [] && Top(s.FramesOf(t)).todo != []
  {
    set u | u in s.frames && Waits(s.FramesOf(u)) && Top(s.FramesOf(u)).todo != [] && Below(Wanted(s, t), Wanted(s, u))
  }

  /** Whenever somebody waits, somebody can move: whoever is at the end of the line of holders. */
  lemma SomeoneCanMove(s: Locks, owner: map<Id, Task>, t: Task) returns (u: Task)
    requires Inv(s, owner) && Orderly(s) && Waits(s.FramesOf(t)) && Top(s.FramesOf(t)).todo != []
    ensures CanMove(s, u)
    decreases WaitingAbove(s, t)
  {
    assert TaskOk(s, t);
    var d := Wanted(s, t);
    assert EntryOk(s, owner, d);
    var x := s.EntryOf(d);
    if !x.locked {
      u := x.waiters[0].task;
      assert s.WaitsFor(u, d);
      assert InLineReady(s, u, 0);
    } else {
      u := owner[d];
      assert s.Holds(u, d);
      assert TaskOk(s, u);
      if Waits(s.FramesOf(u)) {
        HoldsBelow(s, owner, u, d);
        FewerAbove(s, t, u);
        u := SomeoneCanMove(s, owner, u);
      }
    }
  }

  lemma FewerAbove(s: Locks, t: Task, u: Task)
    requires s.FramesOf(t) != [] && Top(s.FramesOf(t)).todo != []
    requires Waits(s.FramesOf(u)) && Top(s.FramesOf(u)).todo != [] && Below(Wanted(s, t), Wanted(s, u))
    ensures WaitingAbove(s, u) < WaitingAbove(s, t)
  {
    forall v | v in WaitingAbove(s, u) ensures v in WaitingAbove(s, t) {
      BelowChain(Wanted(s, t), Wanted(s, u), Wanted(s, v));
    }
    assert u in WaitingAbove(s, t) && u !in WaitingAbove(s, u);
  }

  // The discipline is about one task at a time.
  lemma OrderlyStep(s: Locks, s': Locks, t: Task)
    requires Orderly(s) && forall u :: u != t ==> s'.FramesOf(u) == s.FramesOf(u)
    requires forall i :: 1 <= i < |s'.FramesOf(t)| ==> TakesNothing(s'.FramesOf(t)[i])
    ensures Orderly(s')
  {
    forall u, i | 1 <= i < |s'.FramesOf(u)| ensures TakesNothing(s'.FramesOf(u)[i]) {
      if u != t { assert TakesNothing(s.FramesOf(u)[i]); }
    }
  }

  // A call that still wants something is, by the discipline, its task's outermost.
  lemma OutermostAsks(s: Locks, t: Task)
    requires Orderly(s) && s.FramesOf(t) != [] && !TakesNothing(Top(s.FramesOf(t)))
    ensures |s.FramesOf(t)| == 1
  {
    hide Orderly;
    if |s.FramesOf(t)| > 1 { InnerTakesNothing(s, t, |s.FramesOf(t)| - 1); }
  }

  lemma InnerTakesNothing(s: Locks, t: Task, i: nat)
    requires Orderly(s) && 1 <= i < |s.FramesOf(t)|
    ensures TakesNothing(s.FramesOf(t)[i])
  {
  }

  // ------------------------------------------------------------------ the module-level tables of src/vfs.py

  class LockTable {
    var registry: map<Id, EntryId>        // `_dir_locks`
    var entries: map<EntryId, Entry>      // the lock objects, registered or forgotten
    var heldBy: map<Task, set<Id>>        // `_dirs_held_by`
    var frames: map<Task, seq<Frame>>
    var nextEntry: EntryId
    ghost var owner: map<Id, Task>

    function State(): Locks
      reads this
    {
      Locks(registry, entries, heldBy, frames, nextEntry)
    }

    ghost predicate Valid()
      reads this
    {
      Inv(State(), owner)
    }

    constructor ()
      ensures Valid() && Orderly(State()) && registry == map[] && heldBy == map[]
    {
      registry, entries, heldBy, frames, nextEntry := map[], map[], map[], map[], 0;
      owner := map[];
      new;
      assert forall t :: State().FramesOf(t) == [] && State().Held(t) == {};
    }

    // `_holds_dir`.
    function HoldsDir(t: Task, d: Id): bool
      reads this
    {
      State().Holds(t, d)
    }

    // The beginning of `_locked_dirs`: what is not held already, sorted.
    method Enter(t: Task, dirs: set<Id>)
      requires Valid() && Running(State(), t)
      modifies this
      ensures Valid() && Running(old(State()), t) && exists wanted: seq<Id> ::
                Ascending(wanted) && (forall d :: d in wanted <==> d in dirs && d != [] && !old(State()).Holds(t, d))
                && State() == Entered(old(State()), t, wanted)
      ensures old(Orderly(State())) && (dirs <= old(State()).Held(t) + {[]} || old(State()).FramesOf(t) == [])
              ==> Orderly(State())
    {
      hide Inv, Orderly;
      ghost var s := State();
      var fs := State().FramesOf(t);
      var held := State().Held(t);
      var wanted := SortIds(dirs - {[]} - held);
      assert forall k :: 0 <= k < |wanted| ==> wanted[k] in wanted;
      EnteredKeeps(s, owner, t, wanted);
      heldBy := heldBy[t := held];
      frames := frames[t := fs + [Frame([], wanted, None)]];
      assert State() == Entered(s, t, wanted);
      if Orderly(s) && (dirs <= s.Held(t) + {[]} || fs == []) {
        assert wanted != [] ==> wanted[0] in wanted;
        EnterOrderly(s, t, wanted);
      }
    }

    // One turn of the acquiring loop: count, then take the lock or join its queue.
    method TakeNext(t: Task) returns (got: bool)
      requires Valid() && Asking(State(), t)
      modifies this
      ensures Valid() && got == Free(Found(old(State()), Wanted(old(State()), t)))
      ensures State() == if got then TookNow(old(State()), t) else Queued(old(State()), t)
      ensures old(Orderly(State())) ==> Orderly(State())
      ensures got ==> HoldsDir(t, Wanted(old(State()), t)) && SameLines(old(State()), State())
      ensures !got ==> Line(State(), Wanted(old(State()), t)) == Line(old(State()), Wanted(old(State()), t)) + [t]
                       && OtherLines(old(State()), State(), Wanted(old(State()), t))
    {
      hide Inv, Orderly, Free, Line;
      ghost var s := State();
      EntriesThere(s, owner);
      TookLine(s, owner, t);
      QueuedLine(s, owner, t);
      got := Free(Found(State(), Wanted(State(), t)));
      if got { TakeLock(t); } else { JoinQueue(t); }
      if Orderly(s) { TopOrderly(s, State(), t); }
    }

    // With nobody in the way.
    method TakeLock(t: Task)
      requires Valid() && Asking(State(), t) && Free(Found(State(), Wanted(State(), t)))
      requires forall c :: c in registry ==> registry[c] in entries
      modifies this
      ensures Valid() && State() == TookNow(old(State()), t)
    {
      hide Inv, Free;
      ghost var s := State();
      var fs := State().FramesOf(t);
      var f := Top(fs);
      var d := f.todo[0];
      var x := Found(State(), d);
      TookNowKeeps(s, owner, t);
      Register(d, x.(locked := true, users := x.users + 1));
      frames := frames[t := WithTop(fs, Frame(f.taken + [(d, registry[d])], f.todo[1..], None))];
      heldBy := heldBy[t := State().Held(t) + {d}];
      owner := owner[d := t];
      assert State() == TookNow(s, t);
    }

    // Behind whoever is there.
    method JoinQueue(t: Task)
      requires Valid() && Asking(State(), t) && !Free(Found(State(), Wanted(State(), t)))
      requires forall c :: c in registry ==> registry[c] in entries
      modifies this`registry, this`entries, this`nextEntry, this`frames
      ensures Valid() && State() == Queued(old(State()), t)
    {
      hide Inv, Free;
      ghost var s := State();
      var fs := State().FramesOf(t);
      var d := Top(fs).todo[0];
      var x := Found(State(), d);
      QueuedKeeps(s, owner, t);
      Register(d, x.(waiters := x.waiters + [Waiter(t, false, false)], users := x.users + 1));
      frames := frames[t := WithTop(fs, Top(fs).(waiting := Some(registry[d])))];
      assert State() == Queued(s, t);
    }

    // The registered lock object, or a new one, brought up to date.
    method Register(d: Id, x: Entry)
      requires d in registry ==> registry[d] in entries
      modifies this`registry, this`entries, this`nextEntry
      ensures State() == Registered(old(State()), d, x)
    {
      if d in registry {
        entries := entries[registry[d] := x];
      } else {
        registry := registry[d := nextEntry];
        entries := entries[nextEntry := x];
        nextEntry := nextEntry + 1;
      }
    }

    // The woken waiter runs.
    method Resume(t: Task, i: nat)
      requires Valid() && CanResume(State(), t, i)
      modifies this
      ensures Valid() && State() == Resumed(old(State()), t, i) && HoldsDir(t, Wanted(old(State()), t))
      ensures old(Orderly(State())) ==> Orderly(State())
      ensures Line(old(State()), Wanted(old(State()), t)) == [t] + Line(State(), Wanted(old(State()), t))
              && OtherLines(old(State()), State(), Wanted(old(State()), t))
    {
      hide Inv, Orderly, Line;
      ghost var s := State();
      var fs := State().FramesOf(t);
      var f := Top(fs);
      var d := f.todo[0];
      EntriesThere(s, owner);
      ResumedKeeps(s, owner, t, i);
      ResumedLine(s, owner, t);
      var e := registry[d];
      var x := entries[e];
      entries := entries[e := x.(locked := true, waiters := Without(x.waiters, i))];
      frames := frames[t := WithTop(fs, Frame(f.taken + [(d, e)], f.todo[1..], None))];
      heldBy := heldBy[t := (if t in heldBy then heldBy[t] else {}) + {d}];
      owner := owner[d := t];
      if Orderly(s) { TopOrderly(s, State(), t); }
    }

    // `task.cancel()` on a queued task.
    method Cancel(t: Task, i: nat)
      requires Valid() && InLine(State(), t, i)
      modifies this`entries
      ensures Valid() && State() == Cancelled(old(State()), t, i)
      ensures old(Orderly(State())) ==> Orderly(State())
      ensures SameLines(old(State()), State())
    {
      hide Inv, Orderly, Line;
      ghost var s := State();
      CancelledLine(s, owner, t, i);
      CancelledKeeps(s, owner, t, i);
      var e := registry[Wanted(State(), t)];
      var x := entries[e];
      entries := entries[e := x.(waiters := x.waiters[i := x.waiters[i].(cancelled := true)])];
      if Orderly(s) { SameFrames(s, State()); }
    }

    // A cancelled waiter runs: out of the queue, and everything this call had taken given back.
    method Unwind(t: Task, i: nat)
      requires Valid() && InLine(State(), t, i) && State().EntryOf(Wanted(State(), t)).waiters[i].cancelled
      modifies this
      ensures Valid() && Ended(old(State()), State(), t)
      ensures old(Orderly(State())) ==> Orderly(State())
      ensures var d, was := Wanted(old(State()), t), Line(old(State()), Wanted(old(State()), t));
              i < |was| && Line(State(), d) == was[..i] + was[i + 1..] && OtherLines(old(State()), State(), d)
    {
      hide Inv, Orderly, Line;
      ghost var s := State();
      UnqueuedKeeps(s, owner, t, i);
      UnqueuedLine(s, owner, t, i);
      var fs := State().FramesOf(t);
      var d := Wanted(State(), t);
      frames := frames[t := WithTop(fs, Frame(Top(fs).taken, [], None))];
      Forget(d, Dequeued(entries[registry[d]], i));
      assert State() == Unqueued(s, t, i);
      ghost var mid := State();
      GaveUp(s, t, i);
      Exit(t);
      EndedAfter(s, mid, State(), t);
      if Orderly(s) { EndedOrderly(s, State(), t); }
    }

    // `_forget`, with the lock object as `release` or the failed `acquire` has left it.
    method Forget(d: Id, x: Entry)
      requires d in registry && registry[d] in entries && x.users > 0
      modifies this`registry, this`entries
      ensures State() == Forgotten(old(State()), d, x)
    {
      var e := registry[d];
      entries := entries[e := x.(users := x.users - 1)];
      if entries[e].users == 0 && d in registry && registry[d] == e {
        registry := registry - {d};
      }
    }

    // One round of the `finally` loop.
    method ReleaseLast(t: Task)
      requires Valid() && CanRelease(State(), t)
      requires State().Has(LastTaken(State(), t)) && State().EntryOf(LastTaken(State(), t)).users > 0
      modifies this
      ensures Valid() && State() == Released(old(State()), t) && SameLines(old(State()), State())
    {
      hide Inv, Line;
      ghost var s := State();
      ReleasedLine(s, owner, t);
      ReleasedKeeps(s, owner, t);
      var fs := State().FramesOf(t);
      var f := Top(fs);
      var d := f.taken[|f.taken| - 1].0;
      frames := frames[t := WithTop(fs, Frame(f.taken[..|f.taken| - 1], [], None))];
      heldBy := heldBy[t := (if t in heldBy then heldBy[t] else {}) - {d}];
      owner := owner - {d};
      Forget(d, Woken(entries[registry[d]].(locked := false)));
    }

    // The `finally` of `_locked_dirs`: everything this call took is given back, in reverse.
    method Exit(t: Task)
      requires Valid() && State().FramesOf(t) != [] && Running(State(), t)
      modifies this
      ensures Valid() && Ended(old(State()), State(), t) && SameLines(old(State()), State())
      ensures old(Orderly(State())) ==> Orderly(State())
    {
      hide Inv, Orderly, Line;
      ghost var s := State();
      NothingReleased(s, t);
      while Top(State().FramesOf(t)).taken != []
        invariant Valid() && PartReleased(s, State(), t) && SameLines(s, State())
        decreases |Top(State().FramesOf(t)).taken|
      {
        ghost var before := State();
        assert CanRelease(State(), t);
        ReleasedKeeps(State(), owner, t);
        ReleaseLast(t);
        ReleasedMore(s, before, t);
      }
      ghost var last := State();
      LeftKeeps(State(), owner, t);
      frames := frames[t := State().FramesOf(t)[..|State().FramesOf(t)| - 1]];
      if State().Held(t) == {} { heldBy := heldBy - {t}; }
      assert State() == Left(last, t);
      LeftLine(last, t);
      AllReleased(s, last, t);
      if Orderly(s) { EndedOrderly(s, State(), t); }
    }
  }

  lemma EntriesThere(s: Locks, owner: map<Id, Task>)
    requires Inv(s, owner)
    ensures forall c :: c in s.registry ==> s.Has(c)
  {
    forall c | c in s.registry ensures s.Has(c) {
      assert EntryOk(s, owner, c);
    }
  }

  lemma EnterOrderly(s: Locks, t: Task, wanted: seq<Id>)
    requires Orderly(s) && (wanted == [] || s.FramesOf(t) == [])
    ensures Orderly(Entered(s, t, wanted))
  {
    var s', fs := Entered(s, t, wanted), s.FramesOf(t);
    forall i | 1 <= i < |s'.FramesOf(t)| ensures TakesNothing(s'.FramesOf(t)[i]) {
      if i < |fs| { assert TakesNothing(s.FramesOf(t)[i]); }
    }
    OrderlyStep(s, s', t);
  }

  // A step on the top frame of a task that still wanted something.
  lemma TopOrderly(s: Locks, s': Locks, t: Task)
    requires Orderly(s) && s.FramesOf(t) != [] && Top(s.FramesOf(t)).todo != [] && |s'.FramesOf(t)| == |s.FramesOf(t)|
    requires forall u :: u != t ==> s'.FramesOf(u) == s.FramesOf(u)
    ensures Orderly(s')
  {
    OutermostAsks(s, t);
    OrderlyStep(s, s', t);
  }

  lemma SameFrames(s: Locks, s': Locks)
    requires Orderly(s) && s'.frames == s.frames
    ensures Orderly(s')
  {
    forall u, i | 1 <= i < |s'.FramesOf(u)| ensures TakesNothing(s'.FramesOf(u)[i]) {
      assert TakesNothing(s.FramesOf(u)[i]);
    }
  }

  // ------------------------------------------------------------------ the end of a call

  // The innermost call of `t` is over: what it took is given back, and nobody else's holdings have changed.
  ghost predicate Ended(s: Locks, s': Locks, t: Task) {
    && s.FramesOf(t) != []
    && (forall u :: u != t ==> s'.FramesOf(u) == s.FramesOf(u) && s'.Held(u) == s.Held(u))
    && s'.FramesOf(t) == s.FramesOf(t)[..|s.FramesOf(t)| - 1]
    && (forall d :: s'.Holds(t, d) <==> s.Holds(t, d) && d !in Dirs(Top(s.FramesOf(t)).taken))
  }

  // Part of it has been given back.
  ghost predicate PartReleased(s: Locks, s': Locks, t: Task) {
    && s.FramesOf(t) != [] && |s'.FramesOf(t)| == |s.FramesOf(t)|
    && (forall u :: u != t ==> s'.FramesOf(u) == s.FramesOf(u) && s'.Held(u) == s.Held(u))
    && s'.FramesOf(t)[..|s.FramesOf(t)| - 1] == s.FramesOf(t)[..|s.FramesOf(t)| - 1]
    && Top(s'.FramesOf(t)).todo == [] && Top(s'.FramesOf(t)).waiting.None?
    && var f, f' := Top(s.FramesOf(t)), Top(s'.FramesOf(t));
       && |f'.taken| <= |f.taken| && f'.taken == f.taken[..|f'.taken|]
       && (forall d :: s'.Holds(t, d) <==> s.Holds(t, d) && d !in Dirs(f.taken[|f'.taken|..]))
  }

  lemma NothingReleased(s: Locks, t: Task)
    requires s.FramesOf(t) != [] && Running(s, t)
    ensures PartReleased(s, s, t)
  {
    var f := Top(s.FramesOf(t));
    assert Dirs(f.taken[|f.taken|..]) == [];
  }

  lemma ReleasedMore(s: Locks, mid: Locks, t: Task)
    requires PartReleased(s, mid, t) && CanRelease(mid, t) && mid.Has(LastTaken(mid, t)) && mid.EntryOf(LastTaken(mid, t)).users > 0
    ensures PartReleased(s, Released(mid, t), t)
    ensures |Top(Released(mid, t).FramesOf(t)).taken| < |Top(mid.FramesOf(t)).taken|
  {
    var s' := Released(mid, t);
    var f, g, f' := Top(s.FramesOf(t)), Top(mid.FramesOf(t)), Top(s'.FramesOf(t));
    var n := |g.taken|;
    assert f'.taken == g.taken[..n - 1] && f.taken[n - 1] == g.taken[n - 1];
    assert Dirs(f.taken[n - 1..]) == [LastTaken(mid, t)] + Dirs(f.taken[n..]);
    assert forall u :: u != t ==> s'.FramesOf(u) == mid.FramesOf(u) && s'.Held(u) == mid.Held(u);
    assert forall d :: s'.Holds(t, d) <==> mid.Holds(t, d) && d != LastTaken(mid, t);
  }

  lemma AllReleased(s: Locks, last: Locks, t: Task)
    requires PartReleased(s, last, t) && Top(last.FramesOf(t)).taken == []
    ensures Ended(s, Left(last, t), t)
  {
    var f := Top(s.FramesOf(t));
    assert f.taken[0..] == f.taken;
    assert forall d :: Left(last, t).Holds(t, d) <==> last.Holds(t, d);
  }

  // Giving up the wait leaves what was taken, to be given back next.
  lemma GaveUp(s: Locks, t: Task, i: nat)
    requires InLine(s, t, i) && s.EntryOf(Wanted(s, t)).users > 0
    ensures var mid := Unqueued(s, t, i);
            && Running(mid, t) && |mid.FramesOf(t)| == |s.FramesOf(t)| > 0
            && Top(mid.FramesOf(t)).taken == Top(s.FramesOf(t)).taken
            && mid.FramesOf(t)[..|s.FramesOf(t)| - 1] == s.FramesOf(t)[..|s.FramesOf(t)| - 1]
            && (forall u :: mid.Held(u) == s.Held(u)) && forall u :: u != t ==> mid.FramesOf(u) == s.FramesOf(u)
  {
  }

  lemma EndedAfter(s: Locks, mid: Locks, s': Locks, t: Task)
    requires Ended(mid, s', t) && s.FramesOf(t) != [] && |mid.FramesOf(t)| == |s.FramesOf(t)|
    requires Top(mid.FramesOf(t)).taken == Top(s.FramesOf(t)).taken
    requires mid.FramesOf(t)[..|s.FramesOf(t)| - 1] == s.FramesOf(t)[..|s.FramesOf(t)| - 1]
    requires (forall u :: mid.Held(u) == s.Held(u)) && forall u :: u != t ==> mid.FramesOf(u) == s.FramesOf(u)
    ensures Ended(s, s', t)
  {
    assert forall d :: mid.Holds(t, d) <==> s.Holds(t, d);
  }

  lemma EndedOrderly(s: Locks, s': Locks, t: Task)
    requires Ended(s, s', t) && Orderly(s)
    ensures Orderly(s')
  {
    forall i | 1 <= i < |s'.FramesOf(t)| ensures TakesNothing(s'.FramesOf(t)[i]) {
      assert TakesNothing(s.FramesOf(t)[i]);
    }
    OrderlyStep(s, s', t);
  }
}
