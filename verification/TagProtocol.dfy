/**
 Many tasks in one tree (src/vfs.py): stage, change and promote interleaved at every database call, with
 tasks dying anywhere.

 A directory that a task died in between its change and its promotion is `half` done: only its pending tag
 covers its children. Staging it again overwrites that tag. If the second task dies too, before its own
 change, the directory is `lost`: neither tag need cover it, and then nothing ever lists it again. Everywhere
 else every step keeps every directory verifying, and a completed operation heals what it touched.
 */
module TagProtocol {
  import opened Wrappers
  import opened Tags
  import opened Tree
  import opened DirectoryTags
  import RollbackFacts
  import MoveFacts

  type Task = nat

  // One structural change, with what its task read, or remembers, from before it took any lock.
  datatype Plan =
    | Insert(n: Node)                                           // `makedir`, `_create_file`
    | Attach(id: Id, d: Id, name: Name)                         // `_finish_overwrite`
    | Withdraw(id: Id, p: Id, was: Name)                        // `_rollback`
    | Purge(id: Id, p: Id, was: Name)                           // `purge`
    | Move(id: Id, s: Id, was: Name, t: Id, name: Name)         // `rename`, and `restore` with `keep_both`

  // A directory's two entry tags.
  datatype EntryTags = EntryTags(entriesMac: Option<Tag>, pending: Option<Tag>)

  /**
   How far it has come: the tags it has fetched and the next ones it has computed, by directory; which of these
   it has staged and which promoted; what a purge has collected, and how much of it has been deleted.
   */
  datatype Job = Job(plan: Plan, seen: map<Id, EntryTags>, drafted: map<Id, Tag>, staged: set<Id>, changed: bool,
                     promoted: set<Id>, doomed: seq<Id>, next: nat)

  // `known` holds every id that was ever in the database.
  datatype World = World(db: Db, owner: map<Id, Task>, jobs: map<Task, Job>, half: set<Id>, lost: set<Id>, known: set<Id>)

  datatype Step =
    | Spawn(t: Task, plan: Plan)
    | Acquire(t: Task, d: Id)
    | Collect(t: Task, c: Id)
    | Fetch(t: Task, d: Id)      // `_stage_entries`, call by call: the directory's document,
    | List(t: Task, d: Id)       // its children, checked against it,
    | Stage(t: Task, d: Id)      // and the write of the tag to come
    | Change(t: Task)
    | Delete(t: Task)
    | Promote(t: Task, d: Id)
    | Finish(t: Task)
    | Die(t: Task)
    | Touch(n: Node)
    | Begin(n: Node)
    | Discard(id: Id)

  // ------------------------------------------------------------------ plans

  function Parent(n: Node): Id { if n.parentId.Some? then n.parentId.value else [] }

  function Dirs(plan: Plan): set<Id> {
    match plan
    case Insert(n) => {Parent(n)}
    case Attach(_, d, _) => {d}
    case Withdraw(_, p, _) => {p}
    case Purge(_, p, _) => {p}
    case Move(_, s, _, t, _) => {s, t}
  }

  function Adds(plan: Plan, d: Id): set<Entry> {
    match plan
    case Insert(n) => {Pair(n)}
    case Attach(id, _, name) => {(id, name)}
    case Withdraw(_, _, _) => {}
    case Purge(_, _, _) => {}
    case Move(id, _, _, t, name) => if d == t then {(id, name)} else {}
  }

  function Removes(plan: Plan, d: Id): set<Entry> {
    match plan
    case Insert(_) => {}
    case Attach(_, _, _) => {}
    case Withdraw(id, _, was) => {(id, was)}
    case Purge(id, _, was) => {(id, was)}
    case Move(id, s, was, _, _) => if d == s then {(id, was)} else {}
  }

  function Target(plan: Plan): Id { if plan.Insert? then plan.n.id else plan.id }

  // The write, or the first of the writes, that changes membership. An update of a missing document does nothing.
  function Changed(db: Db, plan: Plan): Db {
    match plan
    case Insert(n) => db[n.id := n]
    case Attach(id, d, name) => if id in db then db[id := Renamed(db[id], d, name)] else db
    case Withdraw(id, _, _) => db - {id}
    case Purge(id, _, _) => db - {id}
    case Move(id, _, _, t, name) => if id in db then db[id := Renamed(db[id], t, name)] else db
  }

  // What a staged directory is about to hold.
  function Planned(db: Db, plan: Plan, d: Id): Tag { StagedMac(db, d, Adds(plan, d), Removes(plan, d)) }

  // ------------------------------------------------------------------ steps

  predicate Held(w: World, t: Task, d: Id) { t in w.jobs && d in w.owner && w.owner[d] == t }

  predicate NewNodeOk(n: Node) {
    && n.parentId.Some? && n.filename.Some? && n.mac == MacOf(n) && n.id != n.parentId.value
    && (n.DirNode? ==> n.entriesMac == Some(EntriesTag(n.id, multiset{})))
  }

  // What a task has seen in the database when it sets out.
  predicate Seen(db: Db, plan: Plan) {
    match plan
    case Insert(n) => NewNodeOk(n)
    case Attach(id, d, _) => id in db && db[id].FileNode? && db[id].parentId.None? && id != d
    case Withdraw(id, p, _) => id != p
    case Purge(id, p, was) => IsChild(db, id, p) && NameOf(db[id]) == was && id != p
    case Move(id, s, _, t, _) => id in db && id != s && id != t
  }

  // Ids no other task is creating or attaching; a handle's own attaching is over when it gives up.
  ghost predicate Exclusive(w: World, plan: Plan) {
    && (plan.Insert? || plan.Attach? ==> forall u :: u in w.jobs ==> w.jobs[u].plan.Move? || Target(w.jobs[u].plan) != Target(plan))
    && (plan.Withdraw? ==> plan.id in w.known && FreshId(w, plan.id))
  }

  // No purge has collected `id` from below the node it was asked for.
  ghost predicate Unclaimed(w: World, id: Id) {
    forall u :: u in w.jobs ==> !Claims(w.jobs[u], id)
  }

  predicate Claims(j: Job, id: Id) {
    j.doomed != [] && id in j.doomed[1..]
  }

  ghost predicate CanSpawn(w: World, t: Task, plan: Plan) {
    && t !in w.jobs && Seen(w.db, plan) && Dirs(plan) <= w.known && Exclusive(w, plan)
    && (plan.Insert? ==> plan.n.id !in w.known)
  }

  predicate CanAcquire(w: World, t: Task, d: Id) { t in w.jobs && d in Dirs(w.jobs[t].plan) && d !in w.owner }

  predicate CanCollect(w: World, t: Task, c: Id) {
    && t in w.jobs && w.jobs[t].plan.Purge? && !w.jobs[t].changed && c !in w.jobs[t].doomed
    && (if w.jobs[t].doomed == [] then c == w.jobs[t].plan.id
        else c in w.db && w.db[c].parentId.Some? && w.db[c].parentId.value in w.jobs[t].doomed)
  }

  predicate CanFetch(w: World, t: Task, d: Id) {
    Held(w, t, d) && d in Dirs(w.jobs[t].plan) && d !in w.jobs[t].seen && !w.jobs[t].changed && IsDir(w.db, d)
  }

  // The children are checked against the tags fetched before.
  predicate CanList(w: World, t: Task, d: Id) {
    && Held(w, t, d) && d in w.jobs[t].seen && d !in w.jobs[t].drafted && !w.jobs[t].changed
    && Verifies(w.jobs[t].seen[d], EntriesMac(d, ChildPairs(w.db, d))) && StillThere(w.db, w.jobs[t].plan, d)
  }

  // `verify_dir_entries`.
  predicate Verifies(tags: EntryTags, actual: Tag) { tags.entriesMac == Some(actual) || tags.pending == Some(actual) }

  /**
   `rename`, `restore` and `purge` read the node before taking the lock, and `_rollback` goes by what its handle
   last knew of it; this is what all four rely on.
   */
  predicate StillThere(db: Db, plan: Plan, d: Id) {
    match plan
    case Move(id, s, was, _, _) => d == s ==> IsChild(db, id, s) && NameOf(db[id]) == was
    case Withdraw(id, p, was) => id in db ==> IsChild(db, id, p) && NameOf(db[id]) == was
    case Purge(id, p, was) => id in db ==> IsChild(db, id, p) && NameOf(db[id]) == was
    case _ => true
  }

  predicate CanStage(w: World, t: Task, d: Id) {
    Held(w, t, d) && d in w.jobs[t].drafted && d !in w.jobs[t].staged && !w.jobs[t].changed
  }

  // Nor may a purge have collected what is moved.
  ghost predicate CanChange(w: World, t: Task) {
    && t in w.jobs && !w.jobs[t].changed && w.jobs[t].staged == Dirs(w.jobs[t].plan)
    && (w.jobs[t].plan.Purge? ==> w.jobs[t].doomed != [])
    && (w.jobs[t].plan.Move? ==> w.jobs[t].plan.id in w.db && Unclaimed(w, w.jobs[t].plan.id))
  }

  predicate CanDelete(w: World, t: Task) {
    t in w.jobs && w.jobs[t].plan.Purge? && w.jobs[t].changed && w.jobs[t].next < |w.jobs[t].doomed|
  }

  predicate CanPromote(w: World, t: Task, d: Id) {
    && t in w.jobs && w.jobs[t].changed && d in w.jobs[t].staged && d in w.jobs[t].drafted && d !in w.jobs[t].promoted
    && (w.jobs[t].plan.Purge? ==> w.jobs[t].next == |w.jobs[t].doomed|)
  }

  predicate CanFinish(w: World, t: Task) { t in w.jobs && w.jobs[t].changed && w.jobs[t].promoted == w.jobs[t].staged }

  // Content, trash state, times: anything that is no part of membership.
  predicate CanTouch(w: World, n: Node) {
    && n.id in w.db && n.mac == MacOf(n) && n.parentId == w.db[n.id].parentId && NameOf(n) == NameOf(w.db[n.id])
    && n.DirNode? == w.db[n.id].DirNode?
    && (n.DirNode? ==> n.entriesMac == w.db[n.id].entriesMac && n.pending == w.db[n.id].pending)
  }

  // The incoming node of an overwrite, and its unwinding.
  ghost predicate CanBegin(w: World, n: Node) {
    n.id !in w.known && n.FileNode? && n.parentId.None? && n.mac == MacOf(n) && FreshId(w, n.id)
  }

  ghost predicate CanDiscard(w: World, id: Id) {
    id in w.db && w.db[id].FileNode? && w.db[id].parentId.None? && FreshId(w, id)
  }

  ghost predicate Enabled(w: World, step: Step) {
    match step
    case Spawn(t, plan) => CanSpawn(w, t, plan)
    case Acquire(t, d) => CanAcquire(w, t, d)
    case Collect(t, c) => CanCollect(w, t, c)
    case Fetch(t, d) => CanFetch(w, t, d)
    case List(t, d) => CanList(w, t, d)
    case Stage(t, d) => CanStage(w, t, d)
    case Change(t) => CanChange(w, t)
    case Delete(t) => CanDelete(w, t)
    case Promote(t, d) => CanPromote(w, t, d)
    case Finish(t) => CanFinish(w, t)
    case Die(t) => t in w.jobs
    case Touch(n) => CanTouch(w, n)
    case Begin(n) => CanBegin(w, n)
    case Discard(id) => CanDiscard(w, id)
  }

  // Nobody is creating or attaching it.
  ghost predicate FreshId(w: World, id: Id) {
    forall u :: u in w.jobs && (w.jobs[u].plan.Insert? || w.jobs[u].plan.Attach?) ==> Target(w.jobs[u].plan) != id
  }

  // The directories of a job that are staged and waiting for its change; for its promotion.
  function Open(j: Job): set<Id> { if j.changed then {} else j.staged }

  function Waiting(j: Job): set<Id> { if j.changed then j.staged - j.promoted else {} }

  function Freed(owner: map<Id, Task>, t: Task): map<Id, Task> { map d | d in owner && owner[d] != t :: owner[d] }

  function Spawned(w: World, t: Task, plan: Plan): World { w.(jobs := w.jobs[t := Job(plan, map[], map[], {}, false, {}, [], 0)]) }

  function Collected(w: World, t: Task, c: Id): World
    requires t in w.jobs
  {
    w.(jobs := w.jobs[t := w.jobs[t].(doomed := w.jobs[t].doomed + [c])])
  }

  function FetchedBy(w: World, t: Task, d: Id): World
    requires CanFetch(w, t, d)
  {
    var tags := EntryTags(w.db[d].entriesMac, w.db[d].pending);
    w.(jobs := w.jobs[t := w.jobs[t].(seen := w.jobs[t].seen[d := tags])])
  }

  function ListedBy(w: World, t: Task, d: Id): World
    requires CanList(w, t, d)
  {
    w.(jobs := w.jobs[t := w.jobs[t].(drafted := w.jobs[t].drafted[d := Planned(w.db, w.jobs[t].plan, d)])])
  }

  // The update matches nothing if the directory has gone meanwhile.
  function StagedBy(w: World, t: Task, d: Id): World
    requires CanStage(w, t, d)
  {
    w.(db := if IsDir(w.db, d) then Staged(w.db, d, w.jobs[t].drafted[d]) else w.db,
       jobs := w.jobs[t := w.jobs[t].(staged := w.jobs[t].staged + {d})])
  }

  function ChangedBy(w: World, t: Task): World
    requires t in w.jobs
  {
    w.(db := Changed(w.db, w.jobs[t].plan), known := w.known + {Target(w.jobs[t].plan)},
       jobs := w.jobs[t := w.jobs[t].(changed := true, next := 1)])
  }

  function DeletedBy(w: World, t: Task): World
    requires CanDelete(w, t)
  {
    w.(db := w.db - {w.jobs[t].doomed[w.jobs[t].next]}, jobs := w.jobs[t := w.jobs[t].(next := w.jobs[t].next + 1)])
  }

  function PromotedBy(w: World, t: Task, d: Id): World
    requires CanPromote(w, t, d)
  {
    w.(db := PromotedTo(w.db, d, w.jobs[t].drafted[d]), half := w.half - {d}, lost := w.lost - {d},
       jobs := w.jobs[t := w.jobs[t].(promoted := w.jobs[t].promoted + {d})])
  }

  // However a job ends, its locks go; what it leaves half done depends on how far it was.
  function Gone(w: World, t: Task): World
    requires t in w.jobs
  {
    w.(jobs := w.jobs - {t}, owner := Freed(w.owner, t), half := w.half + Waiting(w.jobs[t]),
       lost := w.lost + (Open(w.jobs[t]) * w.half))
  }

  ghost function After(w: World, step: Step): World
    requires Enabled(w, step)
  {
    match step
    case Spawn(t, plan) => Spawned(w, t, plan)
    case Acquire(t, d) => w.(owner := w.owner[d := t])
    case Collect(t, c) => Collected(w, t, c)
    case Fetch(t, d) => FetchedBy(w, t, d)
    case List(t, d) => ListedBy(w, t, d)
    case Stage(t, d) => StagedBy(w, t, d)
    case Change(t) => ChangedBy(w, t)
    case Delete(t) => DeletedBy(w, t)
    case Promote(t, d) => PromotedBy(w, t, d)
    case Finish(t) => Gone(w, t)
    case Die(t) => Gone(w, t)
    case Touch(n) => w.(db := w.db[n.id := n])
    case Begin(n) => w.(db := w.db[n.id := n], known := w.known + {n.id})
    case Discard(id) => w.(db := w.db - {id})
  }

  // ------------------------------------------------------------------ the invariant

  // A directory somebody has locked, and the job that has.
  predicate Locked(w: World, d: Id) { d in w.owner && w.owner[d] in w.jobs }

  function Holder(w: World, d: Id): Job
    requires Locked(w, d)
  {
    w.jobs[w.owner[d]]
  }

  // A directory some job has staged and not yet changed; one it has changed and not yet promoted.
  predicate IsOpen(w: World, d: Id)
    ensures IsOpen(w, d) ==> Locked(w, d)
  {
    Locked(w, d) && d in Open(Holder(w, d)) && d in Holder(w, d).drafted
  }

  predicate IsWaiting(w: World, d: Id)
    ensures IsWaiting(w, d) ==> Locked(w, d)
  {
    Locked(w, d) && d in Waiting(Holder(w, d)) && d in Holder(w, d).drafted
  }

  // What a job has read of a directory it is about to stage is still so.
  ghost predicate ReadOk(w: World, d: Id)
    requires IsDir(w.db, d)
  {
    Locked(w, d) && d !in Holder(w, d).staged ==>
      && (d in Holder(w, d).seen ==> Holder(w, d).seen[d] == EntryTags(w.db[d].entriesMac, w.db[d].pending))
      && (d in Holder(w, d).drafted ==> Holder(w, d).drafted[d] == Planned(w.db, Holder(w, d).plan, d))
  }

  ghost predicate DirOk(w: World, d: Id)
    requires IsDir(w.db, d)
  {
    ReadOk(w, d) && TagOk(w, d)
  }

  ghost predicate TagOk(w: World, d: Id)
    requires IsDir(w.db, d)
  {
    var n := w.db[d];
    var listing := EntriesMac(d, ChildPairs(w.db, d));
    if IsOpen(w, d) then
      var j := Holder(w, d);
      && n.pending == Some(j.drafted[d]) && j.drafted[d] == Planned(w.db, j.plan, d)
      && (d !in w.half && d !in w.lost ==> Promoted(w.db, d))
    else if IsWaiting(w, d) then
      n.pending == Some(Holder(w, d).drafted[d]) && Holder(w, d).drafted[d] == listing
    else
      d in w.lost || (d in w.half && n.pending == Some(listing)) || Promoted(w.db, d)
  }

  // Before its change, what a task read is still so.
  ghost predicate StillSeen(w: World, j: Job) {
    match j.plan
    case Insert(n) => NewNodeOk(n) && (!j.changed ==> n.id !in w.known)
    case Attach(id, d, _) => id != d && (!j.changed ==> id in w.db && w.db[id].FileNode? && w.db[id].parentId.None?)
    case Withdraw(id, p, was) =>
      id in w.known && (!j.changed && p in j.drafted && id in w.db ==> IsChild(w.db, id, p) && NameOf(w.db[id]) == was)
    case Purge(id, p, was) =>
      && id in w.known && id != p
      && (!j.changed && p in j.drafted && id in w.db ==> IsChild(w.db, id, p) && NameOf(w.db[id]) == was)
    case Move(id, s, was, t, _) =>
      && id in w.known && id != s && id != t
      && (!j.changed && s in j.drafted && id in w.db ==> IsChild(w.db, id, s) && NameOf(w.db[id]) == was)
  }

  // What a purge is to delete hangs, as long as it is there, from something it deletes earlier.
  ghost predicate DoomedOk(w: World, j: Job) {
    && (j.doomed != [] ==> j.plan.Purge? && j.doomed[0] == j.plan.id)
    && (forall i :: 0 <= i < |j.doomed| ==> j.doomed[i] in w.known)
    && (forall i :: 0 < i < |j.doomed| && j.doomed[i] in w.db ==> HangsEarlier(w.db, j.doomed, i))
    && (j.plan.Purge? && j.changed ==> 0 < j.next <= |j.doomed|)
    && (j.plan.Purge? && j.changed ==> forall i :: 0 <= i < j.next ==> j.doomed[i] !in w.db)
  }

  predicate HangsEarlier(db: Db, doomed: seq<Id>, i: nat)
    requires i < |doomed| && doomed[i] in db
  {
    db[doomed[i]].parentId.Some? && db[doomed[i]].parentId.value in doomed[..i]
  }

  ghost predicate JobOk(w: World, t: Task)
    requires t in w.jobs
  {
    var j := w.jobs[t];
    && Dirs(j.plan) <= w.known && j.seen.Keys <= Dirs(j.plan) && j.drafted.Keys <= j.seen.Keys && j.staged <= j.drafted.Keys
    && (forall d :: d in j.seen ==> Held(w, t, d))
    && (j.changed ==> j.staged == Dirs(j.plan)) && j.promoted <= j.staged && (!j.changed ==> j.promoted == {})
    && StillSeen(w, j) && DoomedOk(w, j)
  }

  // One task to a new or an incoming id.
  ghost predicate Apart(w: World) {
    forall t, u :: t in w.jobs && u in w.jobs && t != u ==> ApartAt(w, t, u)
  }

  predicate ApartAt(w: World, t: Task, u: Task)
    requires t in w.jobs && u in w.jobs
  {
    var a, b := w.jobs[t].plan, w.jobs[u].plan;
    (a.Insert? || a.Attach?) && !w.jobs[t].changed && !b.Move? ==> Target(a) != Target(b)
  }

  ghost predicate KnownOk(w: World) {
    && w.db.Keys <= w.known && w.half <= w.known && w.lost <= w.known && w.owner.Keys <= w.known
    && (forall c :: c in w.db && w.db[c].parentId.Some? ==> w.db[c].parentId.value in w.known)
  }

  // Nobody who is gone holds a lock.
  ghost predicate Manned(w: World) { forall d :: d in w.owner ==> w.owner[d] in w.jobs }

  ghost predicate Base(w: World) { Keyed(w.db) && Signed(w.db) && KnownOk(w) && Manned(w) }

  ghost predicate JobsOk(w: World) { forall t :: t in w.jobs ==> JobOk(w, t) }

  ghost predicate DirsOk(w: World) { forall d :: IsDir(w.db, d) ==> DirOk(w, d) }

  ghost predicate Inv(w: World) { Base(w) && Apart(w) && JobsOk(w) && DirsOk(w) }

  // ------------------------------------------------------------------ what a change does to membership

  ghost predicate PlanReady(db: Db, plan: Plan) {
    match plan
    case Insert(n) => NewNodeOk(n) && n.id !in db
    case Attach(id, d, _) => id in db && db[id].parentId.None? && id != d
    case Withdraw(id, p, was) => id in db ==> IsChild(db, id, p) && NameOf(db[id]) == was
    case Purge(id, p, was) => id in db ==> IsChild(db, id, p) && NameOf(db[id]) == was
    case Move(id, s, was, t, _) => IsChild(db, id, s) && NameOf(db[id]) == was
  }

  /** The change turns what every staged directory holds into what was staged, and touches no other's children. */
  lemma PlanListing(db: Db, plan: Plan, e: Id)
    requires Keyed(db) && PlanReady(db, plan)
    ensures e in Dirs(plan) ==> Planned(db, plan, e) == EntriesMac(e, ChildPairs(Changed(db, plan), e))
    ensures e !in Dirs(plan) ==> ChildPairs(Changed(db, plan), e) == ChildPairs(db, e)
  {
    var before, after := ChildPairs(db, e), ChildPairs(Changed(db, plan), e);
    ChangedPairs(db, plan, e);
    if e in Dirs(plan) {
      forall x | x in Adds(plan, e) ensures x !in before - Removes(plan, e) {
        PairMeans(db, e, x);
      }
      StagedIsListing(db, e, Adds(plan, e), Removes(plan, e));
    }
  }

  lemma ChangedPairs(db: Db, plan: Plan, e: Id)
    requires Keyed(db) && PlanReady(db, plan)
    ensures ChildPairs(Changed(db, plan), e)
            == if e in Dirs(plan) then (ChildPairs(db, e) - Removes(plan, e)) + Adds(plan, e) else ChildPairs(db, e)
  {
    match plan
    case Insert(n) => PairsAfterPut(db, n, e);
    case Attach(id, d, name) => PairsAfterPut(db, Renamed(db[id], d, name), e);
    case Withdraw(id, p, was) =>
      PairsAfterDelete(db, id, e);
      PairMeans(db, e, (id, was));
    case Purge(id, p, was) =>
      PairsAfterDelete(db, id, e);
      PairMeans(db, e, (id, was));
    case Move(id, s, was, t, name) => PairsAfterPut(db, Renamed(db[id], t, name), e);
  }

  // ------------------------------------------------------------------ what a step leaves of the other jobs

  // Everything but `x` is as it was, as far as places go.
  ghost predicate SameBut(db: Db, db': Db, x: Id) {
    forall c :: c != x ==> (c in db <==> c in db') && (c in db ==> SameSpot(db[c], db'[c]))
  }

  predicate SameSpot(a: Node, b: Node) { a.DirNode? == b.DirNode? && a.parentId == b.parentId && NameOf(a) == NameOf(b) }

  // A job, and its locks, untouched.
  ghost predicate SameJob(w: World, w': World, u: Task)
    requires u in w.jobs
  {
    && u in w'.jobs && w'.jobs[u] == w.jobs[u] && w.known <= w'.known
    && forall d :: d in w.owner && w.owner[d] == u ==> d in w'.owner && w'.owner[d] == u
  }

  // A new document does not concern it.
  lemma AfterNew(w: World, w': World, u: Task, x: Id)
    requires u in w.jobs && JobOk(w, u) && SameJob(w, w', u) && SameBut(w.db, w'.db, x)
    requires x !in w.known && x in w'.db && w'.known == w.known + {x} && x !in w.db
    requires !(w.jobs[u].plan.Insert? && !w.jobs[u].changed && Target(w.jobs[u].plan) == x)
    ensures JobOk(w', u)
  {
  }

  // Nor does one that goes, unless it was about to attach it.
  lemma AfterGone(w: World, w': World, u: Task, x: Id)
    requires u in w.jobs && JobOk(w, u) && SameJob(w, w', u) && SameBut(w.db, w'.db, x) && x !in w'.db && w'.known == w.known
    requires !(w.jobs[u].plan.Attach? && !w.jobs[u].changed && Target(w.jobs[u].plan) == x)
    ensures JobOk(w', u)
  {
  }

  // Nor one that stays where it is, whatever else becomes of it.
  lemma AfterTouched(w: World, w': World, u: Task)
    requires u in w.jobs && JobOk(w, u) && SameJob(w, w', u) && w'.known == w.known
    requires w'.db.Keys == w.db.Keys && forall c :: c in w.db ==> SameSpot(w.db[c], w'.db[c])
    ensures JobOk(w', u)
  {
  }

  // A document that moves concerns a job that claims it or has staged its removal.
  lemma AfterMoved(w: World, w': World, u: Task, x: Id)
    requires u in w.jobs && JobOk(w, u) && SameJob(w, w', u) && SameBut(w.db, w'.db, x) && w'.known == w.known
    requires x in w.db && x in w'.db && w'.db[x].FileNode? == w.db[x].FileNode?
    requires x !in w.jobs[u].doomed[if |w.jobs[u].doomed| > 0 then 1 else 0..]
    requires !w.jobs[u].changed ==> match w.jobs[u].plan
             case Insert(n) => true
             case Attach(id, _, _) => id != x
             case Withdraw(id, p, _) => p in w.jobs[u].drafted ==> id != x
             case Purge(id, p, _) => p in w.jobs[u].drafted ==> id != x
             case Move(id, s, _, _, _) => s in w.jobs[u].drafted ==> id != x
    ensures JobOk(w', u)
  {
    var j := w.jobs[u];
    forall i | 0 < i < |j.doomed| && j.doomed[i] in w'.db ensures HangsEarlier(w'.db, j.doomed, i) {
      assert j.doomed[i] == j.doomed[1..][i - 1];
      assert HangsEarlier(w.db, j.doomed, i);
    }
  }

  // ------------------------------------------------------------------ what a step leaves of the directories

  // The same job, if any, has it staged, with the same tag; it is half done or lost as before.
  ghost predicate SameStatus(w: World, w': World, e: Id) {
    && (Locked(w', e) <==> Locked(w, e)) && (Locked(w, e) ==> SameAt(Holder(w, e), Holder(w', e), e))
    && (IsOpen(w', e) <==> IsOpen(w, e)) && (IsWaiting(w', e) <==> IsWaiting(w, e))
    && (e in w'.half <==> e in w.half) && (e in w'.lost <==> e in w.lost)
  }

  predicate SameAt(j: Job, j': Job, e: Id) {
    && j'.plan == j.plan && (e in j'.staged <==> e in j.staged)
    && (e in j'.seen <==> e in j.seen) && (e in j.seen ==> j'.seen[e] == j.seen[e])
    && (e in j'.drafted <==> e in j.drafted) && (e in j.drafted ==> j'.drafted[e] == j.drafted[e])
  }

  lemma DirFrame(w: World, w': World, e: Id)
    requires IsDir(w.db, e) && IsDir(w'.db, e) && DirOk(w, e) && SameStatus(w, w', e)
    requires w'.db[e].entriesMac == w.db[e].entriesMac && w'.db[e].pending == w.db[e].pending
    requires ChildPairs(w'.db, e) == ChildPairs(w.db, e)
    ensures DirOk(w', e)
  {
  }

  // ------------------------------------------------------------------ every step keeps the invariant

  // A step that leaves every job's plan and progress alone, or only takes jobs away.
  lemma ApartStays(w: World, w': World)
    requires Apart(w) && forall t :: t in w'.jobs ==> t in w.jobs && w'.jobs[t].plan == w.jobs[t].plan
                                                      && (w.jobs[t].changed ==> w'.jobs[t].changed)
    ensures Apart(w')
  {
    forall u, v | u in w'.jobs && v in w'.jobs && u != v ensures ApartAt(w', u, v) {
      assert ApartAt(w, u, v);
    }
  }

  // Neither the database nor what is known of ids has changed.
  lemma SameSeen(w: World, w': World, j: Job)
    requires w'.db == w.db && w'.known == w.known
    ensures StillSeen(w', j) == StillSeen(w, j) && DoomedOk(w', j) == DoomedOk(w, j)
  {
  }

  lemma SameDirs(w: World, w': World)
    requires DirsOk(w) && w'.db == w.db && forall e :: IsDir(w.db, e) ==> SameStatus(w, w', e)
    ensures DirsOk(w')
  {
    hide Planned, Promoted;
    forall e | IsDir(w'.db, e) ensures DirOk(w', e) {
      assert DirOk(w, e) && SameStatus(w, w', e);
      DirFrame(w, w', e);
    }
  }

  lemma JobHolds(w: World, t: Task)
    requires Inv(w) && t in w.jobs
    ensures JobOk(w, t)
  {
    hide JobOk;
  }

  lemma SpawnKeeps(w: World, t: Task, plan: Plan)
    requires Inv(w) && CanSpawn(w, t, plan)
    ensures Inv(Spawned(w, t, plan))
  {
    hide Base, JobsOk, DirsOk, Apart, JobOk;
    SpawnBase(w, t, plan);
    SpawnApart(w, t, plan);
    SpawnJobs(w, t, plan);
    SpawnDirs(w, t, plan);
  }

  lemma SpawnBase(w: World, t: Task, plan: Plan)
    requires Base(w)
    ensures Base(Spawned(w, t, plan))
  {
  }

  lemma SpawnJobs(w: World, t: Task, plan: Plan)
    requires JobsOk(w) && Base(w) && CanSpawn(w, t, plan)
    ensures JobsOk(Spawned(w, t, plan))
  {
    hide NewNodeOk, StillSeen, DoomedOk;
    var w' := Spawned(w, t, plan);
    SpawnSeen(w, t, plan);
    forall u | u in w'.jobs ensures JobOk(w', u) {
      if u != t {
        assert JobOk(w, u);
        SameSeen(w, w', w.jobs[u]);
      }
    }
  }

  lemma SpawnSeen(w: World, t: Task, plan: Plan)
    requires KnownOk(w) && CanSpawn(w, t, plan)
    ensures StillSeen(Spawned(w, t, plan), Spawned(w, t, plan).jobs[t]) && DoomedOk(Spawned(w, t, plan), Spawned(w, t, plan).jobs[t])
  {
  }

  lemma SpawnDirs(w: World, t: Task, plan: Plan)
    requires DirsOk(w) && Base(w) && t !in w.jobs
    ensures DirsOk(Spawned(w, t, plan))
  {
    hide DirOk, DirsOk;
    SameDirs(w, Spawned(w, t, plan));
  }

  lemma SpawnApart(w: World, t: Task, plan: Plan)
    requires Inv(w) && CanSpawn(w, t, plan)
    ensures Apart(Spawned(w, t, plan))
  {
    hide NewNodeOk, DirsOk, DoomedOk;
    var w' := Spawned(w, t, plan);
    forall u, v | u in w'.jobs && v in w'.jobs && u != v ensures ApartAt(w', u, v) {
      if u != t && v != t {
        assert ApartAt(w, u, v);
      } else if v == t {
        assert JobOk(w, u);
      }
    }
  }

  lemma AcquireKeeps(w: World, t: Task, d: Id)
    requires Inv(w) && CanAcquire(w, t, d)
    ensures Inv(w.(owner := w.owner[d := t]))
  {
    hide Base, JobsOk, DirsOk, Apart, JobOk;
    JobHolds(w, t);
    AcquireBase(w, t, d);
    AcquireJobs(w, t, d);
    AcquireDirs(w, t, d);
    ApartStays(w, w.(owner := w.owner[d := t]));
  }

  lemma AcquireBase(w: World, t: Task, d: Id)
    requires Base(w) && CanAcquire(w, t, d) && JobOk(w, t)
    ensures Base(w.(owner := w.owner[d := t]))
  {
    hide StillSeen, DoomedOk;
  }

  lemma AcquireJobs(w: World, t: Task, d: Id)
    requires JobsOk(w) && CanAcquire(w, t, d)
    ensures JobsOk(w.(owner := w.owner[d := t]))
  {
    hide StillSeen, DoomedOk;
    var w' := w.(owner := w.owner[d := t]);
    forall u | u in w'.jobs ensures JobOk(w', u) {
      assert JobOk(w, u);
      SameSeen(w, w', w.jobs[u]);
    }
  }

  lemma AcquireDirs(w: World, t: Task, d: Id)
    requires DirsOk(w) && JobsOk(w) && CanAcquire(w, t, d)
    ensures DirsOk(w.(owner := w.owner[d := t]))
  {
    hide StillSeen, DoomedOk, Planned, Promoted;
    var w' := w.(owner := w.owner[d := t]);
    assert JobOk(w, t);
    forall e | IsDir(w'.db, e) ensures DirOk(w', e) {
      assert DirOk(w, e);
      if e == d {
        assert d !in w.jobs[t].seen;
        assert !IsOpen(w', d) && !IsWaiting(w', d) && !IsOpen(w, d) && !IsWaiting(w, d);
      } else {
        DirFrame(w, w', e);
      }
    }
  }

  lemma CollectKeeps(w: World, t: Task, c: Id)
    requires Inv(w) && CanCollect(w, t, c)
    ensures Inv(Collected(w, t, c))
  {
    hide Base, JobsOk, DirsOk, Apart, JobOk;
    CollectBase(w, t, c);
    CollectJobs(w, t, c);
    CollectDirs(w, t, c);
    ApartStays(w, Collected(w, t, c));
  }

  lemma CollectBase(w: World, t: Task, c: Id)
    requires Base(w) && t in w.jobs
    ensures Base(Collected(w, t, c))
  {
  }

  lemma CollectJobs(w: World, t: Task, c: Id)
    requires JobsOk(w) && Base(w) && CanCollect(w, t, c)
    ensures JobsOk(Collected(w, t, c))
  {
    hide StillSeen, DoomedOk;
    var w' := Collected(w, t, c);
    assert JobOk(w, t);
    CollectDoomed(w, t, c);
    SamePlanSeen(w, w', w.jobs[t], w'.jobs[t]);
    forall u | u in w'.jobs ensures JobOk(w', u) {
      assert JobOk(w, u);
      if u != t { SameSeen(w, w', w.jobs[u]); }
    }
  }

  lemma CollectDirs(w: World, t: Task, c: Id)
    requires DirsOk(w) && t in w.jobs
    ensures DirsOk(Collected(w, t, c))
  {
    hide DirOk, DirsOk;
    SameDirs(w, Collected(w, t, c));
  }

  lemma SamePlanSeen(w: World, w': World, j: Job, j': Job)
    requires w'.db == w.db && w'.known == w.known && j'.plan == j.plan && j'.changed == j.changed && j'.drafted == j.drafted
    ensures StillSeen(w', j') == StillSeen(w, j)
  {
  }

  lemma CollectDoomed(w: World, t: Task, c: Id)
    requires Base(w) && CanCollect(w, t, c) && DoomedOk(w, w.jobs[t]) && StillSeen(w, w.jobs[t])
    ensures DoomedOk(Collected(w, t, c), Collected(w, t, c).jobs[t])
  {
    var w' := Collected(w, t, c);
    var j, j' := w.jobs[t], w'.jobs[t];
    forall i | 0 < i < |j'.doomed| && j'.doomed[i] in w'.db ensures HangsEarlier(w'.db, j'.doomed, i) {
      if i < |j.doomed| {
        assert HangsEarlier(w.db, j.doomed, i);
        assert j'.doomed[..i] == j.doomed[..i];
      } else {
        assert j'.doomed[..i] == j.doomed;
      }
    }
  }

  // A reading step: only what the job knows changes.
  lemma ReadKeeps(w: World, w': World, t: Task)
    requires Inv(w) && t in w.jobs && w' == w.(jobs := w'.jobs) && w'.jobs.Keys == w.jobs.Keys
    requires forall u :: u in w.jobs && u != t ==> w'.jobs[u] == w.jobs[u]
    requires w'.jobs[t].plan == w.jobs[t].plan && w'.jobs[t].changed == w.jobs[t].changed
    requires JobOk(w', t) && forall e :: IsDir(w.db, e) ==> DirOk(w', e)
    ensures Inv(w')
  {
    hide DirOk, JobOk, Apart, Base;
    ReadBase(w, w');
    ApartStays(w, w');
    forall u | u in w'.jobs ensures JobOk(w', u) {
      assert JobOk(w, u);
      if u != t { OthersRead(w, w', u); }
    }
  }

  lemma ReadBase(w: World, w': World)
    requires Base(w) && w' == w.(jobs := w'.jobs) && w'.jobs.Keys == w.jobs.Keys
    ensures Base(w')
  {
  }

  lemma OthersRead(w: World, w': World, u: Task)
    requires u in w.jobs && u in w'.jobs && w'.jobs[u] == w.jobs[u] && w' == w.(jobs := w'.jobs) && JobOk(w, u)
    ensures JobOk(w', u)
  {
    hide StillSeen, DoomedOk;
    SameSeen(w, w', w.jobs[u]);
  }

  lemma FetchKeeps(w: World, t: Task, d: Id)
    requires Inv(w) && CanFetch(w, t, d)
    ensures Inv(FetchedBy(w, t, d))
  {
    hide JobOk, DirOk, Base, Apart;
    assert JobOk(w, t);
    FetchOwn(w, t, d);
    forall e | IsDir(w.db, e) ensures DirOk(FetchedBy(w, t, d), e) {
      assert DirOk(w, e);
      FetchDir(w, t, d, e);
    }
    ReadKeeps(w, FetchedBy(w, t, d), t);
  }

  lemma FetchOwn(w: World, t: Task, d: Id)
    requires CanFetch(w, t, d) && JobOk(w, t)
    ensures JobOk(FetchedBy(w, t, d), t)
  {
    hide StillSeen, DoomedOk;
    var w' := FetchedBy(w, t, d);
    SamePlanSeen(w, w', w.jobs[t], w'.jobs[t]);
    SameDoomed(w, w', w.jobs[t], w'.jobs[t]);
  }

  lemma FetchDir(w: World, t: Task, d: Id, e: Id)
    requires CanFetch(w, t, d) && JobOk(w, t) && IsDir(w.db, e) && DirOk(w, e)
    ensures DirOk(FetchedBy(w, t, d), e)
  {
    hide StillSeen, DoomedOk, Planned, Promoted;
    if e != d { DirFrame(w, FetchedBy(w, t, d), e); }
  }

  lemma ListKeeps(w: World, t: Task, d: Id)
    requires Inv(w) && CanList(w, t, d)
    ensures Inv(ListedBy(w, t, d))
  {
    hide JobOk, DirOk, Base, Apart, Verifies, StillThere;
    assert JobOk(w, t);
    ListOwn(w, t, d);
    forall e | IsDir(w.db, e) ensures DirOk(ListedBy(w, t, d), e) {
      assert DirOk(w, e);
      ListDir(w, t, d, e);
    }
    ReadKeeps(w, ListedBy(w, t, d), t);
  }

  lemma ListOwn(w: World, t: Task, d: Id)
    requires Base(w) && CanList(w, t, d) && JobOk(w, t)
    ensures JobOk(ListedBy(w, t, d), t)
  {
    hide StillSeen, DoomedOk, Base, Verifies, StillThere, Planned;
    ListSeen(w, t, d);
    SameDoomed(w, ListedBy(w, t, d), w.jobs[t], ListedBy(w, t, d).jobs[t]);
  }

  lemma ListDir(w: World, t: Task, d: Id, e: Id)
    requires CanList(w, t, d) && JobOk(w, t) && IsDir(w.db, e) && DirOk(w, e)
    ensures DirOk(ListedBy(w, t, d), e)
  {
    hide StillSeen, DoomedOk, Planned, Promoted, Verifies, StillThere;
    if e != d { DirFrame(w, ListedBy(w, t, d), e); }
  }

  lemma ListSeen(w: World, t: Task, d: Id)
    requires Base(w) && CanList(w, t, d) && JobOk(w, t)
    ensures StillSeen(ListedBy(w, t, d), ListedBy(w, t, d).jobs[t])
  {
    hide DoomedOk, NewNodeOk;
  }

  lemma SameDoomed(w: World, w': World, j: Job, j': Job)
    requires w'.db == w.db && w'.known == w.known && j'.plan == j.plan && j'.changed == j.changed
    requires j'.doomed == j.doomed && j'.next == j.next
    ensures DoomedOk(w', j') == DoomedOk(w, j)
  {
  }

  lemma StageKeeps(w: World, t: Task, d: Id)
    requires Inv(w) && CanStage(w, t, d)
    ensures Inv(StagedBy(w, t, d))
  {
    hide Base, JobsOk, DirsOk, Apart, JobOk;
    StageBase(w, t, d);
    StageJobs(w, t, d);
    StageDirs(w, t, d);
    ApartStays(w, StagedBy(w, t, d));
  }

  lemma StageBase(w: World, t: Task, d: Id)
    requires Base(w) && CanStage(w, t, d)
    ensures Base(StagedBy(w, t, d))
  {
    if IsDir(w.db, d) { StagingKeeps(w.db, d, w.jobs[t].drafted[d]); }
  }

  lemma StageJobs(w: World, t: Task, d: Id)
    requires JobsOk(w) && Base(w) && CanStage(w, t, d)
    ensures JobsOk(StagedBy(w, t, d))
  {
    hide Planned, JobOk;
    var w' := StagedBy(w, t, d);
    forall u | u in w'.jobs ensures JobOk(w', u) {
      assert JobOk(w, u);
      if u != t {
        AfterTouched(w, w', u);
      } else {
        StageOwn(w, t, d);
      }
    }
  }

  lemma StageOwn(w: World, t: Task, d: Id)
    requires KnownOk(w) && CanStage(w, t, d) && JobOk(w, t)
    ensures JobOk(StagedBy(w, t, d), t)
  {
    hide Planned, NewNodeOk;
  }

  lemma StageDirs(w: World, t: Task, d: Id)
    requires Base(w) && DirsOk(w) && JobsOk(w) && CanStage(w, t, d)
    ensures DirsOk(StagedBy(w, t, d))
  {
    hide JobOk, DirOk, KnownOk, Manned;
    assert JobOk(w, t);
    forall e | IsDir(StagedBy(w, t, d).db, e) ensures DirOk(StagedBy(w, t, d), e) {
      StageTags(w, t, d, e);
      assert DirOk(w, e);
      if e == d { StageHere(w, t, d); } else { StageElsewhere(w, t, d, e); }
    }
  }

  lemma StageTags(w: World, t: Task, d: Id, e: Id)
    requires Keyed(w.db) && Signed(w.db) && CanStage(w, t, d) && IsDir(StagedBy(w, t, d).db, e)
    ensures IsDir(w.db, e) && ChildPairs(StagedBy(w, t, d).db, e) == ChildPairs(w.db, e)
  {
    if IsDir(w.db, d) { StagingKeeps(w.db, d, w.jobs[t].drafted[d]); }
  }

  lemma StageHere(w: World, t: Task, d: Id)
    requires CanStage(w, t, d) && JobOk(w, t) && IsDir(w.db, d) && DirOk(w, d)
    requires ChildPairs(StagedBy(w, t, d).db, d) == ChildPairs(w.db, d)
    ensures IsDir(StagedBy(w, t, d).db, d) && DirOk(StagedBy(w, t, d), d)
  {
    hide StillSeen, DoomedOk;
    assert Holder(w, d) == w.jobs[t] && !IsOpen(w, d) && !IsWaiting(w, d) && IsOpen(StagedBy(w, t, d), d);
  }

  lemma StageElsewhere(w: World, t: Task, d: Id, e: Id)
    requires CanStage(w, t, d) && JobOk(w, t) && IsDir(w.db, e) && DirOk(w, e) && e != d
    requires ChildPairs(StagedBy(w, t, d).db, e) == ChildPairs(w.db, e)
    ensures IsDir(StagedBy(w, t, d).db, e) && DirOk(StagedBy(w, t, d), e)
  {
    hide StillSeen, DoomedOk, Planned, Promoted;
    DirFrame(w, StagedBy(w, t, d), e);
  }

  // ------------------------------------------------------------------ the change

  lemma ChangeReady(w: World, t: Task)
    requires Base(w) && CanChange(w, t) && JobOk(w, t)
    ensures PlanReady(w.db, w.jobs[t].plan)
  {
    hide DoomedOk;
  }

  lemma ChangeBase(w: World, t: Task)
    requires Base(w) && CanChange(w, t) && JobOk(w, t)
    ensures Base(ChangedBy(w, t))
  {
    ChangeKnown(w, t);
    hide DoomedOk, KnownOk, Manned, NewNodeOk;
    ChangedSigned(w.db, w.jobs[t].plan);
  }

  lemma ChangedSigned(db: Db, plan: Plan)
    requires Keyed(db) && Signed(db) && (plan.Insert? ==> NewNodeOk(plan.n))
    ensures Keyed(Changed(db, plan)) && Signed(Changed(db, plan))
  {
  }

  lemma ChangeKnown(w: World, t: Task)
    requires KnownOk(w) && Manned(w) && CanChange(w, t) && JobOk(w, t)
    ensures KnownOk(ChangedBy(w, t)) && Manned(ChangedBy(w, t))
  {
    hide DoomedOk;
  }

  lemma ChangeOwn(w: World, t: Task)
    requires Base(w) && CanChange(w, t) && JobOk(w, t)
    ensures JobOk(ChangedBy(w, t), t)
  {
    hide NewNodeOk;
    var w' := ChangedBy(w, t);
    var j := w.jobs[t];
    forall i | 0 < i < |j.doomed| && j.doomed[i] in w'.db ensures HangsEarlier(w'.db, j.doomed, i) {
      assert HangsEarlier(w.db, j.doomed, i);
    }
  }

  // Another job at the change of `t`, plan by plan.
  lemma ChangeOther(w: World, t: Task, u: Task)
    requires Base(w) && Apart(w) && CanChange(w, t) && JobOk(w, t) && u in w.jobs && u != t && JobOk(w, u)
    ensures JobOk(ChangedBy(w, t), u)
  {
    hide NewNodeOk;
    match w.jobs[t].plan
    case Insert(n) => InsertOther(w, t, u);
    case Withdraw(id, _, _) => GoneOther(w, t, u);
    case Purge(id, _, _) => GoneOther(w, t, u);
    case Attach(id, _, _) => MovedOther(w, t, u);
    case Move(id, _, _, _, _) => MovedOther(w, t, u);
  }

  lemma InsertOther(w: World, t: Task, u: Task)
    requires Base(w) && Apart(w) && CanChange(w, t) && JobOk(w, t) && u in w.jobs && u != t && JobOk(w, u)
    requires w.jobs[t].plan.Insert?
    ensures JobOk(ChangedBy(w, t), u)
  {
    hide NewNodeOk;
    var w', x := ChangedBy(w, t), Target(w.jobs[t].plan);
    assert ApartAt(w, t, u) && SameJob(w, w', u) && SameBut(w.db, w'.db, x);
    hide DoomedOk;
    AfterNew(w, w', u, x);
  }

  lemma GoneOther(w: World, t: Task, u: Task)
    requires Base(w) && CanChange(w, t) && JobOk(w, t) && u in w.jobs && u != t && JobOk(w, u)
    requires w.jobs[t].plan.Withdraw? || w.jobs[t].plan.Purge?
    ensures JobOk(ChangedBy(w, t), u)
  {
    NotAttaching(w, t, u);
    hide JobOk;
    AfterGone(w, ChangedBy(w, t), u, Target(w.jobs[t].plan));
  }

  lemma NotAttaching(w: World, t: Task, u: Task)
    requires Base(w) && CanChange(w, t) && JobOk(w, t) && u in w.jobs && u != t && JobOk(w, u)
    requires w.jobs[t].plan.Withdraw? || w.jobs[t].plan.Purge?
    ensures !(w.jobs[u].plan.Attach? && !w.jobs[u].changed && Target(w.jobs[u].plan) == Target(w.jobs[t].plan))
    ensures Target(w.jobs[t].plan) in w.known
  {
    hide DoomedOk, NewNodeOk, Signed, Manned;
  }

  lemma MovedOther(w: World, t: Task, u: Task)
    requires Base(w) && Apart(w) && CanChange(w, t) && JobOk(w, t) && u in w.jobs && u != t && JobOk(w, u)
    requires w.jobs[t].plan.Attach? || w.jobs[t].plan.Move?
    ensures JobOk(ChangedBy(w, t), u)
  {
    NotDoomed(w, t, u);
    NotItsOwn(w, t, u);
    MovedThere(w, t);
    hide JobOk, CanChange;
    AfterMoved(w, ChangedBy(w, t), u, Target(w.jobs[t].plan));
  }

  lemma MovedThere(w: World, t: Task)
    requires Base(w) && CanChange(w, t) && JobOk(w, t) && (w.jobs[t].plan.Attach? || w.jobs[t].plan.Move?)
    ensures Target(w.jobs[t].plan) in w.db && Target(w.jobs[t].plan) in w.known
    ensures w.db[Target(w.jobs[t].plan)].id == Target(w.jobs[t].plan)
  {
    hide DoomedOk, NewNodeOk, Signed, Manned;
  }

  // Nobody else's plan rests on where the moved document was.
  lemma NotItsOwn(w: World, t: Task, u: Task)
    requires Base(w) && Apart(w) && CanChange(w, t) && JobOk(w, t) && u in w.jobs && u != t && JobOk(w, u)
    requires w.jobs[t].plan.Attach? || w.jobs[t].plan.Move?
    ensures !w.jobs[u].changed ==> match w.jobs[u].plan
            case Insert(n) => true
            case Attach(id, _, _) => id != Target(w.jobs[t].plan)
            case Withdraw(id, p, _) => p in w.jobs[u].drafted ==> id != Target(w.jobs[t].plan)
            case Purge(id, p, _) => p in w.jobs[u].drafted ==> id != Target(w.jobs[t].plan)
            case Move(id, s, _, _, _) => s in w.jobs[u].drafted ==> id != Target(w.jobs[t].plan)
  {
    assert ApartAt(w, t, u);
    hide DoomedOk, NewNodeOk, Signed, Manned, Apart;
  }

  lemma NotDoomed(w: World, t: Task, u: Task)
    requires CanChange(w, t) && JobOk(w, t) && u in w.jobs && JobOk(w, u)
    requires w.jobs[t].plan.Attach? || w.jobs[t].plan.Move?
    ensures Target(w.jobs[t].plan) !in w.jobs[u].doomed[if |w.jobs[u].doomed| > 0 then 1 else 0..]
  {
    var x, doomed := Target(w.jobs[t].plan), w.jobs[u].doomed;
    forall i | 0 < i < |doomed| ensures doomed[i] != x {
      assert doomed[i] in w.db ==> HangsEarlier(w.db, doomed, i);
      assert doomed[i] in doomed;
    }
  }

  lemma ChangeDirs(w: World, t: Task)
    requires Base(w) && CanChange(w, t) && JobOk(w, t) && DirsOk(w) && PlanReady(w.db, w.jobs[t].plan)
    ensures DirsOk(ChangedBy(w, t))
  {
    hide DoomedOk, HangsEarlier, Unclaimed;
    var w', plan := ChangedBy(w, t), w.jobs[t].plan;
    forall e | IsDir(w'.db, e) ensures DirOk(w', e) {
      PlanListing(w.db, plan, e);
      if e !in w.db {
        NewDirOk(w, t, e);
      } else {
        TagsStay(w, t, e);
        assert DirOk(w, e);
        if e in Dirs(plan) {
          assert Held(w, t, e) && IsOpen(w, e) && IsWaiting(w', e) && !IsOpen(w', e);
        } else {
          OthersStatus(w, t, e);
          DirFrame(w, w', e);
        }
      }
    }
  }

  // A change rewrites no directory's tags.
  lemma TagsStay(w: World, t: Task, e: Id)
    requires Base(w) && CanChange(w, t) && JobOk(w, t) && PlanReady(w.db, w.jobs[t].plan)
    requires e in w.db && IsDir(ChangedBy(w, t).db, e)
    ensures var n, n' := w.db[e], ChangedBy(w, t).db[e];
            n.DirNode? && n'.entriesMac == n.entriesMac && n'.pending == n.pending
  {
    hide DoomedOk;
  }

  lemma OthersStatus(w: World, t: Task, e: Id)
    requires t in w.jobs && JobOk(w, t) && e !in Dirs(w.jobs[t].plan)
    ensures SameStatus(w, ChangedBy(w, t), e)
  {
    hide DoomedOk, StillSeen;
  }

  // The directory `makedir` has just made.
  lemma NewDirOk(w: World, t: Task, e: Id)
    requires Base(w) && CanChange(w, t) && JobOk(w, t) && PlanReady(w.db, w.jobs[t].plan)
    requires e !in w.db && IsDir(ChangedBy(w, t).db, e)
    ensures DirOk(ChangedBy(w, t), e)
  {
    hide DoomedOk;
    var w', n := ChangedBy(w, t), w.jobs[t].plan.n;
    PairsAfterPut(w.db, n, e);
    assert ChildPairs(w.db, e) == {} by {
      forall x | x in ChildPairs(w.db, e) ensures false {
        PairMeans(w.db, e, x);
      }
    }
    assert multiset(NoEntries()) == multiset{};
    assert e !in w.known && e !in w.owner;
  }

  lemma ChangeKeeps(w: World, t: Task)
    requires Inv(w) && CanChange(w, t)
    ensures Inv(ChangedBy(w, t))
  {
    hide Base, DirsOk, Apart, JobOk;
    JobHolds(w, t);
    ChangeReady(w, t);
    ChangeBase(w, t);
    ChangeDirs(w, t);
    ChangeApart(w, t);
    forall u | u in w.jobs ensures JobOk(ChangedBy(w, t), u) {
      if u == t {
        ChangeOwn(w, t);
      } else {
        assert JobOk(w, u);
        ChangeOther(w, t, u);
      }
    }
  }

  lemma ChangeApart(w: World, t: Task)
    requires Apart(w) && t in w.jobs
    ensures Apart(ChangedBy(w, t))
  {
    hide Apart;
    ApartStays(w, ChangedBy(w, t));
  }

  // ------------------------------------------------------------------ deleting, promoting, ending

  lemma DeleteKeeps(w: World, t: Task)
    requires Inv(w) && CanDelete(w, t)
    ensures Inv(DeletedBy(w, t))
  {
    hide Base, JobsOk, DirsOk, Apart, JobOk;
    JobHolds(w, t);
    DeleteBase(w, t);
    DeleteJobs(w, t);
    DeleteDirs(w, t);
    ApartStays(w, DeletedBy(w, t));
  }

  lemma DeleteBase(w: World, t: Task)
    requires Base(w) && CanDelete(w, t)
    ensures Base(DeletedBy(w, t))
  {
  }

  lemma DeleteJobs(w: World, t: Task)
    requires Base(w) && JobsOk(w) && CanDelete(w, t)
    ensures JobsOk(DeletedBy(w, t))
  {
    hide JobOk, Base;
    assert JobOk(w, t);
    forall u | u in w.jobs ensures JobOk(DeletedBy(w, t), u) {
      assert JobOk(w, u);
      if u == t { DeleteOwn(w, t); } else { DeleteOther(w, t, u); }
    }
  }

  lemma DeleteOther(w: World, t: Task, u: Task)
    requires CanDelete(w, t) && JobOk(w, t) && u in w.jobs && u != t && JobOk(w, u)
    ensures JobOk(DeletedBy(w, t), u)
  {
    hide StillSeen, DoomedOk;
    NextHangs(w, t);
    AttachIsDetached(w, u);
    AfterGone(w, DeletedBy(w, t), u, w.jobs[t].doomed[w.jobs[t].next]);
  }

  lemma NextHangs(w: World, t: Task)
    requires CanDelete(w, t) && DoomedOk(w, w.jobs[t])
    ensures var x := w.jobs[t].doomed[w.jobs[t].next]; x in w.db ==> w.db[x].parentId.Some?
  {
    var j := w.jobs[t];
    assert j.doomed[j.next] in w.db ==> HangsEarlier(w.db, j.doomed, j.next);
  }

  lemma AttachIsDetached(w: World, u: Task)
    requires u in w.jobs && StillSeen(w, w.jobs[u])
    ensures w.jobs[u].plan.Attach? && !w.jobs[u].changed
            ==> Target(w.jobs[u].plan) in w.db && w.db[Target(w.jobs[u].plan)].parentId.None?
  {
  }

  lemma DeleteOwn(w: World, t: Task)
    requires Base(w) && CanDelete(w, t) && JobOk(w, t)
    ensures JobOk(DeletedBy(w, t), t)
  {
    var w', j := DeletedBy(w, t), w.jobs[t];
    forall i | 0 < i < |j.doomed| && j.doomed[i] in w'.db ensures HangsEarlier(w'.db, j.doomed, i) {
      assert HangsEarlier(w.db, j.doomed, i);
    }
  }

  lemma DeleteDirs(w: World, t: Task)
    requires Base(w) && DirsOk(w) && CanDelete(w, t) && JobOk(w, t)
    ensures DirsOk(DeletedBy(w, t))
  {
    hide StillSeen, DoomedOk, Planned, Promoted, KnownOk, Manned, Signed;
    forall e | IsDir(DeletedBy(w, t).db, e) ensures DirOk(DeletedBy(w, t), e) {
      assert DirOk(w, e);
      DeletePairs(w, t, e);
      DirFrame(w, DeletedBy(w, t), e);
    }
  }

  // Parents go first, so no directory that is still there loses a child.
  lemma DeletePairs(w: World, t: Task, e: Id)
    requires Keyed(w.db) && CanDelete(w, t) && DoomedOk(w, w.jobs[t]) && IsDir(DeletedBy(w, t).db, e)
    ensures ChildPairs(DeletedBy(w, t).db, e) == ChildPairs(w.db, e)
  {
    var j := w.jobs[t];
    var x := j.doomed[j.next];
    PairsAfterDelete(w.db, x, e);
    if IsChild(w.db, x, e) {
      assert HangsEarlier(w.db, j.doomed, j.next);
      EarlierIsGone(w, j, e);
    }
  }

  lemma EarlierIsGone(w: World, j: Job, e: Id)
    requires DoomedOk(w, j) && j.plan.Purge? && j.changed && j.next < |j.doomed| && e in j.doomed[..j.next]
    ensures e !in w.db
  {
    var i :| 0 <= i < j.next && j.doomed[..j.next][i] == e;
    assert j.doomed[i] == e;
  }

  lemma PromoteKeeps(w: World, t: Task, d: Id)
    requires Inv(w) && CanPromote(w, t, d)
    ensures Inv(PromotedBy(w, t, d))
  {
    hide Base, JobsOk, DirsOk, Apart, JobOk;
    JobHolds(w, t);
    PromoteBase(w, t, d);
    PromoteJobs(w, t, d);
    PromoteDirs(w, t, d);
    ApartStays(w, PromotedBy(w, t, d));
  }

  lemma PromoteBase(w: World, t: Task, d: Id)
    requires Base(w) && CanPromote(w, t, d) && JobOk(w, t)
    ensures Base(PromotedBy(w, t, d))
  {
    hide DoomedOk, StillSeen;
  }

  lemma PromoteJobs(w: World, t: Task, d: Id)
    requires JobsOk(w) && CanPromote(w, t, d)
    ensures JobsOk(PromotedBy(w, t, d))
  {
    hide JobOk;
    var w' := PromotedBy(w, t, d);
    forall u | u in w'.jobs ensures JobOk(w', u) {
      assert JobOk(w, u);
      if u != t { AfterTouched(w, w', u); } else { PromoteOwn(w, t, d); }
    }
  }

  lemma PromoteOwn(w: World, t: Task, d: Id)
    requires CanPromote(w, t, d) && JobOk(w, t)
    ensures JobOk(PromotedBy(w, t, d), t)
  {
    hide NewNodeOk, HangsEarlier;
    assert PromotedBy(w, t, d).db.Keys == w.db.Keys;
  }

  lemma PromoteDirs(w: World, t: Task, d: Id)
    requires Base(w) && DirsOk(w) && CanPromote(w, t, d) && JobOk(w, t)
    ensures DirsOk(PromotedBy(w, t, d))
  {
    hide DoomedOk, StillSeen, KnownOk, Manned, DirOk, Promoted;
    PromoteTags(w, t, d);
    forall e | IsDir(PromotedBy(w, t, d).db, e) ensures DirOk(PromotedBy(w, t, d), e) {
      assert DirOk(w, e);
      if e == d { PromoteHere(w, t, d); } else { PromoteElsewhere(w, t, d, e); }
    }
  }

  lemma PromoteTags(w: World, t: Task, d: Id)
    requires Base(w) && DirsOk(w) && CanPromote(w, t, d) && JobOk(w, t)
    ensures var db' := PromotedBy(w, t, d).db;
            && (forall e :: ChildPairs(db', e) == ChildPairs(w.db, e))
            && (forall e :: IsDir(db', e) ==> IsDir(w.db, e)) && (IsDir(w.db, d) ==> IsDir(db', d) && Promoted(db', d))
  {
    hide DoomedOk, StillSeen, KnownOk, Manned, Planned, ReadOk;
    assert Held(w, t, d) && IsWaiting(w, d);
    if IsDir(w.db, d) { assert DirOk(w, d); }
    PromotionKeeps(w.db, d, w.jobs[t].drafted[d]);
  }

  lemma PromoteHere(w: World, t: Task, d: Id)
    requires CanPromote(w, t, d) && JobOk(w, t) && IsDir(w.db, d) && DirOk(w, d)
    requires IsDir(PromotedBy(w, t, d).db, d) && Promoted(PromotedBy(w, t, d).db, d)
    ensures DirOk(PromotedBy(w, t, d), d)
  {
    hide DoomedOk, StillSeen, Promoted;
    assert Held(w, t, d) && !IsOpen(PromotedBy(w, t, d), d) && !IsWaiting(PromotedBy(w, t, d), d);
  }

  lemma PromoteElsewhere(w: World, t: Task, d: Id, e: Id)
    requires CanPromote(w, t, d) && JobOk(w, t) && IsDir(w.db, e) && DirOk(w, e) && e != d
    requires ChildPairs(PromotedBy(w, t, d).db, e) == ChildPairs(w.db, e)
    ensures IsDir(PromotedBy(w, t, d).db, e) && DirOk(PromotedBy(w, t, d), e)
  {
    hide DoomedOk, StillSeen, Planned, Promoted;
    DirFrame(w, PromotedBy(w, t, d), e);
  }

  lemma GoneKeeps(w: World, t: Task)
    requires Inv(w) && t in w.jobs
    ensures Inv(Gone(w, t))
  {
    hide Base, JobsOk, DirsOk, Apart, JobOk;
    JobHolds(w, t);
    GoneBase(w, t);
    GoneJobs(w, t);
    GoneDirs(w, t);
    ApartStays(w, Gone(w, t));
  }

  lemma GoneBase(w: World, t: Task)
    requires Base(w) && t in w.jobs && JobOk(w, t)
    ensures Base(Gone(w, t))
  {
    hide DoomedOk, StillSeen;
  }

  lemma GoneJobs(w: World, t: Task)
    requires JobsOk(w) && t in w.jobs
    ensures JobsOk(Gone(w, t))
  {
    hide StillSeen, DoomedOk;
    var w' := Gone(w, t);
    forall u | u in w'.jobs ensures JobOk(w', u) {
      assert JobOk(w, u);
      SameSeen(w, w', w.jobs[u]);
    }
  }

  lemma GoneDirs(w: World, t: Task)
    requires DirsOk(w) && t in w.jobs && JobOk(w, t)
    ensures DirsOk(Gone(w, t))
  {
    hide DoomedOk, StillSeen;
    var w' := Gone(w, t);
    forall e | IsDir(w'.db, e) ensures DirOk(w', e) {
      assert DirOk(w, e);
      if e in w.owner && w.owner[e] == t {
        assert !IsOpen(w', e) && !IsWaiting(w', e);
      } else {
        DirFrame(w, w', e);
      }
    }
  }

  // ------------------------------------------------------------------ writes outside any directory's listing

  lemma TouchKeeps(w: World, n: Node)
    requires Inv(w) && CanTouch(w, n)
    ensures Inv(w.(db := w.db[n.id := n]))
  {
    hide Base, JobsOk, DirsOk, Apart, JobOk;
    TouchBase(w, n);
    TouchJobs(w, n);
    TouchDirs(w, n);
    ApartStays(w, w.(db := w.db[n.id := n]));
  }

  lemma TouchDirs(w: World, n: Node)
    requires Base(w) && DirsOk(w) && CanTouch(w, n)
    ensures DirsOk(w.(db := w.db[n.id := n]))
  {
    hide DirsOk, KnownOk, Manned, Signed;
    forall e ensures ChildPairs(w.db[n.id := n], e) == ChildPairs(w.db, e) {
      SameMembership(w.db, n, e);
    }
    hide ChildPairs;
    QuietDirs(w, w.(db := w.db[n.id := n]));
  }

  lemma TouchBase(w: World, n: Node)
    requires Base(w) && CanTouch(w, n)
    ensures Base(w.(db := w.db[n.id := n]))
  {
  }

  lemma TouchJobs(w: World, n: Node)
    requires JobsOk(w) && Base(w) && CanTouch(w, n)
    ensures JobsOk(w.(db := w.db[n.id := n]))
  {
    var w' := w.(db := w.db[n.id := n]);
    assert forall c :: c in w.db ==> SameSpot(w.db[c], w'.db[c]);
    hide StillSeen, DoomedOk, Signed;
    forall u | u in w'.jobs ensures JobOk(w', u) {
      assert JobOk(w, u);
      AfterTouched(w, w', u);
    }
  }

  lemma QuietDirs(w: World, w': World)
    requires DirsOk(w) && w'.owner == w.owner && w'.jobs == w.jobs && w'.half == w.half && w'.lost == w.lost
    requires forall e :: ChildPairs(w'.db, e) == ChildPairs(w.db, e)
    requires forall e :: IsDir(w'.db, e) ==> IsDir(w.db, e) && w'.db[e].entriesMac == w.db[e].entriesMac
                                             && w'.db[e].pending == w.db[e].pending
    ensures DirsOk(w')
  {
    forall e | IsDir(w'.db, e) ensures DirOk(w', e) {
      assert DirOk(w, e);
      DirFrame(w, w', e);
    }
  }

  lemma BeginKeeps(w: World, n: Node)
    requires Inv(w) && CanBegin(w, n)
    ensures Inv(w.(db := w.db[n.id := n], known := w.known + {n.id}))
  {
    hide Base, JobsOk, DirsOk, Apart, JobOk;
    BeginBase(w, n);
    BeginJobs(w, n);
    BeginDirs(w, n);
    ApartStays(w, w.(db := w.db[n.id := n], known := w.known + {n.id}));
  }

  lemma BeginDirs(w: World, n: Node)
    requires Base(w) && DirsOk(w) && CanBegin(w, n)
    ensures DirsOk(w.(db := w.db[n.id := n], known := w.known + {n.id}))
  {
    hide DirsOk, KnownOk, Manned, Signed, FreshId;
    assert n.id !in w.db by { assert KnownOk(w); KnownThere(w, n.id); }
    forall e ensures ChildPairs(w.db[n.id := n], e) == ChildPairs(w.db, e) {
      PairsAfterPut(w.db, n, e);
    }
    hide ChildPairs;
    QuietDirs(w, w.(db := w.db[n.id := n], known := w.known + {n.id}));
  }

  lemma KnownThere(w: World, id: Id)
    requires KnownOk(w) && id !in w.known
    ensures id !in w.db
  {
  }

  lemma BeginBase(w: World, n: Node)
    requires Base(w) && CanBegin(w, n)
    ensures Base(w.(db := w.db[n.id := n], known := w.known + {n.id}))
  {
  }

  lemma BeginJobs(w: World, n: Node)
    requires JobsOk(w) && Base(w) && CanBegin(w, n)
    ensures JobsOk(w.(db := w.db[n.id := n], known := w.known + {n.id}))
  {
    hide JobOk;
    var w' := w.(db := w.db[n.id := n], known := w.known + {n.id});
    forall u | u in w'.jobs ensures JobOk(w', u) {
      assert JobOk(w, u);
      AfterNew(w, w', u, n.id);
    }
  }

  lemma DiscardKeeps(w: World, id: Id)
    requires Inv(w) && CanDiscard(w, id)
    ensures Inv(w.(db := w.db - {id}))
  {
    hide Base, JobsOk, DirsOk, Apart, JobOk;
    DiscardBase(w, id);
    DiscardJobs(w, id);
    DiscardDirs(w, id);
    ApartStays(w, w.(db := w.db - {id}));
  }

  lemma DiscardBase(w: World, id: Id)
    requires Base(w)
    ensures Base(w.(db := w.db - {id}))
  {
  }

  lemma DiscardJobs(w: World, id: Id)
    requires JobsOk(w) && CanDiscard(w, id)
    ensures JobsOk(w.(db := w.db - {id}))
  {
    hide JobOk;
    var w' := w.(db := w.db - {id});
    forall u | u in w'.jobs ensures JobOk(w', u) {
      assert JobOk(w, u);
      AfterGone(w, w', u, id);
    }
  }

  lemma DiscardDirs(w: World, id: Id)
    requires Base(w) && DirsOk(w) && CanDiscard(w, id)
    ensures DirsOk(w.(db := w.db - {id}))
  {
    hide DirsOk, KnownOk, Manned, Signed, FreshId;
    forall e ensures ChildPairs(w.db - {id}, e) == ChildPairs(w.db, e) {
      PairsAfterDelete(w.db, id, e);
    }
    hide ChildPairs;
    QuietDirs(w, w.(db := w.db - {id}));
  }

  /** Every database call of every operation, and every death, keeps the invariant. */
  lemma StepKeeps(w: World, step: Step)
    requires Inv(w) && Enabled(w, step)
    ensures Inv(After(w, step))
  {
    hide Inv;
    match step
    case Spawn(t, plan) => SpawnKeeps(w, t, plan);
    case Acquire(t, d) => AcquireKeeps(w, t, d);
    case Collect(t, c) => CollectKeeps(w, t, c);
    case Fetch(t, d) => FetchKeeps(w, t, d);
    case List(t, d) => ListKeeps(w, t, d);
    case Stage(t, d) => StageKeeps(w, t, d);
    case Change(t) => ChangeKeeps(w, t);
    case Delete(t) => DeleteKeeps(w, t);
    case Promote(t, d) => PromoteKeeps(w, t, d);
    case Finish(t) => GoneKeeps(w, t);
    case Die(t) => GoneKeeps(w, t);
    case Touch(n) => TouchKeeps(w, n);
    case Begin(n) => BeginKeeps(w, n);
    case Discard(id) => DiscardKeeps(w, id);
  }

  // ------------------------------------------------------------------ runs

  // A tree nobody is working in, every directory promoted.
  ghost predicate Quiet(w: World) {
    && Keyed(w.db) && Signed(w.db) && AllPromoted(w.db) && KnownOk(w)
    && w.jobs == map[] && w.owner == map[] && w.half == {} && w.lost == {}
  }

  // The worlds of a run, one step at a time.
  ghost predicate Run(ws: seq<World>, steps: seq<Step>) {
    && |ws| == |steps| + 1
    && forall i :: 0 <= i < |steps| ==> RunsAt(ws, steps, i)
  }

  ghost predicate RunsAt(ws: seq<World>, steps: seq<Step>, i: nat)
    requires i < |steps| && i + 1 < |ws|
  {
    Enabled(ws[i], steps[i]) && ws[i + 1] == After(ws[i], steps[i])
  }

  lemma QuietIsInv(w: World)
    requires Quiet(w)
    ensures Inv(w)
  {
    forall d | IsDir(w.db, d) ensures DirOk(w, d) {
      assert Promoted(w.db, d);
    }
  }

  lemma {:induction false} RunKeeps(ws: seq<World>, steps: seq<Step>, n: nat)
    requires Run(ws, steps) && Quiet(ws[0]) && n <= |steps|
    ensures Inv(ws[n])
  {
    hide Inv, Quiet, Enabled;
    if n == 0 {
      QuietIsInv(ws[0]);
    } else {
      RunKeeps(ws, steps, n - 1);
      assert RunsAt(ws, steps, n - 1);
      StepKeeps(ws[n - 1], steps[n - 1]);
    }
  }

  // Staged over a half-done predecessor and not yet changed, or given up at that point.
  ghost predicate Exposed(w: World, d: Id) { d in w.lost || (d in w.half && IsOpen(w, d)) }

  /** Outside that one window, whatever the interleaving and whoever died, every directory verifies. */
  lemma InvCovers(w: World, d: Id)
    requires Inv(w) && IsDir(w.db, d) && !Exposed(w, d)
    ensures Accepts(w.db, d)
  {
    assert DirOk(w, d);
  }

  // A death that matters: between a change and the promotion of it.
  ghost predicate DiesHalfway(w: World, step: Step) { step.Die? && step.t in w.jobs && Waiting(w.jobs[step.t]) != {} }

  lemma {:induction false} NothingHalf(ws: seq<World>, steps: seq<Step>, n: nat)
    requires Run(ws, steps) && Quiet(ws[0]) && n <= |steps|
    requires forall i :: 0 <= i < |steps| ==> !DiesHalfway(ws[i], steps[i])
    ensures ws[n].half == {} && ws[n].lost == {}
  {
    hide Inv, Quiet, Enabled;
    if n == 0 {
      QuietSays(ws[0]);
    } else {
      NothingHalf(ws, steps, n - 1);
      assert RunsAt(ws, steps, n - 1) && !DiesHalfway(ws[n - 1], steps[n - 1]);
      HalfAfter(ws[n - 1], steps[n - 1]);
    }
  }

  lemma QuietSays(w: World)
    requires Quiet(w)
    ensures w.half == {} && w.lost == {}
  {
  }

  lemma HalfAfter(w: World, step: Step)
    requires Enabled(w, step) && w.half == {} && w.lost == {} && !DiesHalfway(w, step)
    ensures After(w, step).half == {} && After(w, step).lost == {}
  {
    hide Staged, Planned, Changed, PromotedTo, Accepts, Seen;
    match step
    case Finish(t) =>
    case Die(t) =>
    case Promote(t, d) =>
    case _ =>
  }

  /**
   Any number of tasks, interleaved at every database call, stopped or failed anywhere except between a
   change and its promotion: at every moment every directory there is verifies, and every one that no
   operation is in the middle of carries the promoted tag of what it holds.
   */
  lemma RunCovers(ws: seq<World>, steps: seq<Step>, n: nat)
    requires Run(ws, steps) && Quiet(ws[0]) && n <= |steps|
    requires forall i :: 0 <= i < |steps| ==> !DiesHalfway(ws[i], steps[i])
    ensures Covered(ws[n].db) && Signed(ws[n].db)
    ensures forall d :: IsDir(ws[n].db, d) && !IsOpen(ws[n], d) && !IsWaiting(ws[n], d) ==> Promoted(ws[n].db, d)
  {
    hide Quiet;
    RunKeeps(ws, steps, n);
    NothingHalf(ws, steps, n);
    forall d | IsDir(ws[n].db, d) ensures Accepts(ws[n].db, d) {
      InvCovers(ws[n], d);
    }
    forall d | IsDir(ws[n].db, d) && !IsOpen(ws[n], d) && !IsWaiting(ws[n], d) ensures Promoted(ws[n].db, d) {
      assert DirOk(ws[n], d);
    }
  }

  /** A half-done directory is healed by the first operation that completes in it, as is a lost one a tag still matches. */
  lemma PromotionHeals(w: World, t: Task, d: Id)
    requires Inv(w) && CanPromote(w, t, d) && IsDir(w.db, d)
    ensures Promoted(PromotedBy(w, t, d).db, d) && !Exposed(PromotedBy(w, t, d), d)
  {
    PromoteKeeps(w, t, d);
    var w' := PromotedBy(w, t, d);
    assert DirOk(w', d) && JobOk(w, t) && Held(w, t, d);
    assert !IsOpen(w', d) && !IsWaiting(w', d);
  }

  // Neither tag matches, and nobody got past the check while one still did.
  ghost predicate Stuck(w: World, d: Id) {
    IsDir(w.db, d) && !Accepts(w.db, d) && !(Locked(w, d) && d in Holder(w, d).drafted)
  }

  // Nothing a step does to other documents makes a directory verify again.
  lemma SameAcceptance(db: Db, db': Db, d: Id)
    requires IsDir(db, d) && IsDir(db', d) && ChildPairs(db', d) == ChildPairs(db, d)
    requires db'[d].entriesMac == db[d].entriesMac && db'[d].pending == db[d].pending
    ensures Accepts(db', d) == Accepts(db, d)
  {
  }

  lemma NoneDrafts(w: World, t: Task, d: Id)
    requires Inv(w) && t in w.jobs && Stuck(w, d)
    ensures d !in w.jobs[t].drafted && d !in w.jobs[t].staged
  {
    hide StillSeen, DoomedOk, Base, Apart, DirsOk, JobsOk, Accepts;
    JobHolds(w, t);
  }

  lemma StuckAtList(w: World, t: Task, e: Id, d: Id)
    requires Inv(w) && CanList(w, t, e) && Stuck(w, d)
    ensures e != d
  {
    hide StillSeen, DoomedOk, Base, Apart, TagOk;
    assert JobOk(w, t) && DirOk(w, d);
  }

  lemma StuckAtChange(w: World, t: Task, d: Id)
    requires Inv(w) && CanChange(w, t) && Stuck(w, d) && IsDir(ChangedBy(w, t).db, d)
    ensures Stuck(ChangedBy(w, t), d)
  {
    hide StillSeen, DoomedOk, Apart, DirsOk, Unclaimed, Accepts;
    assert JobOk(w, t);
    NoneDrafts(w, t, d);
    ChangeReady(w, t);
    PlanListing(w.db, w.jobs[t].plan, d);
    TagsStay(w, t, d);
    SameAcceptance(w.db, ChangedBy(w, t).db, d);
  }

  lemma StuckAtDelete(w: World, t: Task, d: Id)
    requires Inv(w) && CanDelete(w, t) && Stuck(w, d) && IsDir(DeletedBy(w, t).db, d)
    ensures Stuck(DeletedBy(w, t), d)
  {
    hide StillSeen, DoomedOk, Apart, DirsOk, JobsOk, Accepts, KnownOk, Manned, Signed;
    JobHolds(w, t);
    DeletePairs(w, t, d);
    SameAcceptance(w.db, DeletedBy(w, t).db, d);
  }

  lemma StuckAtTags(w: World, t: Task, e: Id, d: Id)
    requires Inv(w) && Stuck(w, d)
    ensures CanStage(w, t, e) ==> Stuck(StagedBy(w, t, e), d)
    ensures CanPromote(w, t, e) ==> Stuck(PromotedBy(w, t, e), d)
  {
    hide StillSeen, DoomedOk, Apart, DirsOk, Accepts, JobsOk;
    if CanStage(w, t, e) {
      NoneDrafts(w, t, d);
      if IsDir(w.db, e) { StagingKeeps(w.db, e, w.jobs[t].drafted[e]); }
      SameAcceptance(w.db, StagedBy(w, t, e).db, d);
    }
    if CanPromote(w, t, e) {
      NoneDrafts(w, t, d);
      PromotedElsewhere(w.db, e, w.jobs[t].drafted[e], d);
    }
  }

  lemma PromotedElsewhere(db: Db, e: Id, tag: Tag, d: Id)
    requires Keyed(db) && IsDir(db, d) && e != d
    ensures IsDir(PromotedTo(db, e, tag), d) && Accepts(PromotedTo(db, e, tag), d) == Accepts(db, d)
  {
    if IsDir(db, e) { SameMembership(db, PromotedTo(db, e, tag)[e], d); }
    SameAcceptance(db, PromotedTo(db, e, tag), d);
  }

  lemma StuckAtOthers(w: World, n: Node, id: Id, d: Id)
    requires Inv(w) && Stuck(w, d)
    ensures CanTouch(w, n) ==> Stuck(w.(db := w.db[n.id := n]), d)
    ensures CanBegin(w, n) ==> Stuck(w.(db := w.db[n.id := n], known := w.known + {n.id}), d)
    ensures CanDiscard(w, id) ==> Stuck(w.(db := w.db - {id}), d)
  {
    hide JobsOk, Apart, DirsOk, Accepts, FreshId;
    if CanTouch(w, n) {
      SameMembership(w.db, n, d);
      SameAcceptance(w.db, w.db[n.id := n], d);
    }
    if CanBegin(w, n) {
      PairsAfterPut(w.db, n, d);
      SameAcceptance(w.db, w.db[n.id := n], d);
    }
    if CanDiscard(w, id) {
      PairsAfterDelete(w.db, id, d);
      SameAcceptance(w.db, w.db - {id}, d);
    }
  }

  lemma StuckStays(w: World, step: Step, d: Id)
    requires Inv(w) && Enabled(w, step) && Stuck(w, d) && IsDir(After(w, step).db, d)
    ensures Stuck(After(w, step), d)
  {
    hide Inv, Accepts;
    match step
    case Change(t) => StuckAtChange(w, t, d);
    case Delete(t) => StuckAtDelete(w, t, d);
    case Stage(t, e) => StuckAtTags(w, t, e, d);
    case Promote(t, e) => StuckAtTags(w, t, e, d);
    case List(t, e) => StuckAtList(w, t, e, d);
    case Touch(n) => StuckAtOthers(w, n, n.id, d);
    case Begin(n) => StuckAtOthers(w, n, n.id, d);
    case Discard(id) => StuckAtOthers(w, w.db[id], id, d);
    case Acquire(t, e) => NoneDrafts(w, t, d);
    case Spawn(t, plan) => HoldersLive(w);
    case _ =>
  }

  lemma HoldersLive(w: World)
    requires Inv(w)
    ensures forall d :: d in w.owner ==> w.owner[d] in w.jobs
  {
  }

  // Never made again once deleted.
  lemma GoneStaysGone(w: World, step: Step, d: Id)
    requires Inv(w) && Enabled(w, step) && d in w.known && d !in w.db
    ensures d !in After(w, step).db && d in After(w, step).known
  {
    hide Inv, Seen, Exclusive, Verifies, StillThere, Unclaimed, FreshId;
    if step.Change? { NothingRevived(w, step.t, d); }
  }

  lemma NothingRevived(w: World, t: Task, d: Id)
    requires Inv(w) && CanChange(w, t) && d in w.known && d !in w.db
    ensures d !in ChangedBy(w, t).db
  {
    hide DirsOk, JobsOk, Apart, DoomedOk, Unclaimed, Signed;
    JobHolds(w, t);
  }

  /**
   A directory that neither tag matches never lists again, whatever anybody does: no operation gets past the
   check in it, so none changes it, until its document is deleted.
   */
  lemma {:induction false} LostForGood(ws: seq<World>, steps: seq<Step>, n: nat, m: nat, d: Id)
    requires Run(ws, steps) && Quiet(ws[0]) && n <= m <= |steps| && Stuck(ws[n], d)
    ensures IsDir(ws[m].db, d) ==> !Accepts(ws[m].db, d)
    ensures Stuck(ws[m], d) || (d in ws[m].known && d !in ws[m].db)
    decreases m
  {
    hide Inv, Quiet, Enabled, Accepts;
    RunKeeps(ws, steps, n);
    if n == m {
    } else {
      LostForGood(ws, steps, n, m - 1, d);
      RunKeeps(ws, steps, m - 1);
      assert RunsAt(ws, steps, m - 1);
      LostStep(ws[m - 1], steps[m - 1], d);
    }
  }

  lemma LostStep(w: World, step: Step, d: Id)
    requires Inv(w) && Enabled(w, step) && (Stuck(w, d) || (d in w.known && d !in w.db))
    ensures Stuck(After(w, step), d) || (d in After(w, step).known && d !in After(w, step).db)
  {
    hide Accepts, Enabled;
    if Stuck(w, d) {
      DirStaysDir(w, step, d);
      if IsDir(After(w, step).db, d) { StuckStays(w, step, d); }
    } else {
      GoneStaysGone(w, step, d);
    }
  }

  lemma DirStaysDir(w: World, step: Step, d: Id)
    requires Inv(w) && Enabled(w, step) && IsDir(w.db, d)
    ensures d in After(w, step).known && (IsDir(After(w, step).db, d) || d !in After(w, step).db)
  {
    hide Inv, Seen, Exclusive, Verifies, StillThere, Unclaimed, FreshId;
    KnownDir(w, d);
    if step.Change? { ChangeKeepsKind(w, step.t, d); }
  }

  lemma KnownDir(w: World, d: Id)
    requires Inv(w) && d in w.db
    ensures d in w.known
  {
    hide DirsOk, JobsOk, Apart;
  }

  lemma ChangeKeepsKind(w: World, t: Task, d: Id)
    requires Inv(w) && CanChange(w, t) && IsDir(w.db, d)
    ensures IsDir(ChangedBy(w, t).db, d) || d !in ChangedBy(w, t).db
  {
    hide DirsOk, JobsOk, Apart, DoomedOk, Unclaimed, Signed;
    JobHolds(w, t);
  }

  // Which is where a death in the window leaves a directory whose old tag does not happen to match.
  lemma DeathInWindow(w: World, t: Task, d: Id)
    requires Inv(w) && t in w.jobs && d in Open(w.jobs[t]) && d in w.half && IsDir(w.db, d)
    ensures !Accepts(Gone(w, t).db, d) ==> Stuck(Gone(w, t), d)
    ensures d in Gone(w, t).lost
  {
    hide DirsOk, Apart, DoomedOk, StillSeen;
    assert JobOk(w, t) && Held(w, t, d);
  }

  /** Between its reading of a directory and its write, what a task has read and computed stays right, or the directory goes. */
  lemma DraftStaysRight(w: World, t: Task, d: Id)
    requires Inv(w) && t in w.jobs && d in w.jobs[t].seen && d !in w.jobs[t].staged
    ensures IsDir(w.db, d) ==> w.jobs[t].seen[d] == EntryTags(w.db[d].entriesMac, w.db[d].pending)
    ensures IsDir(w.db, d) && d in w.jobs[t].drafted ==> w.jobs[t].drafted[d] == Planned(w.db, w.jobs[t].plan, d)
  {
    assert JobOk(w, t) && Held(w, t, d);
    if IsDir(w.db, d) { assert DirOk(w, d); }
  }

  /** The window is real: what is exposed verifies only if its old tag, or the staged one, happens to match. */
  lemma ExposedExactly(w: World, d: Id)
    requires Inv(w) && IsDir(w.db, d) && IsOpen(w, d)
    ensures Accepts(w.db, d) <==> Promoted(w.db, d)
                                  || Planned(w.db, w.jobs[w.owner[d]].plan, d) == EntriesMac(d, ChildPairs(w.db, d))
  {
    assert DirOk(w, d);
  }

  /**
   What a task goes by is still so when it makes its change: always, for `makedir`, `_create_file` and
   `_finish_overwrite`; for `rename` and `restore`, while the node is there, and for `purge` and `_rollback`, from
   the moment it was so when they listed the directory.
   */
  lemma ReadsStayTrue(w: World, t: Task)
    requires Inv(w) && t in w.jobs && !w.jobs[t].changed
    requires w.jobs[t].plan.Move? ==> w.jobs[t].plan.s in w.jobs[t].drafted && w.jobs[t].plan.id in w.db
    requires w.jobs[t].plan.Withdraw? || w.jobs[t].plan.Purge? ==> w.jobs[t].plan.p in w.jobs[t].drafted
    ensures PlanReady(w.db, w.jobs[t].plan)
  {
    assert JobOk(w, t);
  }

  // ------------------------------------------------------------------ what the hypotheses are needed for

  /**
   A removal by a pair read, or remembered, from before the lock: after the deletion, promoted or not, every
   directory verifies if and only if the pair is the stored one, or nothing lists the node.
   */
  lemma RemovalCoversExactly(db: Db, plan: Plan)
    requires Keyed(db) && Signed(db) && Covered(db) && (plan.Withdraw? || plan.Purge?) && plan.id in db
    requires IsDir(db, plan.p) && plan.p != plan.id && db[plan.id].parentId != Some(plan.id)
    requires RollbackFacts.Ready(db, plan.id, RollbackFacts.Belief(Some(plan.p), plan.was))
    ensures var tag := Planned(db, plan, plan.p); var after := Changed(Staged(db, plan.p, tag), plan);
            var right := RollbackFacts.Right(db, plan.id, RollbackFacts.Belief(Some(plan.p), plan.was));
            (Covered(after) <==> right) && (Covered(PromotedTo(after, plan.p, tag)) <==> right)
  {
    RollbackFacts.UnwoundCoversExactly(db, plan.id, RollbackFacts.Belief(Some(plan.p), plan.was));
    assert Planned(db, plan, plan.p) == RollbackFacts.RemovalTag(db, plan.p, plan.id, plan.was);
  }

  /**
   The case in hand: `purge` reads a trashed node, `restore` brings it back under a second name in the same
   directory and completes, and the purge goes on by the name it read. Nobody died, and the directory is left
   with a tag over a child that is gone.
   */
  lemma RestoredMeanwhileUncovers(db: Db, x: Id, d: Id, was: Name, name: Name)
    requires Keyed(db) && Signed(db) && IsDir(db, d) && IsChild(db, x, d) && NameOf(db[x]) == was && x != d && name != was
    ensures var back, gone := Move(x, d, was, d, name), Purge(x, d, was);
            var into := Planned(db, back, d);
            var restored := PromotedTo(Changed(Staged(db, d, into), back), d, into);
            && StillThere(db, back, d) && IsDir(restored, d) && Promoted(restored, d)
            && var tag := Planned(restored, gone, d);
               var purged := Changed(Staged(restored, d, tag), gone);
               && IsDir(purged, d) && !Accepts(purged, d)
               && IsDir(PromotedTo(purged, d, tag), d) && !Accepts(PromotedTo(purged, d, tag), d)
  {
    var back, gone := Move(x, d, was, d, name), Purge(x, d, was);
    var into := Planned(db, back, d);
    var mid := Changed(Staged(db, d, into), back);
    var restored := PromotedTo(mid, d, into);
    RestoreSettles(db, back, d);
    assert IsChild(restored, x, d) && NameOf(restored[x]) == name;
    RollbackFacts.DroppedHere(restored, d, x, was);
    assert Planned(restored, gone, d) == RollbackFacts.RemovalTag(restored, d, x, was);
  }

  // A rename inside one directory, from staging to promotion.
  lemma RestoreSettles(db: Db, plan: Plan, d: Id)
    requires Keyed(db) && Signed(db) && IsDir(db, d) && plan.Move? && plan.s == d && plan.t == d && plan.id != d && PlanReady(db, plan)
    ensures var into := Planned(db, plan, d); var mid := Changed(Staged(db, d, into), plan);
            Keyed(mid) && Signed(mid) && IsDir(mid, d) && Keyed(PromotedTo(mid, d, into)) && Promoted(PromotedTo(mid, d, into), d)
  {
    var into := Planned(db, plan, d);
    var db1 := Staged(db, d, into);
    StagingKeeps(db, d, into);
    assert Planned(db1, plan, d) == into;
    assert PlanReady(db1, plan) && IsDir(Changed(db1, plan), d);
    PlanListing(db1, plan, d);
    ChangedSigned(db1, plan);
    hide Planned, ChildPairs, Changed, Keyed, Signed;
    PromotionKeeps(Changed(db1, plan), d, into);
  }

  /** For `_rollback`: by a pair that is not the file's, it breaks the directory the file is in. */
  lemma WithdrawElsewhereUncovers(db: Db, plan: Plan, q: Id)
    requires Keyed(db) && plan.Withdraw? && IsChild(db, plan.id, q) && IsDir(db, q) && Promoted(db, q) && plan.id != q
    requires q != plan.p && db[q].pending.None?
    ensures IsDir(Changed(db, plan), q) && !Accepts(Changed(db, plan), q)
  {
    DeletedFrom(db, plan.id, q);
  }

  lemma DeletedFrom(db: Db, x: Id, q: Id)
    requires Keyed(db) && IsDir(db, q) && Promoted(db, q) && db[q].pending.None? && x != q && x in db
    ensures IsDir(db - {x}, q) && (Accepts(db - {x}, q) <==> !IsChild(db, x, q))
  {
    RollbackFacts.DroppedAccepts(db, x, q);
    if IsChild(db, x, q) {
      PairMeans(db, q, Pair(db[x]));
      RollbackFacts.FewerDiffer(ChildPairs(db, q), Pair(db[x]));
    }
  }

  /**
   And what a purge has collected must stay where it is: a document it deletes leaves a directory nobody is
   working in verifying if and only if it has not been moved there.
   */
  lemma CollectedCoversExactly(w: World, t: Task, q: Id)
    requires Keyed(w.db) && CanDelete(w, t) && IsDir(w.db, q) && Promoted(w.db, q) && w.db[q].pending.None?
    requires w.jobs[t].doomed[w.jobs[t].next] in w.db && w.jobs[t].doomed[w.jobs[t].next] != q
    ensures IsDir(DeletedBy(w, t).db, q)
    ensures Accepts(DeletedBy(w, t).db, q) <==> !IsChild(w.db, w.jobs[t].doomed[w.jobs[t].next], q)
  {
    DeletedFrom(w.db, w.jobs[t].doomed[w.jobs[t].next], q);
  }

  /**
   The case in hand: `rename` resolved `y` in `x` before `x` was trashed, and has staged `x` and `q`; `purge`
   collected `x` and `y` and has deleted `x`; `rename` then moves `y` and completes, and the purge goes on to
   delete it in `q`.
   */
  lemma MovedMeanwhileUncovers(db: Db, t: Task, x: Id, y: Id, p: Id, q: Id, was: Name, name: Name)
    requires Keyed(db) && Signed(db) && IsDir(db, q) && x !in db && y != x && q !in {x, y}
    requires y in db && db[y].FileNode? && db[y].parentId == Some(x)
    ensures var into := StagedMac(db, q, {(y, name)}, {});
            var moved := PromotedTo(Changed(Staged(db, q, into), Move(y, x, was, q, name)), q, into);
            var job := Job(Purge(x, p, was), map[], map[], {}, true, {}, [x, y], 1);
            var w := World(moved, map[], map[t := job], {}, {}, moved.Keys + {x});
            && IsDir(moved, q) && Promoted(moved, q) && CanDelete(w, t)
            && IsDir(DeletedBy(w, t).db, q) && !Accepts(DeletedBy(w, t).db, q)
  {
    var n := Renamed(db[y], q, name);
    Arrives(db, n, q);
    DeletedFrom(Arrived(db, n, q), y, q);
  }

  // A file's document written into a directory that was staged for it, and promoted.
  function Arrived(db: Db, n: Node, q: Id): Db
    requires IsDir(db, q)
  {
    var into := StagedMac(db, q, {Pair(n)}, {});
    PromotedTo(Staged(db, q, into)[n.id := n], q, into)
  }

  lemma Arrives(db: Db, n: Node, q: Id)
    requires Keyed(db) && Signed(db) && IsDir(db, q) && n.id in db && n.FileNode? && n.mac == MacOf(n)
    requires n.parentId == Some(q) && db[n.id].parentId != Some(q) && n.id != q
    ensures var db' := Arrived(db, n, q); Keyed(db') && IsDir(db', q) && Promoted(db', q) && db'[q].pending.None? && IsChild(db', n.id, q)
  {
    var into := StagedMac(db, q, {Pair(n)}, {});
    var db1 := Staged(db, q, into);
    StagingKeeps(db, q, into);
    PairsAfterPut(db1, n, q);
    PairMeans(db, q, Pair(n));
    StagedIsListing(db, q, {Pair(n)}, {});
    assert ChildPairs(db1[n.id := n], q) == (ChildPairs(db, q) - {}) + {Pair(n)};
    hide Accepts, ChildPairs, StagedMac;
    PromotionKeeps(db1[n.id := n], q, into);
  }

  /**
   For `rename` and `restore`: when they have completed, every directory verifies if and only if the pair they
   read is the stored one, or nothing lists the node.
   */
  lemma MoveCoversExactly(db: Db, id: Id, s: Id, was: Name, t: Id, name: Name)
    requires Keyed(db) && Covered(db) && id in db && id != s && id != t
    requires IsDir(db, s) && IsDir(db, t) && MoveFacts.Undisturbed(db, id, s, t)
    ensures var plan := Move(id, s, was, t, name); var out, into := Planned(db, plan, s), Planned(db, plan, t);
            var moved := Changed(Staged(Staged(db, s, out), t, into), plan);
            Covered(PromotedTo(PromotedTo(moved, s, out), t, into))
            <==> RollbackFacts.Right(db, id, RollbackFacts.Belief(Some(s), was))
  {
    hide Covered, Accepts, RollbackFacts.Right, MoveFacts.Undisturbed, StagedMac, PromotedTo, Keyed;
    MoveFacts.MoveCoversExactly(db, id, s, was, t, name);
  }
}
