/**
 A task of `TagProtocol` left to itself: its steps can be taken one after the other to the end, and what they
 leave is what the operation is for.
 */
module SoloRuns {
  import opened Wrappers
  import opened Tags
  import opened Tree
  import opened DirectoryTags
  import opened Structure
  import opened TagProtocol

  // ------------------------------------------------------------------ runs of one task

  predicate OwnStep(step: Step, t: Task) {
    match step
    case Spawn(u, _) => u == t
    case Acquire(u, _) => u == t
    case Collect(u, _) => u == t
    case Fetch(u, _) => u == t
    case List(u, _) => u == t
    case Stage(u, _) => u == t
    case Change(u) => u == t
    case Delete(u) => u == t
    case Promote(u, _) => u == t
    case Finish(u) => u == t
    case _ => false
  }

  // `t` gets from one world to the other by itself, and does not die.
  ghost predicate Reaches(w: World, w': World, t: Task) {
    exists ws: seq<World>, steps: seq<Step> :: RunOf(ws, steps, t) && ws[0] == w && ws[|ws| - 1] == w'
  }

  ghost predicate RunOf(ws: seq<World>, steps: seq<Step>, t: Task)
    ensures RunOf(ws, steps, t) ==> |ws| > 0
  {
    Run(ws, steps) && forall i :: 0 <= i < |steps| ==> OwnStep(steps[i], t)
  }

  lemma Stays(w: World, t: Task)
    ensures Reaches(w, w, t)
  {
    assert RunOf([w], [], t);
  }

  lemma GoesOn(w: World, mid: World, step: Step, t: Task)
    requires Reaches(w, mid, t) && OwnStep(step, t) && Enabled(mid, step)
    ensures Reaches(w, After(mid, step), t)
  {
    hide Enabled, After;
    var ws: seq<World>, steps: seq<Step> :| RunOf(ws, steps, t) && ws[0] == w && ws[|ws| - 1] == mid;
    var ws', steps' := ws + [After(mid, step)], steps + [step];
    forall i | 0 <= i < |steps'| ensures RunsAt(ws', steps', i) {
      if i < |steps| { assert RunsAt(ws, steps, i); }
    }
    assert RunOf(ws', steps', t);
  }

  // ------------------------------------------------------------------ the stretches of an operation

  function WithJob(w: World, t: Task, db: Db, j: Job): World { w.(db := db, jobs := w.jobs[t := j]) }

  // A directory it holds, fetched, listed and staged.
  lemma StagesOne(w0: World, w: World, t: Task, d: Id)
    requires Reaches(w0, w, t) && Held(w, t, d) && d in Dirs(w.jobs[t].plan) && !w.jobs[t].changed
    requires d !in w.jobs[t].seen && d !in w.jobs[t].drafted && d !in w.jobs[t].staged
    requires IsDir(w.db, d) && Accepts(w.db, d) && StillThere(w.db, w.jobs[t].plan, d)
    ensures var j, tag := w.jobs[t], Planned(w.db, w.jobs[t].plan, d);
            Reaches(w0, WithJob(w, t, Staged(w.db, d, tag),
                                j.(seen := j.seen[d := EntryTags(w.db[d].entriesMac, w.db[d].pending)],
                                   drafted := j.drafted[d := tag], staged := j.staged + {d})), t)
  {
    hide Reaches, StillThere, Planned, Dirs, ChildPairs;
    var j, tags, tag := w.jobs[t], EntryTags(w.db[d].entriesMac, w.db[d].pending), Planned(w.db, w.jobs[t].plan, d);
    GoesOn(w0, w, Fetch(t, d), t);
    var w1 := FetchedBy(w, t, d);
    var j1 := j.(seen := j.seen[d := tags]);
    assert w1.jobs[t] == j1 && Verifies(tags, EntriesMac(d, ChildPairs(w1.db, d)));
    GoesOn(w0, w1, List(t, d), t);
    var w2 := ListedBy(w1, t, d);
    var j2 := j1.(drafted := j1.drafted[d := tag]);
    assert w2.jobs[t] == j2;
    GoesOn(w0, w2, Stage(t, d), t);
    assert StagedBy(w2, t, d) == WithJob(w, t, Staged(w.db, d, tag), j2.(staged := j2.staged + {d}));
  }

  lemma PromotesOne(w0: World, w: World, t: Task, d: Id)
    requires Reaches(w0, w, t) && t in w.jobs && w.jobs[t].changed && !w.jobs[t].plan.Purge?
    requires d in w.jobs[t].staged && d in w.jobs[t].drafted && d !in w.jobs[t].promoted
    ensures var j := w.jobs[t];
            Reaches(w0, WithJob(w, t, PromotedTo(w.db, d, j.drafted[d]), j.(promoted := j.promoted + {d})).
                        (half := w.half - {d}, lost := w.lost - {d}), t)
  {
    hide Reaches;
    GoesOn(w0, w, Promote(t, d), t);
  }

  // ------------------------------------------------------------------ from end to end

  // What an operation is for: its change made, and the listings of its directories signed.
  function Done(db: Db, plan: Plan): Db {
    match plan
    case Insert(n) => Settled(Changed(db, plan), Parent(n))
    case Attach(_, d, _) => Settled(Changed(db, plan), d)
    case Withdraw(_, p, _) => Settled(Changed(db, plan), p)
    case Purge(_, p, _) => Settled(Changed(db, plan), p)
    case Move(_, s, _, t, _) => Settled(Settled(Changed(db, plan), s), t)
  }

  // Its directories are free and verify, and what it has read is so.
  ghost predicate Clear(w: World, plan: Plan) {
    && (forall d :: d in Dirs(plan) ==> d !in w.owner && IsDir(w.db, d) && Accepts(w.db, d) && StillThere(w.db, plan, d))
    && (plan.Move? ==> plan.id in w.db && Unclaimed(w, plan.id))
  }

  function Fresh(plan: Plan): Job { Job(plan, map[], map[], {}, false, {}, [], 0) }

  lemma Starts(w: World, t: Task, plan: Plan)
    requires CanSpawn(w, t, plan)
    ensures Reaches(w, w.(jobs := w.jobs[t := Fresh(plan)]), t)
  {
    Stays(w, t);
    hide Reaches;
    GoesOn(w, w, Spawn(t, plan), t);
  }

  lemma Locks(w0: World, w: World, t: Task, d: Id)
    requires Reaches(w0, w, t) && t in w.jobs && d in Dirs(w.jobs[t].plan) && d !in w.owner
    ensures Reaches(w0, w.(owner := w.owner[d := t]), t)
  {
    hide Reaches;
    GoesOn(w0, w, Acquire(t, d), t);
  }

  lemma Changes(w0: World, w: World, t: Task)
    requires Reaches(w0, w, t) && CanChange(w, t)
    ensures Reaches(w0, ChangedBy(w, t), t)
  {
    hide Reaches, CanChange;
    GoesOn(w0, w, Change(t), t);
  }

  lemma Ends(w0: World, w: World, t: Task)
    requires Reaches(w0, w, t) && CanFinish(w, t)
    ensures Reaches(w0, Gone(w, t), t)
  {
    hide Reaches;
    GoesOn(w0, w, Finish(t), t);
  }

  // Staging is gone when the tag is promoted.
  lemma PromotedIsDone(db: Db, plan: Plan, d: Id)
    requires Keyed(db) && PlanReady(db, plan) && Dirs(plan) == {d} && IsDir(db, d) && Target(plan) != d
    ensures var tag := Planned(db, plan, d); PromotedTo(Changed(Staged(db, d, tag), plan), d, tag) == Done(db, plan)
  {
    var tag := Planned(db, plan, d);
    var end := Changed(db, plan);
    PlanListing(db, plan, d);
    assert d in Dirs(plan);
    assert Done(db, plan) == if plan.Move? then Settled(Settled(end, d), d) else Settled(end, d);
    SettledOnce(end, d);
    hide Planned, ChildPairs, Dirs, PlanReady, Done;
    OneSettled(db, plan, d, tag);
  }

  lemma OneSettled(db: Db, plan: Plan, d: Id, tag: Tag)
    requires IsDir(db, d) && Target(plan) != d && tag == EntriesMac(d, ChildPairs(Changed(db, plan), d))
    ensures PromotedTo(Changed(Staged(db, d, tag), plan), d, tag) == Settled(Changed(db, plan), d)
  {
    hide ChildPairs, EntriesMac, Renamed;
    assert IsDir(Changed(db, plan), d) && IsDir(Changed(Staged(db, d, tag), plan), d);
  }

  lemma SettledOnce(db: Db, d: Id)
    requires Keyed(db)
    ensures Settled(Settled(db, d), d) == Settled(db, d)
  {
    if IsDir(db, d) { SameMembership(db, Settled(db, d)[d], d); }
  }

  // A job that has staged one directory more.
  function Drafted(j: Job, db: Db, d: Id): Job
    requires IsDir(db, d)
  {
    j.(seen := j.seen[d := EntryTags(db[d].entriesMac, db[d].pending)], drafted := j.drafted[d := Planned(db, j.plan, d)],
       staged := j.staged + {d})
  }

  lemma StagesIt(w0: World, w: World, t: Task, d: Id, j: Job)
    requires Reaches(w0, w, t) && Held(w, t, d) && w.jobs[t] == j && d in Dirs(j.plan) && !j.changed
    requires d !in j.seen && d !in j.drafted && d !in j.staged
    requires IsDir(w.db, d) && Accepts(w.db, d) && StillThere(w.db, j.plan, d)
    ensures Reaches(w0, WithJob(w, t, Staged(w.db, d, Planned(w.db, j.plan, d)), Drafted(j, w.db, d)), t)
  {
    StagesOne(w0, w, t, d);
  }

  // What one directory's operation has done when it has staged it; when it has been promoted.
  function WhenStaged(w: World, t: Task, plan: Plan, d: Id): World
    requires IsDir(w.db, d)
  {
    WithJob(w.(owner := w.owner[d := t]), t, Staged(w.db, d, Planned(w.db, plan, d)), Drafted(Fresh(plan), w.db, d))
  }

  function WhenDone(w: World, t: Task, plan: Plan, d: Id): World
    requires IsDir(w.db, d)
  {
    var w1 := ChangedBy(WhenStaged(w, t, plan, d), t);
    var j := w1.jobs[t];
    WithJob(w1, t, PromotedTo(w1.db, d, j.drafted[d]), j.(promoted := j.promoted + {d})).(half := w1.half - {d}, lost := w1.lost - {d})
  }

  lemma ToStaged(w: World, t: Task, plan: Plan, d: Id)
    requires CanSpawn(w, t, plan) && Clear(w, plan) && Dirs(plan) == {d}
    ensures Reaches(w, WhenStaged(w, t, plan, d), t)
  {
    assert d in Dirs(plan);
    hide Reaches, Dirs, StillThere, Unclaimed, Accepts, Planned;
    Starts(w, t, plan);
    var w1 := w.(jobs := w.jobs[t := Fresh(plan)]);
    Locks(w, w1, t, d);
    var w2 := w1.(owner := w1.owner[d := t]);
    StagesIt(w, w2, t, d, Fresh(plan));
    assert WithJob(w2, t, Staged(w.db, d, Planned(w.db, plan, d)), Drafted(Fresh(plan), w.db, d)) == WhenStaged(w, t, plan, d);
  }

  lemma ToDone(w: World, t: Task, plan: Plan, d: Id)
    requires CanSpawn(w, t, plan) && Clear(w, plan) && !plan.Purge? && Dirs(plan) == {d}
    ensures IsDir(w.db, d) && Reaches(w, WhenDone(w, t, plan, d), t)
  {
    assert d in Dirs(plan);
    ToStaged(w, t, plan, d);
    StagedMayChange(w, t, plan, d);
    hide Reaches, Dirs, Planned, CanChange, Clear, CanSpawn, Changed, Staged;
    Changes(w, WhenStaged(w, t, plan, d), t);
    PromotesOne(w, ChangedBy(WhenStaged(w, t, plan, d), t), t, d);
  }

  lemma StagedMayChange(w: World, t: Task, plan: Plan, d: Id)
    requires Clear(w, plan) && t !in w.jobs && !plan.Purge? && Dirs(plan) == {d} && IsDir(w.db, d)
    ensures CanChange(WhenStaged(w, t, plan, d), t)
  {
    assert {} + {d} == Dirs(plan);
    hide Planned, Clear, CanChange, Dirs;
    MayChange(w, WhenStaged(w, t, plan, d), t, plan);
  }

  // It can finish, and what it holds and has written.
  lemma DoneIs(w: World, t: Task, plan: Plan, d: Id)
    requires IsDir(w.db, d) && Dirs(plan) == {d} && !plan.Purge?
    ensures var w5 := WhenDone(w, t, plan, d);
            && CanFinish(w5, t) && w5.owner == w.owner[d := t] && w5.jobs == w.jobs[t := w5.jobs[t]]
            && var tag := Planned(w.db, plan, d); w5.db == PromotedTo(Changed(Staged(w.db, d, tag), plan), d, tag)
  {
    assert {} + {d} == Dirs(plan);
    hide Planned, Changed, Staged, PromotedTo, Dirs;
  }

  // When the last lock is given back, the tables are as they were.
  lemma AllGivenBack(w: World, w': World, t: Task, p: Id, q: Id)
    requires Manned(w) && t !in w.jobs && p !in w.owner && q !in w.owner && t in w'.jobs
    requires w'.owner == w.owner[p := t][q := t] && w'.jobs == w.jobs[t := w'.jobs[t]]
    ensures Gone(w', t).owner == w.owner && Gone(w', t).jobs == w.jobs && Gone(w', t).db == w'.db
  {
    assert Gone(w', t).owner == w.owner;
    assert Gone(w', t).jobs == w.jobs;
  }

  lemma BaseOf(w: World)
    requires Inv(w)
    ensures Base(w)
  {
    hide Base, Apart, JobsOk, DirsOk;
  }

  lemma ClearSays(w: World, t: Task, plan: Plan, d: Id)
    requires Base(w) && CanSpawn(w, t, plan) && Clear(w, plan) && d in Dirs(plan)
    ensures Manned(w) && t !in w.jobs && d !in w.owner && IsDir(w.db, d) && Keyed(w.db) && Accepts(w.db, d) && StillThere(w.db, plan, d)
  {
    hide Seen, Exclusive, KnownOk, Signed;
  }

  // On its way through one directory.
  lemma OneDirectory(w: World, t: Task, plan: Plan, d: Id) returns (w': World)
    requires Base(w) && CanSpawn(w, t, plan) && Clear(w, plan) && !plan.Purge? && Dirs(plan) == {d}
    ensures Reaches(w, w', t) && w'.jobs == w.jobs && w'.owner == w.owner && IsDir(w.db, d)
    ensures var tag := Planned(w.db, plan, d); w'.db == PromotedTo(Changed(Staged(w.db, d, tag), plan), d, tag)
  {
    assert d in Dirs(plan);
    hide Reaches, Planned, WhenDone, CanFinish, Dirs, Changed, Staged, PromotedTo, Clear, CanSpawn, Base, Gone, Manned;
    ClearSays(w, t, plan, d);
    ToDone(w, t, plan, d);
    DoneIs(w, t, plan, d);
    FinishesOne(w, WhenDone(w, t, plan, d), t, d);
    w' := Gone(WhenDone(w, t, plan, d), t);
  }

  // Its last step.
  lemma Finishes(w: World, w': World, t: Task, p: Id, q: Id)
    requires Reaches(w, w', t) && CanFinish(w', t) && Manned(w) && t !in w.jobs && p !in w.owner && q !in w.owner
    requires w'.owner == w.owner[p := t][q := t] && w'.jobs == w.jobs[t := w'.jobs[t]]
    ensures Reaches(w, Gone(w', t), t)
    ensures Gone(w', t).owner == w.owner && Gone(w', t).jobs == w.jobs && Gone(w', t).db == w'.db
  {
    hide Reaches;
    AllGivenBack(w, w', t, p, q);
    hide Gone, Manned;
    Ends(w, w', t);
  }

  lemma FinishesOne(w: World, w': World, t: Task, p: Id)
    requires Reaches(w, w', t) && CanFinish(w', t) && Manned(w) && t !in w.jobs && p !in w.owner
    requires w'.owner == w.owner[p := t] && w'.jobs == w.jobs[t := w'.jobs[t]]
    ensures Reaches(w, Gone(w', t), t)
    ensures Gone(w', t).owner == w.owner && Gone(w', t).jobs == w.jobs && Gone(w', t).db == w'.db
  {
    hide Reaches, Gone, Manned, CanFinish;
    assert w.owner[p := t][p := t] == w.owner[p := t];
    Finishes(w, w', t, p, p);
  }

  lemma MayChange(w: World, w': World, t: Task, plan: Plan)
    requires Clear(w, plan) && t !in w.jobs && !plan.Purge? && t in w'.jobs && w'.jobs == w.jobs[t := w'.jobs[t]]
    requires w'.jobs[t].plan == plan && w'.jobs[t].staged == Dirs(plan) && !w'.jobs[t].changed && w'.jobs[t].doomed == []
    requires w.db.Keys == w'.db.Keys
    ensures CanChange(w', t)
  {
    if plan.Move? {
      forall u | u in w'.jobs ensures !Claims(w'.jobs[u], plan.id) {
        if u != t { assert !Claims(w.jobs[u], plan.id); }
      }
    }
  }

  // ------------------------------------------------------------------ a move between two directories

  // The world with both locked and staged, and the one with both promoted.
  function WhenBothStaged(w: World, u: Task, plan: Plan): World
    requires plan.Move? && IsDir(w.db, plan.s) && IsDir(w.db, plan.t)
  {
    var db1 := Staged(w.db, plan.s, Planned(w.db, plan, plan.s));
    WithJob(w.(owner := w.owner[plan.s := u][plan.t := u]), u, Staged(db1, plan.t, Planned(db1, plan, plan.t)),
            Drafted(Drafted(Fresh(plan), w.db, plan.s), db1, plan.t))
  }

  lemma StagedApart(db: Db, s: Id, tag: Tag, t: Id)
    requires Keyed(db) && IsDir(db, s) && IsDir(db, t) && s != t && Accepts(db, t)
    ensures IsDir(Staged(db, s, tag), t) && Accepts(Staged(db, s, tag), t) && ChildPairs(Staged(db, s, tag), t) == ChildPairs(db, t)
  {
    SameMembership(db, Staged(db, s, tag)[s], t);
  }

  lemma ToBothStaged(w: World, u: Task, plan: Plan)
    requires Base(w) && CanSpawn(w, u, plan) && Clear(w, plan) && plan.Move? && plan.s != plan.t
    ensures IsDir(w.db, plan.s) && IsDir(w.db, plan.t) && Reaches(w, WhenBothStaged(w, u, plan), u)
  {
    var s, t, out := plan.s, plan.t, Planned(w.db, plan, plan.s);
    assert s in Dirs(plan) && t in Dirs(plan);
    hide Reaches, Unclaimed, Accepts, Planned, ChildPairs, Keyed, CanSpawn, Clear, Base, Manned;
    ClearSays(w, u, plan, s);
    ClearSays(w, u, plan, t);
    StagedApart(w.db, s, out, t);
    assert StillThere(Staged(w.db, s, out), plan, t);
    BothLocked(w, u, plan);
    hide StillThere, Staged;
    StagesFirst(w, u, plan);
    StagesSecond(w, u, plan, Staged(w.db, s, out));
  }

  lemma StagesSecond(w: World, u: Task, plan: Plan, db1: Db)
    requires plan.Move? && plan.s != plan.t && IsDir(w.db, plan.s) && IsDir(w.db, plan.t)
    requires db1 == Staged(w.db, plan.s, Planned(w.db, plan, plan.s))
    requires IsDir(db1, plan.t) && Accepts(db1, plan.t) && StillThere(db1, plan, plan.t)
    requires Reaches(w, WithJob(w.(owner := w.owner[plan.s := u][plan.t := u]), u, db1, Drafted(Fresh(plan), w.db, plan.s)), u)
    ensures Reaches(w, WhenBothStaged(w, u, plan), u)
  {
    hide Reaches, Accepts, Planned, StillThere, Staged;
    var w4 := WithJob(w.(owner := w.owner[plan.s := u][plan.t := u]), u, db1, Drafted(Fresh(plan), w.db, plan.s));
    StagesIt(w, w4, u, plan.t, Drafted(Fresh(plan), w.db, plan.s));
    assert WithJob(w4, u, Staged(db1, plan.t, Planned(db1, plan, plan.t)), Drafted(Drafted(Fresh(plan), w.db, plan.s), db1, plan.t))
        == WhenBothStaged(w, u, plan);
  }

  lemma StagesFirst(w: World, u: Task, plan: Plan)
    requires plan.Move? && plan.s != plan.t && IsDir(w.db, plan.s) && Accepts(w.db, plan.s) && StillThere(w.db, plan, plan.s)
    requires Reaches(w, w.(owner := w.owner[plan.s := u][plan.t := u], jobs := w.jobs[u := Fresh(plan)]), u)
    ensures Reaches(w, WithJob(w.(owner := w.owner[plan.s := u][plan.t := u]), u, Staged(w.db, plan.s, Planned(w.db, plan, plan.s)),
                               Drafted(Fresh(plan), w.db, plan.s)), u)
  {
    var w3 := w.(owner := w.owner[plan.s := u][plan.t := u], jobs := w.jobs[u := Fresh(plan)]);
    hide Reaches, Accepts, Planned, StillThere, Staged;
    StagesIt(w, w3, u, plan.s, Fresh(plan));
    assert WithJob(w3, u, Staged(w.db, plan.s, Planned(w.db, plan, plan.s)), Drafted(Fresh(plan), w.db, plan.s))
        == WithJob(w.(owner := w.owner[plan.s := u][plan.t := u]), u, Staged(w.db, plan.s, Planned(w.db, plan, plan.s)),
                   Drafted(Fresh(plan), w.db, plan.s));
  }

  lemma BothLocked(w: World, u: Task, plan: Plan)
    requires CanSpawn(w, u, plan) && Clear(w, plan) && plan.Move? && plan.s != plan.t
    ensures Reaches(w, w.(owner := w.owner[plan.s := u][plan.t := u], jobs := w.jobs[u := Fresh(plan)]), u)
  {
    var s, t := plan.s, plan.t;
    assert s in Dirs(plan) && t in Dirs(plan) && s !in w.owner && t !in w.owner;
    Starts(w, u, plan);
    hide Reaches, Dirs, CanSpawn, Clear;
    var w1 := w.(jobs := w.jobs[u := Fresh(plan)]);
    Locks(w, w1, u, s);
    Locks(w, w1.(owner := w1.owner[s := u]), u, t);
  }

  function BothPromoted(w: World, u: Task, plan: Plan): World
    requires plan.Move? && IsDir(w.db, plan.s) && IsDir(w.db, plan.t)
  {
    var w1 := ChangedBy(WhenBothStaged(w, u, plan), u);
    var j := w1.jobs[u];
    WithJob(w1, u, PromotedTo(PromotedTo(w1.db, plan.s, j.drafted[plan.s]), plan.t, j.drafted[plan.t]),
            j.(promoted := j.promoted + {plan.s} + {plan.t})).
      (half := w1.half - {plan.s} - {plan.t}, lost := w1.lost - {plan.s} - {plan.t})
  }

  lemma BothMayChange(w: World, u: Task, plan: Plan)
    requires Clear(w, plan) && u !in w.jobs && plan.Move? && IsDir(w.db, plan.s) && IsDir(w.db, plan.t)
    ensures CanChange(WhenBothStaged(w, u, plan), u)
  {
    assert {} + {plan.s} + {plan.t} == Dirs(plan);
    hide Planned, Clear, CanChange, Dirs;
    MayChange(w, WhenBothStaged(w, u, plan), u, plan);
  }

  lemma ToBothPromoted(w: World, u: Task, plan: Plan)
    requires Base(w) && CanSpawn(w, u, plan) && Clear(w, plan) && plan.Move? && plan.s != plan.t
    ensures IsDir(w.db, plan.s) && IsDir(w.db, plan.t) && Reaches(w, BothPromoted(w, u, plan), u)
  {
    ToBothStaged(w, u, plan);
    BothMayChange(w, u, plan);
    var s, t, w3 := plan.s, plan.t, WhenBothStaged(w, u, plan);
    hide Reaches, Dirs, Planned, CanChange, Clear, CanSpawn, Changed, Staged, PromotedTo;
    Changes(w, w3, u);
    TwoPromotions(w, ChangedBy(w3, u), u, s, t);
  }

  lemma TwoPromotions(w0: World, w: World, u: Task, s: Id, t: Id)
    requires Reaches(w0, w, u) && u in w.jobs && w.jobs[u].changed && !w.jobs[u].plan.Purge? && s != t
    requires s in w.jobs[u].staged && s in w.jobs[u].drafted && s !in w.jobs[u].promoted
    requires t in w.jobs[u].staged && t in w.jobs[u].drafted && t !in w.jobs[u].promoted
    ensures var j := w.jobs[u];
            Reaches(w0, WithJob(w, u, PromotedTo(PromotedTo(w.db, s, j.drafted[s]), t, j.drafted[t]), j.(promoted := j.promoted + {s} + {t})).
                        (half := w.half - {s} - {t}, lost := w.lost - {s} - {t}), u)
  {
    var j := w.jobs[u];
    hide Reaches, PromotedTo;
    PromotesOne(w0, w, u, s);
    var w1 := WithJob(w, u, PromotedTo(w.db, s, j.drafted[s]), j.(promoted := j.promoted + {s})).(half := w.half - {s}, lost := w.lost - {s});
    PromotesOne(w0, w1, u, t);
    assert WithJob(w1, u, PromotedTo(w1.db, t, j.drafted[t]), j.(promoted := j.promoted + {s} + {t})).
             (half := w1.half - {t}, lost := w1.lost - {t})
        == WithJob(w, u, PromotedTo(PromotedTo(w.db, s, j.drafted[s]), t, j.drafted[t]), j.(promoted := j.promoted + {s} + {t})).
             (half := w.half - {s} - {t}, lost := w.lost - {s} - {t});
  }

  lemma BothPromotedIs(w: World, u: Task, plan: Plan)
    requires plan.Move? && plan.s != plan.t && IsDir(w.db, plan.s) && IsDir(w.db, plan.t)
    ensures var w5, s, t := BothPromoted(w, u, plan), plan.s, plan.t;
            && CanFinish(w5, u) && w5.owner == w.owner[s := u][t := u] && w5.jobs == w.jobs[u := w5.jobs[u]]
            && var out := Planned(w.db, plan, s); var db1 := Staged(w.db, s, out); var into := Planned(db1, plan, t);
               w5.db == PromotedTo(PromotedTo(Changed(Staged(db1, t, into), plan), s, out), t, into)
  {
    assert {} + {plan.s} + {plan.t} == Dirs(plan);
    hide Planned, Changed, PromotedTo, Dirs;
  }

  lemma TwoDirectories(w: World, u: Task, plan: Plan) returns (w': World)
    requires Base(w) && CanSpawn(w, u, plan) && Clear(w, plan) && plan.Move? && plan.s != plan.t
    ensures Reaches(w, w', u) && w'.jobs == w.jobs && w'.owner == w.owner && IsDir(w.db, plan.s) && IsDir(w.db, plan.t)
    ensures w'.db == BothPromoted(w, u, plan).db
  {
    assert plan.s in Dirs(plan) && plan.t in Dirs(plan);
    hide Reaches, Planned, BothPromoted, CanFinish, Dirs, Changed, Staged, PromotedTo, Clear, CanSpawn, Base, Gone, Manned, Keyed;
    ClearSays(w, u, plan, plan.s);
    ClearSays(w, u, plan, plan.t);
    ToBothPromoted(w, u, plan);
    BothPromotedIs(w, u, plan);
    Finishes(w, BothPromoted(w, u, plan), u, plan.s, plan.t);
    w' := Gone(BothPromoted(w, u, plan), u);
  }

  lemma BothAreDone(w: World, u: Task, plan: Plan)
    requires Keyed(w.db) && plan.Move? && plan.s != plan.t && plan.id != plan.s && plan.id != plan.t && PlanReady(w.db, plan)
    requires IsDir(w.db, plan.s) && IsDir(w.db, plan.t) && Accepts(w.db, plan.t)
    ensures BothPromoted(w, u, plan).db == Done(w.db, plan)
  {
    var db, s, t := w.db, plan.s, plan.t;
    StagedApart(db, s, Planned(db, plan, s), t);
    assert Planned(Staged(db, s, Planned(db, plan, s)), plan, t) == Planned(db, plan, t);
    PlanListing(db, plan, s);
    PlanListing(db, plan, t);
    assert s in Dirs(plan) && t in Dirs(plan);
    BothPromotedIs(w, u, plan);
    hide Planned, ChildPairs, BothPromoted, Accepts, Dirs, PlanReady;
    BothSettled(db, plan, Planned(db, plan, s), Planned(db, plan, t));
  }

  // With the listings that come about staged, promoting both signs both.
  lemma BothSettled(db: Db, plan: Plan, out: Tag, into: Tag)
    requires Keyed(db) && plan.Move? && plan.s != plan.t && plan.id != plan.s && plan.id != plan.t && plan.id in db
    requires IsDir(db, plan.s) && IsDir(db, plan.t)
    requires out == EntriesMac(plan.s, ChildPairs(Changed(db, plan), plan.s)) && into == EntriesMac(plan.t, ChildPairs(Changed(db, plan), plan.t))
    ensures PromotedTo(PromotedTo(Changed(Staged(Staged(db, plan.s, out), plan.t, into), plan), plan.s, out), plan.t, into) == Done(db, plan)
  {
    var s, t, end := plan.s, plan.t, Changed(db, plan);
    SameMembership(end, Settled(end, s)[s], t);
    hide ChildPairs;
    assert Done(db, plan) == Settled(Settled(end, s), t);
  }

  /**
   Left alone, a task whose directories are free and verify gets to the end, and what it leaves is its change
   made and its directories signed for what they then hold; nothing else, and every lock given back.
   */
  lemma AloneItCompletes(w: World, t: Task, plan: Plan) returns (w': World)
    requires Inv(w) && CanSpawn(w, t, plan) && Clear(w, plan) && !plan.Purge?
    ensures Reaches(w, w', t) && w'.jobs == w.jobs && w'.owner == w.owner && w'.db == Done(w.db, plan)
  {
    PlanIsReady(w, plan);
    hide Reaches, Inv, Clear, CanSpawn, Base, PlanReady;
    if plan.Move? && plan.s != plan.t {
      w' := TwoDirectories(w, t, plan);
      BothAreDone(w, t, plan);
    } else {
      var d: Id :| Dirs(plan) == {d};
      w' := OneDirectory(w, t, plan, d);
      PromotedIsDone(w.db, plan, d);
    }
  }

  lemma PlanIsReady(w: World, plan: Plan)
    requires Inv(w) && Seen(w.db, plan) && Clear(w, plan) && (plan.Insert? ==> plan.n.id !in w.known)
    ensures PlanReady(w.db, plan) && Base(w) && Keyed(w.db)
    ensures plan.Move? ==> plan.id != plan.s && plan.id != plan.t
    ensures forall d :: d in Dirs(plan) ==> Target(plan) != d && IsDir(w.db, d) && Accepts(w.db, d)
    ensures exists d :: d in Dirs(plan) && ((plan.Move? && plan.s != plan.t) || Dirs(plan) == {d})
  {
    match plan
    case Insert(n) => assert Parent(n) in Dirs(plan);
    case Attach(_, d, _) => assert d in Dirs(plan);
    case Withdraw(_, p, _) => assert p in Dirs(plan);
    case Purge(_, p, _) => assert p in Dirs(plan);
    case Move(_, s, _, d, _) => assert s in Dirs(plan) && d in Dirs(plan) && (s == d ==> Dirs(plan) == {s});
  }

  // ------------------------------------------------------------------ a purge

  // Its node and some of what is below, parents first.
  ghost predicate Collectable(db: Db, id: Id, out: seq<Id>) {
    && out != [] && out[0] == id && (forall i, j :: 0 <= i < j < |out| ==> out[i] != out[j])
    && forall i :: 0 < i < |out| ==> out[i] in db && db[out[i]].parentId.Some? && db[out[i]].parentId.value in out[..i]
  }

  lemma {:induction false} Collects(w0: World, w: World, t: Task, out: seq<Id>, n: nat)
    requires Reaches(w0, w, t) && t in w.jobs && w.jobs[t].plan.Purge? && !w.jobs[t].changed && w.jobs[t].doomed == []
    requires Collectable(w.db, w.jobs[t].plan.id, out) && n <= |out|
    ensures Reaches(w0, WithJob(w, t, w.db, w.jobs[t].(doomed := out[..n])), t)
  {
    hide Reaches;
    var w1 := WithJob(w, t, w.db, w.jobs[t].(doomed := out[..n]));
    if n == 0 {
      assert w1 == w;
    } else {
      Collects(w0, w, t, out, n - 1);
      var mid := WithJob(w, t, w.db, w.jobs[t].(doomed := out[..n - 1]));
      assert mid.jobs[t].doomed == out[..n - 1] && out[n - 1] !in out[..n - 1];
      GoesOn(w0, mid, Collect(t, out[n - 1]), t);
      assert out[..n - 1] + [out[n - 1]] == out[..n];
      assert Collected(mid, t, out[n - 1]) == w1;
    }
  }

  function Members(ids: seq<Id>): set<Id> { set c | c in ids }

  lemma {:induction false} Deletes(w0: World, w: World, t: Task, n: nat)
    requires Reaches(w0, w, t) && t in w.jobs && w.jobs[t].plan.Purge? && w.jobs[t].changed && w.jobs[t].next == 1
    requires 1 <= n <= |w.jobs[t].doomed|
    ensures Reaches(w0, WithJob(w, t, w.db - Members(w.jobs[t].doomed[1..n]), w.jobs[t].(next := n)), t)
  {
    hide Reaches;
    var j := w.jobs[t];
    var w1 := WithJob(w, t, w.db - Members(j.doomed[1..n]), j.(next := n));
    if n == 1 {
      assert w1 == w;
    } else {
      Deletes(w0, w, t, n - 1);
      var mid := WithJob(w, t, w.db - Members(j.doomed[1..n - 1]), j.(next := n - 1));
      GoesOn(w0, mid, Delete(t), t);
      assert Members(j.doomed[1..n]) == Members(j.doomed[1..n - 1]) + {j.doomed[n - 1]} by {
        assert j.doomed[1..n] == j.doomed[1..n - 1] + [j.doomed[n - 1]];
      }
      assert DeletedBy(mid, t) == w1;
    }
  }

  function WhenPurgeStaged(w: World, t: Task, plan: Plan, out: seq<Id>): World
    requires plan.Purge? && IsDir(w.db, plan.p)
  {
    WithJob(w.(owner := w.owner[plan.p := t]), t, Staged(w.db, plan.p, Planned(w.db, plan, plan.p)),
            Drafted(Fresh(plan).(doomed := out), w.db, plan.p))
  }

  lemma ToPurgeStaged(w: World, t: Task, plan: Plan, out: seq<Id>)
    requires CanSpawn(w, t, plan) && Clear(w, plan) && plan.Purge? && Collectable(w.db, plan.id, out)
    ensures IsDir(w.db, plan.p) && Reaches(w, WhenPurgeStaged(w, t, plan, out), t)
  {
    var p := plan.p;
    assert p in Dirs(plan);
    hide Reaches, Dirs, StillThere, Unclaimed, Accepts, Planned, Collectable;
    Starts(w, t, plan);
    var w1 := w.(jobs := w.jobs[t := Fresh(plan)]);
    Locks(w, w1, t, p);
    var w2 := w1.(owner := w1.owner[p := t]);
    Collects(w, w2, t, out, |out|);
    assert out[..|out|] == out;
    var w3 := WithJob(w2, t, w.db, Fresh(plan).(doomed := out));
    StagesIt(w, w3, t, p, Fresh(plan).(doomed := out));
    assert WithJob(w3, t, Staged(w.db, p, Planned(w.db, plan, p)), Drafted(Fresh(plan).(doomed := out), w.db, p)) == WhenPurgeStaged(w, t, plan, out);
  }

  function WhenPurged(w: World, t: Task, plan: Plan, out: seq<Id>): World
    requires plan.Purge? && IsDir(w.db, plan.p) && out != []
  {
    var w1 := ChangedBy(WhenPurgeStaged(w, t, plan, out), t);
    WithJob(w1, t, w1.db - Members(out[1..|out|]), w1.jobs[t].(next := |out|))
  }

  lemma ToPurged(w: World, t: Task, plan: Plan, out: seq<Id>)
    requires CanSpawn(w, t, plan) && Clear(w, plan) && plan.Purge? && Collectable(w.db, plan.id, out)
    ensures IsDir(w.db, plan.p) && Reaches(w, WhenPurged(w, t, plan, out), t)
  {
    ToPurgeStaged(w, t, plan, out);
    var w3 := WhenPurgeStaged(w, t, plan, out);
    assert {} + {plan.p} == Dirs(plan);
    assert CanChange(w3, t);
    hide Reaches, Dirs, StillThere, Unclaimed, Accepts, Planned, CanChange, Clear, CanSpawn, Changed, Staged, Collectable;
    Changes(w, w3, t);
    var w4 := ChangedBy(w3, t);
    Deletes(w, w4, t, |out|);
  }

  function WhenPurgeDone(w: World, t: Task, plan: Plan, out: seq<Id>): World
    requires plan.Purge? && IsDir(w.db, plan.p) && out != []
  {
    var w5, p := WhenPurged(w, t, plan, out), plan.p;
    var j := w5.jobs[t];
    WithJob(w5, t, PromotedTo(w5.db, p, j.drafted[p]), j.(promoted := j.promoted + {p})).(half := w5.half - {p}, lost := w5.lost - {p})
  }

  lemma ToPurgeDone(w: World, t: Task, plan: Plan, out: seq<Id>)
    requires CanSpawn(w, t, plan) && Clear(w, plan) && plan.Purge? && Collectable(w.db, plan.id, out)
    ensures IsDir(w.db, plan.p) && Reaches(w, WhenPurgeDone(w, t, plan, out), t)
  {
    ToPurged(w, t, plan, out);
    hide Reaches, Planned, Changed, StillThere, Unclaimed, Accepts, Staged, PromotedTo, Collectable, Members, Clear, CanSpawn;
    PromotesLast(w, WhenPurged(w, t, plan, out), t, plan.p);
  }

  /** And a purge alone deletes what it has collected, and leaves its directory signed for the rest. */
  lemma AloneItPurges(w: World, t: Task, plan: Plan, out: seq<Id>) returns (w': World)
    requires Inv(w) && CanSpawn(w, t, plan) && Clear(w, plan) && plan.Purge? && Collectable(w.db, plan.id, out)
    ensures Reaches(w, w', t) && w'.jobs == w.jobs && w'.owner == w.owner && IsDir(w.db, plan.p)
    ensures var tag := Planned(w.db, plan, plan.p); w'.db == PromotedTo(Staged(w.db, plan.p, tag) - Members(out), plan.p, tag)
  {
    assert plan.p in Dirs(plan) && out != [] && out[0] == plan.id;
    hide Reaches, Planned, WhenPurgeDone, Inv, CanFinish, Members, Dirs, Clear, CanSpawn, Base, Gone, Manned, PromotedTo, Staged, Collectable;
    BaseOf(w);
    ClearSays(w, t, plan, plan.p);
    ToPurgeDone(w, t, plan, out);
    PurgeDoneIs(w, t, plan, out);
    FinishesOne(w, WhenPurgeDone(w, t, plan, out), t, plan.p);
    w' := Gone(WhenPurgeDone(w, t, plan, out), t);
  }

  lemma PurgeDoneIs(w: World, t: Task, plan: Plan, out: seq<Id>)
    requires plan.Purge? && IsDir(w.db, plan.p) && out != [] && out[0] == plan.id
    ensures var w6, p := WhenPurgeDone(w, t, plan, out), plan.p;
            && CanFinish(w6, t) && w6.owner == w.owner[p := t] && w6.jobs == w.jobs[t := w6.jobs[t]]
            && var tag := Planned(w.db, plan, p); w6.db == PromotedTo(Staged(w.db, p, tag) - Members(out), p, tag)
  {
    var tag := Planned(w.db, plan, plan.p);
    assert {} + {plan.p} == Dirs(plan);
    PurgedAll(Staged(w.db, plan.p, tag), plan, out);
    hide Planned, Changed, Staged, PromotedTo, Members;
    assert WhenPurged(w, t, plan, out).db == Staged(w.db, plan.p, tag) - Members(out);
  }

  lemma PurgedAll(db: Db, plan: Plan, out: seq<Id>)
    requires plan.Purge? && out != [] && out[0] == plan.id
    ensures Changed(db, plan) - Members(out[1..|out|]) == db - Members(out)
  {
    assert out == [out[0]] + out[1..|out|];
    assert Members(out) == {out[0]} + Members(out[1..|out|]);
  }

  lemma PromotesLast(w0: World, w: World, t: Task, d: Id)
    requires Reaches(w0, w, t) && CanPromote(w, t, d)
    ensures var j := w.jobs[t];
            Reaches(w0, WithJob(w, t, PromotedTo(w.db, d, j.drafted[d]), j.(promoted := j.promoted + {d})).
                        (half := w.half - {d}, lost := w.lost - {d}), t)
  {
    hide Reaches, CanPromote;
    GoesOn(w0, w, Promote(t, d), t);
  }
}
