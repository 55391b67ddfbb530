/**
 * The dispatcher of `initRepos`: every descriptor is handed, in order, to
 * the sync procedure. The pool of five goroutines reading an unbuffered
 * channel is run here as one sequential loop, in which each repository
 * contributes its own actions in turn.
 *
 * Two things end the work on a repository early. A panic in any worker ends
 * the whole program, so no repository after the panicking one is handed
 * out. And `initRepos` returns right after the last hand-off, and `main`
 * right after it, without waiting for the workers: the repositories still
 * in flight then stop wherever they have got to. How far each repository
 * gets is given as a number of actions, its cut.
 */
module Dispatch {
  import opened Config
  import opened Sync

  // ---------------------------------------------------------------------------
  // The shape of a run, whatever each repository does.

  /** The actions of the repositories in turn, cut off after the first that panics. */
  function Run(plans: seq<seq<Action>>, panics: seq<bool>): seq<Action>
    requires |panics| == |plans|
  {
    if plans == [] then []
    else if panics[0] then plans[0]
    else plans[0] + Run(plans[1..], panics[1..])
  }

  /**
   * How many repositories a run gets to: all of them, or those up to and
   * including the first one that panics.
   */
  function Processed(panics: seq<bool>): (n: nat)
    ensures n <= |panics|
    ensures forall j :: 0 <= j < n - 1 ==> !panics[j]
    ensures n < |panics| ==> 0 < n && panics[n - 1]
  {
    if panics == [] then 0
    else if panics[0] then 1
    else 1 + Processed(panics[1..])
  }

  function Flatten(ps: seq<seq<Action>>): seq<Action>
  {
    if ps == [] then [] else ps[0] + Flatten(ps[1..])
  }

  /** A run is the plans of the repositories it gets to, each once, in order. */
  lemma {:induction false} RunIsFlatten(plans: seq<seq<Action>>, panics: seq<bool>)
    requires |panics| == |plans|
    ensures Run(plans, panics) == Flatten(plans[..Processed(panics)])
  {
    if plans != [] {
      var n := Processed(panics);
      if panics[0] {
        assert plans[..n] == [plans[0]];
      } else {
        RunIsFlatten(plans[1..], panics[1..]);
        assert plans[..n][1..] == plans[1..][..n - 1];
      }
    }
  }

  /**
   * One more repository of a run: when it panics the run is complete,
   * otherwise the run continues with the next one.
   */
  lemma RunStep(plans: seq<seq<Action>>, panics: seq<bool>, i: nat, done: seq<Action>)
    requires |panics| == |plans| && i < |plans|
    requires done + Run(plans[i..], panics[i..]) == Run(plans, panics)
    ensures panics[i] ==> done + plans[i] == Run(plans, panics)
    ensures !panics[i] ==> (done + plans[i]) + Run(plans[i + 1..], panics[i + 1..]) == Run(plans, panics)
  {
    assert plans[i..][1..] == plans[i + 1..];
    assert panics[i..][1..] == panics[i + 1..];
  }

  /** Every action of a run is an action of one of its plans. */
  lemma {:induction false} RunMember(plans: seq<seq<Action>>, panics: seq<bool>, a: Action)
    requires |panics| == |plans|
    requires a in Run(plans, panics)
    ensures exists i :: 0 <= i < |plans| && a in plans[i]
  {
    if !panics[0] && a !in plans[0] {
      RunMember(plans[1..], panics[1..], a);
      var i :| 0 <= i < |plans| - 1 && a in plans[1..][i];
      assert a in plans[i + 1];
    }
  }

  // ---------------------------------------------------------------------------
  // The run of the mirror.

  /** The plan of every repository, in mapping-file order. */
  function Plans(repos: seq<Repo>, world: seq<Outcomes>, mirror: bool): seq<seq<Action>>
    requires |world| == |repos|
  {
    seq(|repos|, i requires 0 <= i < |repos| => Plan(repos[i], world[i], mirror))
  }

  /** Which repositories panic when they run to the end. */
  function PanicFlags(repos: seq<Repo>, mirror: bool): seq<bool>
  {
    seq(|repos|, i requires 0 <= i < |repos| => Panics(repos[i], mirror))
  }

  lemma PanicFlagsAt(repos: seq<Repo>, mirror: bool)
    ensures forall j :: 0 <= j < |repos| ==> PanicFlags(repos, mirror)[j] == Panics(repos[j], mirror)
  {
  }

  /** The first `k` actions of a plan, or all of them: what a repository gets through before the program ends. */
  function Prefix(p: seq<Action>, k: nat): (q: seq<Action>)
    ensures q <= p
    ensures q == p <==> |p| <= k
  {
    if k < |p| then p[..k] else p
  }

  /** Every plan cut short at its repository's cut. */
  function Cut(plans: seq<seq<Action>>, cuts: seq<nat>): seq<seq<Action>>
    requires |cuts| == |plans|
  {
    seq(|plans|, i requires 0 <= i < |plans| => Prefix(plans[i], cuts[i]))
  }

  /** Which repositories get as far as their panic: a panicking plan ends with it. */
  function Reached(plans: seq<seq<Action>>, panics: seq<bool>, cuts: seq<nat>): seq<bool>
    requires |panics| == |plans| && |cuts| == |plans|
  {
    seq(|plans|, i requires 0 <= i < |plans| => panics[i] && |plans[i]| <= cuts[i])
  }

  /**
   * The actions of a whole run of the program as written, given the outcomes
   * seen by each repository and how far each one gets.
   */
  function RunPlan(repos: seq<Repo>, world: seq<Outcomes>, cuts: seq<nat>, mirror: bool): seq<Action>
    requires |world| == |repos| && |cuts| == |repos|
  {
    var plans := Plans(repos, world, mirror);
    Run(Cut(plans, cuts), Reached(plans, PanicFlags(repos, mirror), cuts))
  }

  /** Whether repository `j` of a run gets as far as its panic. */
  predicate PanicReached(repos: seq<Repo>, world: seq<Outcomes>, cuts: seq<nat>, mirror: bool, j: int)
    requires |world| == |repos| && |cuts| == |repos|
    requires 0 <= j < |repos|
  {
    Panics(repos[j], mirror) && |Plan(repos[j], world[j], mirror)| <= cuts[j]
  }

  lemma ReachedAt(repos: seq<Repo>, world: seq<Outcomes>, cuts: seq<nat>, mirror: bool)
    requires |world| == |repos| && |cuts| == |repos|
    ensures var r := Reached(Plans(repos, world, mirror), PanicFlags(repos, mirror), cuts);
      |r| == |repos| &&
      forall j :: 0 <= j < |repos| ==> (r[j] <==> PanicReached(repos, world, cuts, mirror, j))
  {
  }

  /**
   * A run processes the repositories in the order of the mapping file, each
   * once: each performs the start of its own plan, in order, until the
   * first that reaches its panic, or all of them are handed out.
   */
  lemma RunIsPlansInOrder(repos: seq<Repo>, world: seq<Outcomes>, cuts: seq<nat>, mirror: bool)
    requires |world| == |repos| && |cuts| == |repos|
    ensures var plans := Plans(repos, world, mirror);
      var n := Processed(Reached(plans, PanicFlags(repos, mirror), cuts));
      RunPlan(repos, world, cuts, mirror) == Flatten(Cut(plans, cuts)[..n]) &&
      (forall i :: 0 <= i < n ==> Cut(plans, cuts)[i] <= Plan(repos[i], world[i], mirror)) &&
      (n == |repos| || PanicReached(repos, world, cuts, mirror, n - 1)) &&
      forall j :: 0 <= j < n - 1 ==> !PanicReached(repos, world, cuts, mirror, j)
  {
    var plans := Plans(repos, world, mirror);
    var flags := Reached(plans, PanicFlags(repos, mirror), cuts);
    RunIsFlatten(Cut(plans, cuts), flags);
    ReachedAt(repos, world, cuts, mirror);
    var n := Processed(flags);
    forall j: int | 0 <= j < n as int - 1 ensures !PanicReached(repos, world, cuts, mirror, j) {
      assert !flags[j];
    }
  }

  /**
   * The run as it is meant to be: the program waits for its workers, so
   * every repository handed out performs its whole plan.
   */
  function CompleteRun(repos: seq<Repo>, world: seq<Outcomes>, mirror: bool): seq<Action>
    requires |world| == |repos|
  {
    Run(Plans(repos, world, mirror), PanicFlags(repos, mirror))
  }

  /**
   * In a complete run each repository is handed out once, in mapping-file
   * order, and runs to the end of its plan, up to the first that panics or
   * to the last one; none before that one panics.
   */
  lemma CompleteRunInOrder(repos: seq<Repo>, world: seq<Outcomes>, mirror: bool)
    requires |world| == |repos|
    ensures var n := Processed(PanicFlags(repos, mirror));
      CompleteRun(repos, world, mirror) == Flatten(Plans(repos, world, mirror)[..n]) &&
      (n == |repos| || Panics(repos[n - 1], mirror)) &&
      forall j :: 0 <= j < n - 1 ==> !Panics(repos[j], mirror)
  {
    var flags := PanicFlags(repos, mirror);
    RunIsFlatten(Plans(repos, world, mirror), flags);
    var n := Processed(flags);
    forall j: int | 0 <= j < n as int - 1 ensures !Panics(repos[j], mirror) {
      assert !flags[j];
    }
  }

  /** A run in which no repository is cut short is the complete run. */
  lemma UncutRunIsComplete(repos: seq<Repo>, world: seq<Outcomes>, cuts: seq<nat>, mirror: bool)
    requires |world| == |repos| && |cuts| == |repos|
    requires forall i :: 0 <= i < |repos| ==> |Plan(repos[i], world[i], mirror)| <= cuts[i]
    ensures RunPlan(repos, world, cuts, mirror) == CompleteRun(repos, world, mirror)
  {
    var plans := Plans(repos, world, mirror);
    var flags := PanicFlags(repos, mirror);
    assert Cut(plans, cuts) == plans;
    assert Reached(plans, flags, cuts) == flags;
  }

  /**
   * The program does not wait for its workers: a single repository whose
   * worker has not started when `main` returns does nothing at all, where
   * the complete run performs its whole plan.
   */
  lemma ExitCutsLastRepository(r: Repo, o: Outcomes, mirror: bool)
    ensures RunPlan([r], [o], [0], mirror) == []
    ensures CompleteRun([r], [o], mirror) == Plan(r, o, mirror) != []
  {
    var plans := Plans([r], [o], mirror);
    var flags := PanicFlags([r], mirror);
    assert plans == [Plan(r, o, mirror)];
    assert Plan(r, o, mirror)[0].Stat?;
    var cut := Cut(plans, [0]);
    var reached := Reached(plans, flags, [0]);
    assert cut == [[]] && reached == [false];
    assert Run(cut, reached) == [] + Run(cut[1..], reached[1..]);
    assert Run(plans, flags) == plans[0] || Run(plans, flags) == plans[0] + Run(plans[1..], flags[1..]);
  }

  /**
   * With mirroring off no repository panics, so every repository is handed
   * out, each performing the start of its plan; in a complete run each
   * performs all of it.
   */
  lemma MirrorOffProcessesAll(repos: seq<Repo>, world: seq<Outcomes>, cuts: seq<nat>)
    requires |world| == |repos| && |cuts| == |repos|
    ensures RunPlan(repos, world, cuts, false) == Flatten(Cut(Plans(repos, world, false), cuts))
    ensures CompleteRun(repos, world, false) == Flatten(Plans(repos, world, false))
  {
    RunIsPlansInOrder(repos, world, cuts, false);
    assert Cut(Plans(repos, world, false), cuts)[..|repos|] == Cut(Plans(repos, world, false), cuts);
    CompleteRunInOrder(repos, world, false);
    assert Plans(repos, world, false)[..|repos|] == Plans(repos, world, false);
  }

  /**
   * With mirroring off no run registers a remote, pushes or panics, for any
   * repository and however far each one gets.
   */
  lemma MirrorOffNeverPublishes(repos: seq<Repo>, world: seq<Outcomes>, cuts: seq<nat>)
    requires |world| == |repos| && |cuts| == |repos|
    ensures forall a :: a in RunPlan(repos, world, cuts, false) ==>
      !a.MkdirAll? && !a.WriteFile? && !a.Push? && !a.Panic?
  {
    forall a | a in RunPlan(repos, world, cuts, false)
      ensures !a.MkdirAll? && !a.WriteFile? && !a.Push? && !a.Panic?
    {
      var plans := Plans(repos, world, false);
      var cut := Cut(plans, cuts);
      RunMember(cut, Reached(plans, PanicFlags(repos, false), cuts), a);
      var i :| 0 <= i < |cut| && a in cut[i];
      assert a in plans[i];
      MirrorOffStaysLocal(repos[i], world[i]);
    }
  }

  /**
   * `initRepos`: hand every repository to the sync procedure, in order.
   * Each performs its actions up to its cut; the program crashes when one
   * of them gets as far as its panic, and no repository after it is handed
   * out.
   */
  method InitRepos(m: Mirror, world: seq<Outcomes>, cuts: seq<nat>, mirror: bool)
    returns (trace: seq<Action>, crashed: bool)
    requires |world| == |m.repos| && |cuts| == |m.repos|
    ensures trace == RunPlan(m.repos, world, cuts, mirror)
    ensures crashed <==> exists j :: 0 <= j < |m.repos| && PanicReached(m.repos, world, cuts, mirror, j)
  {
    ghost var plans := Cut(Plans(m.repos, world, mirror), cuts);
    ghost var flags := Reached(Plans(m.repos, world, mirror), PanicFlags(m.repos, mirror), cuts);
    trace := [];
    for i := 0 to |m.repos|
      invariant trace + Run(plans[i..], flags[i..]) == Run(plans, flags)
      invariant forall j :: 0 <= j < i ==> !flags[j]
    {
      var acts, panicked := SyncRepo(m.repos[i], world[i], mirror);
      var done := if cuts[i] < |acts| then acts[..cuts[i]] else acts;
      var died := panicked && |acts| <= cuts[i];
      assert done == plans[i];
      assert died == flags[i];
      RunStep(plans, flags, i, trace);
      trace := trace + done;
      if died {
        ReachedAt(m.repos, world, cuts, mirror);
        return trace, true;
      }
    }
    ReachedAt(m.repos, world, cuts, mirror);
    crashed := false;
  }
}
