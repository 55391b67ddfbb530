/**
 * The per-repository sync procedure run by each worker of `initRepos`:
 * decide whether the cached mirror can be reused, clone it again when it
 * cannot, refresh it with one more fetch, and, when mirroring is on,
 * register the destination remote and push to it.
 *
 * The filesystem and the `git` subprocesses are outside the model: what they
 * answer is given as an `Outcomes` record, and every call the procedure makes
 * is recorded as an `Action`, in order.
 */
module Sync {
  import opened Wrappers
  import Paths
  import Remote
  import opened Config

  /**
   * How one `git` subprocess ended. `WaitFailed` covers a non-zero exit and
   * a kill at the 30-second timeout; `StartFailed` a process that never ran.
   */
  datatype ExecResult = Completed | StartFailed | WaitFailed

  /** What the outside world answers to the calls made for one repository. */
  datatype Outcomes = Outcomes(
    fetchHeadPresent: bool,    // os.Stat of <root>/FETCH_HEAD succeeds
    probeFetch: ExecResult,    // the fetch tried on a cache that looks reusable
    clone: ExecResult,
    refreshFetch: ExecResult,  // the fetch made on every path
    remotesDirCreated: bool,   // os.MkdirAll of <root>/remotes succeeds
    push: ExecResult)

  /** One call made by the procedure, with what it was given and what it got back. */
  datatype Action =
    | Stat(path: string, found: bool)
    | Fetch(dir: string, result: ExecResult)                   // git fetch --prune origin, in dir
    | RemoveAll(path: string)
    | Clone(source: string, target: string, result: ExecResult) // git clone --mirror source target
    | MkdirAll(path: string, created: bool)
    | WriteFile(path: string, content: string)
    | Push(dir: string, remote: string, result: ExecResult)    // git push --mirror --force remote, in dir
    | Panic                                                    // index out of range: the process dies

  /** The marker whose presence makes a cached mirror look reusable. */
  function FetchHeadPath(root: string): string { Paths.Join(root, "FETCH_HEAD") }

  /** The directory of legacy remote files inside a bare mirror. */
  function RemotesDir(root: string): string { Paths.Join(root, "remotes") }

  // ---------------------------------------------------------------------------
  // Specification: the actions of one repository, as a function of the outcomes.

  /**
   * The reuse decision and the refresh, up to and including the fetch made
   * on every path. A present FETCH_HEAD is followed by the probe fetch and
   * never by a new clone: the error tested after the probe is the `os.Stat`
   * error, which is nil on that path.
   */
  function Decision(r: Repo, o: Outcomes): seq<Action>
  {
    var stat := Stat(FetchHeadPath(r.root), o.fetchHeadPresent);
    if o.fetchHeadPresent then
      [stat, Fetch(r.root, o.probeFetch), Fetch(r.root, o.refreshFetch)]
    else
      [stat, RemoveAll(r.root), Clone(r.source, r.root, o.clone), Fetch(r.root, o.refreshFetch)]
  }

  /**
   * Registering the destination remote and pushing to it. A destination
   * without `@` panics in `addRemote` when the remotes directory was made,
   * and otherwise in `push`.
   */
  function Publish(r: Repo, o: Outcomes): seq<Action>
  {
    var dir := RemotesDir(r.root);
    var mkdir := MkdirAll(dir, o.remotesDirCreated);
    match Remote.RemoteName(r.destination)
    case None => [mkdir, Panic]
    case Some(name) =>
      [mkdir]
      + (if o.remotesDirCreated then [WriteFile(Paths.Join(dir, name), Remote.RemoteContent(r.destination))] else [])
      + [Push(r.root, name, o.push)]
  }

  /** Everything the procedure does for one repository. */
  function Plan(r: Repo, o: Outcomes, mirror: bool): seq<Action>
  {
    Decision(r, o) + (if mirror then Publish(r, o) else [])
  }

  /** A repository whose processing kills the whole program. */
  predicate Panics(r: Repo, mirror: bool)
  {
    mirror && '@' !in r.destination
  }

  // ---------------------------------------------------------------------------
  // The procedure, step by step.

  /** `fetch`: the only step that reports its failure to the caller. */
  method FetchRepo(r: Repo, res: ExecResult) returns (act: Action, err: bool)
    ensures act == Fetch(r.root, res)
    ensures err <==> res != Completed
  {
    act := Fetch(r.root, res);
    if res == StartFailed {
      return act, true;
    }
    if res == WaitFailed {
      return act, true;
    }
    err := false;
  }

  /**
   * `addRemote`: create `<root>/remotes`, giving up silently when that fails,
   * and write the remote file named after the destination's host.
   */
  method AddRemote(r: Repo, remotesDirCreated: bool) returns (acts: seq<Action>, panicked: bool)
    ensures panicked <==> remotesDirCreated && '@' !in r.destination
    ensures acts == [MkdirAll(RemotesDir(r.root), remotesDirCreated)] +
      if !remotesDirCreated then []
      else match Remote.RemoteName(r.destination)
        case None => [Panic]
        case Some(name) => [WriteFile(Paths.Join(RemotesDir(r.root), name), Remote.RemoteContent(r.destination))]
  {
    var dir := RemotesDir(r.root);
    acts := [MkdirAll(dir, remotesDirCreated)];
    if !remotesDirCreated {
      return acts, false;
    }
    var remote := Remote.RemoteContent(r.destination);
    var name := Remote.RemoteName(r.destination);
    if name.None? {
      return acts + [Panic], true;
    }
    acts := acts + [WriteFile(Paths.Join(dir, name.value), remote)];
    panicked := false;
  }

  /** `push`: force-push the whole mirror to the remote named after the destination's host. */
  method PushRepo(r: Repo, res: ExecResult) returns (acts: seq<Action>, panicked: bool)
    ensures panicked <==> '@' !in r.destination
    ensures match Remote.RemoteName(r.destination)
      case None => acts == [Panic]
      case Some(name) => acts == [Push(r.root, name, res)]
  {
    var name := Remote.RemoteName(r.destination);
    if name.None? {
      return [Panic], true;
    }
    acts := [Push(r.root, name.value, res)];
    panicked := false;
  }

  /**
   * The worker body of `initRepos` for one repository. The error that the
   * reuse check tests after the probe fetch is the one left over from
   * `os.Stat`, not the fetch's own, so the probe cannot demote the cache.
   */
  method SyncRepo(r: Repo, o: Outcomes, mirror: bool) returns (acts: seq<Action>, panicked: bool)
    ensures acts == Plan(r, o, mirror)
    ensures panicked <==> Panics(r, mirror)
  {
    var canReuse := true;
    var statFailed := !o.fetchHeadPresent;
    acts := [Stat(FetchHeadPath(r.root), o.fetchHeadPresent)];
    if statFailed {
      canReuse := false;
    }

    if canReuse {
      var probe, _ := FetchRepo(r, o.probeFetch);
      acts := acts + [probe];
      if statFailed {
        canReuse := false;
      }
    }

    if !canReuse {
      acts := acts + [RemoveAll(r.root), Clone(r.source, r.root, o.clone)];
    }

    var refresh, _ := FetchRepo(r, o.refreshFetch);
    acts := acts + [refresh];
    assert acts == Decision(r, o);

    panicked := false;
    if mirror {
      var added;
      added, panicked := AddRemote(r, o.remotesDirCreated);
      acts := acts + added;
      if !panicked {
        var pushed;
        pushed, panicked := PushRepo(r, o.push);
        acts := acts + pushed;
      }
    }
  }

  // ---------------------------------------------------------------------------
  // Properties of the procedure.

  datatype Kind = StatKind | FetchKind | RemoveAllKind | CloneKind | MkdirKind | WriteKind | PushKind | PanicKind

  function KindOf(a: Action): Kind
  {
    match a
    case Stat(_, _) => StatKind
    case Fetch(_, _) => FetchKind
    case RemoveAll(_) => RemoveAllKind
    case Clone(_, _, _) => CloneKind
    case MkdirAll(_, _) => MkdirKind
    case WriteFile(_, _) => WriteKind
    case Push(_, _, _) => PushKind
    case Panic => PanicKind
  }

  /** The kinds of the actions of a trace, forgetting their arguments and results. */
  function Kinds(t: seq<Action>): seq<Kind>
  {
    seq(|t|, i requires 0 <= i < |t| => KindOf(t[i]))
  }

  /**
   * The shape of every run: a missing FETCH_HEAD gives Stat, RemoveAll,
   * Clone, Fetch; a present one gives Stat, Fetch, Fetch; then, only when
   * mirroring, the remotes directory, the remote file when that directory
   * could be made, and the push, or a panic for a destination without `@`.
   */
  lemma PlanShape(r: Repo, o: Outcomes, mirror: bool)
    ensures Kinds(Plan(r, o, mirror)) ==
      (if o.fetchHeadPresent then [StatKind, FetchKind, FetchKind]
       else [StatKind, RemoveAllKind, CloneKind, FetchKind])
      + (if !mirror then []
         else if '@' !in r.destination then [MkdirKind, PanicKind]
         else if o.remotesDirCreated then [MkdirKind, WriteKind, PushKind]
         else [MkdirKind, PushKind])
  {
    var pub := if mirror then Publish(r, o) else [];
    assert Kinds(Decision(r, o) + pub) == Kinds(Decision(r, o)) + Kinds(pub);
    if mirror {
      match Remote.RemoteName(r.destination)
      case None =>
        assert Kinds(pub) == [MkdirKind, PanicKind];
      case Some(name) =>
        assert Kinds(pub) == if o.remotesDirCreated then [MkdirKind, WriteKind, PushKind] else [MkdirKind, PushKind];
    }
  }

  /**
   * Only the FETCH_HEAD probe and the creation of the remotes directory steer
   * the procedure: whatever the fetches, the clone and the push return, the
   * same kinds of action follow in the same order.
   */
  lemma FailuresDoNotSteer(r: Repo, o1: Outcomes, o2: Outcomes, mirror: bool)
    requires o1.fetchHeadPresent == o2.fetchHeadPresent
    requires o1.remotesDirCreated == o2.remotesDirCreated
    ensures Kinds(Plan(r, o1, mirror)) == Kinds(Plan(r, o2, mirror))
  {
    PlanShape(r, o1, mirror);
    PlanShape(r, o2, mirror);
  }

  /**
   * A present FETCH_HEAD never leads to RemoveAll or Clone, whatever the
   * probe fetch returns, and the probe's result changes nothing after it.
   */
  lemma ProbeResultIgnored(r: Repo, o: Outcomes, mirror: bool, probe: ExecResult)
    requires o.fetchHeadPresent
    ensures forall a :: a in Plan(r, o, mirror) ==> !a.RemoveAll? && !a.Clone?
    ensures Plan(r, o.(probeFetch := probe), mirror)[2..] == Plan(r, o, mirror)[2..]
  {
    var p := Plan(r, o, mirror);
    forall a | a in p ensures !a.RemoveAll? && !a.Clone? {
      var i :| 0 <= i < |p| && p[i] == a;
      PlanShape(r, o, mirror);
      assert Kinds(p)[i] == KindOf(a);
    }
  }

  /**
   * Exactly one fetch follows the reuse decision on every path, with the
   * refresh's own result, and nothing after it fetches, clones or removes.
   */
  lemma OneRefreshAfterDecision(r: Repo, o: Outcomes, mirror: bool)
    ensures var k := if o.fetchHeadPresent then 2 else 3;
      var p := Plan(r, o, mirror);
      k < |p| && p[k] == Fetch(r.root, o.refreshFetch) &&
      forall j :: k < j < |p| ==> !p[j].Fetch? && !p[j].Clone? && !p[j].RemoveAll?
  {
    var k := if o.fetchHeadPresent then 2 else 3;
    var p := Plan(r, o, mirror);
    PlanShape(r, o, mirror);
    forall j | k < j < |p| ensures !p[j].Fetch? && !p[j].Clone? && !p[j].RemoveAll? {
      assert Kinds(p)[j] == KindOf(p[j]);
    }
  }

  /** With mirroring off nothing is registered, pushed, or derived from the destination. */
  lemma MirrorOffStaysLocal(r: Repo, o: Outcomes)
    ensures forall a :: a in Plan(r, o, false) ==>
      !a.MkdirAll? && !a.WriteFile? && !a.Push? && !a.Panic?
  {
  }

  /**
   * The remote file is named after the push target, the push target is the
   * name derived from the destination, and the file holds the destination's
   * remote content.
   */
  lemma RegistrationMatchesPush(r: Repo, o: Outcomes, mirror: bool)
    ensures var p := Plan(r, o, mirror);
      forall i, j | 0 <= i < |p| && 0 <= j < |p| && p[i].WriteFile? && p[j].Push? ::
        p[i].path == Paths.Join(RemotesDir(r.root), p[j].remote)
    ensures forall a :: a in Plan(r, o, mirror) && a.Push? ==>
      Remote.RemoteName(r.destination) == Some(a.remote) && a.dir == r.root
    ensures forall a :: a in Plan(r, o, mirror) && a.WriteFile? ==>
      a.content == Remote.RemoteContent(r.destination)
  {
    var d := Decision(r, o);
    var p := Plan(r, o, mirror);
    assert forall i :: 0 <= i < |d| ==> !d[i].WriteFile? && !d[i].Push?;
    if mirror {
      var pub := Publish(r, o);
      assert p == d + pub;
      assert forall a :: a in p ==> a in d || a in pub;
    }
  }

  /** The remote file is written only after its directory was created, and never otherwise. */
  lemma WriteNeedsRemotesDir(r: Repo, o: Outcomes, mirror: bool)
    ensures (exists a :: a in Plan(r, o, mirror) && a.WriteFile?) <==>
      mirror && o.remotesDirCreated && '@' in r.destination
    ensures forall i :: 0 <= i < |Plan(r, o, mirror)| && Plan(r, o, mirror)[i].WriteFile? ==>
      0 < i && Plan(r, o, mirror)[i - 1] == MkdirAll(RemotesDir(r.root), true)
  {
    var d := Decision(r, o);
    var p := Plan(r, o, mirror);
    assert forall i :: 0 <= i < |d| ==> !d[i].WriteFile?;
    if !mirror {
      assert p == d;
    } else {
      var pub := Publish(r, o);
      assert p == d + pub;
      match Remote.RemoteName(r.destination)
      case None =>
        assert forall i :: 0 <= i < |p| ==> !p[i].WriteFile?;
      case Some(name) =>
        if o.remotesDirCreated {
          assert p[|d| + 1] in p && p[|d| + 1].WriteFile?;
        } else {
          assert forall i :: 0 <= i < |p| ==> !p[i].WriteFile?;
        }
    }
  }

  /**
   * An empty cache, mirroring on and every call succeeding, for a
   * destination `user@host:path`: remove, clone, fetch, then the remote file
   * `<root>/remotes/<host>` and a push to the remote `host`.
   */
  lemma FreshCacheRun(r: Repo, user: string, host: string, path: string)
    requires r.destination == user + "@" + host + ":" + path
    requires '@' !in user && '@' !in host && ':' !in host
    ensures Plan(r, Outcomes(false, Completed, Completed, Completed, true, Completed), true) == [
      Stat(Paths.Join(r.root, "FETCH_HEAD"), false),
      RemoveAll(r.root),
      Clone(r.source, r.root, Completed),
      Fetch(r.root, Completed),
      MkdirAll(Paths.Join(r.root, "remotes"), true),
      WriteFile(Paths.Join(Paths.Join(r.root, "remotes"), host), Remote.RemoteContent(r.destination)),
      Push(r.root, host, Completed)]
  {
    Remote.RemoteNameOfScpStyle(user, host, path);
  }

  // ---------------------------------------------------------------------------
  // The reuse check as its log messages describe it.

  /**
   * The reuse decision with the probe fetch's own error tested: a present
   * FETCH_HEAD whose probe fetch fails demotes the cache, which is then
   * removed and cloned again.
   */
  function IntendedRefresh(r: Repo, o: Outcomes): (acts: seq<Action>)
    ensures (exists a :: a in acts && a.Clone?) <==>
      !o.fetchHeadPresent || o.probeFetch != Completed
    ensures |acts| > 0 && acts[|acts| - 1] == Fetch(r.root, o.refreshFetch)
    ensures !o.fetchHeadPresent || o.probeFetch == Completed ==> acts == Decision(r, o)
  {
    var stat := Stat(FetchHeadPath(r.root), o.fetchHeadPresent);
    var probe := if o.fetchHeadPresent then [Fetch(r.root, o.probeFetch)] else [];
    var reclone :=
      if !o.fetchHeadPresent || o.probeFetch != Completed
      then [RemoveAll(r.root), Clone(r.source, r.root, o.clone)]
      else [];
    var acts := [stat] + probe + reclone + [Fetch(r.root, o.refreshFetch)];
    assert reclone != [] ==> acts[|probe| + 2] == reclone[1];
    acts
  }
}
