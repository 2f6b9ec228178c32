/** The default push subscriber (`DefaultPushGHEventSubscriber`): checks the
    shape of the pushed repository's URL, resolves its name, pokes the push
    trigger of every job that is associated with that repository and whose
    path filter accepts the push, then tells every listener that the
    repository changed. The job registry and the listener list, which the
    source takes from the running Jenkins instance, are inputs here; the
    calls the source makes on triggers and listeners are returned as the
    sequence of calls made. */
module PushSubscriber {
  import opened JavaText
  import opened GitHubEvents
  import opened ProjectProperty
  import opened RepositoryUrl

  /** One element of the payload's `commits` array. */
  datatype Commit = Commit(modified: seq<string>, added: seq<string>, removed: seq<string>)

  datatype ChangeType = Modified | Added | Removed

  /** The order in which the filter reads the change lists of a commit. */
  const ChangeTypes: seq<ChangeType> := [Modified, Added, Removed]

  function PathsOf(c: Commit, t: ChangeType): seq<string>
  {
    match t
    case Modified => c.modified
    case Added => c.added
    case Removed => c.removed
  }

  /** The fields of a push payload the subscriber reads, after JSON parsing:
      `repository.url`, `pusher.name`, `after` and `commits`. */
  datatype PushPayload = PushPayload(repoUrl: string, pusherName: string, after: string, commits: seq<Commit>)

  /** `GitHubRepositoryName`: the identity of a repository, compared by value. */
  datatype RepositoryName = RepositoryName(host: string, userName: string, repositoryName: string)

  /** A job as the subscriber sees it: whether it has a `GitHubPushTrigger`,
      the repository names associated with it, and its GitHub property. */
  datatype Job = Job(hasPushTrigger: bool, associatedNames: set<RepositoryName>,
                     property: Option<GithubProjectProperty>)

  /** A build parameter (`StringParameterValue`). */
  datatype ParameterValue = StringParameterValue(name: string, value: string)

  /** `trigger.onPost(pusherName, values)` on the trigger of the job at this registry index. */
  datatype TriggerCall = OnPost(job: nat, pusherName: string, values: seq<ParameterValue>)

  /** `listener.onPushRepositoryChanged(pusherName, repository)` on the listener at this index. */
  datatype Notification = OnPushRepositoryChanged(listener: nat, pusherName: string, repository: RepositoryName)

  /** `events()`: the subscriber handles push events only. */
  function Events(): (events: set<GHEvent>)
    ensures forall e :: e in events <==> e == Push
  {
    {Push}
  }

  /** `isApplicable(job)`: the job has a `GitHubPushTrigger`. A job the
      subscriber is not applicable to is never poked, whatever the push. */
  predicate IsApplicable(job: Job)
    ensures !IsApplicable(job) ==> forall repo, commits :: !ShouldTrigger(job, repo, commits)
  {
    job.hasPushTrigger
  }

  // ---------------------------------------------------------------------------
  // The commit path filter

  predicate NoneStartsWith(paths: seq<string>, prefix: string)
  {
    forall j :: 0 <= j < |paths| ==> !StartsWith(paths[j], prefix)
  }

  /** Some modified, added or removed path of the commit starts with `prefix`. */
  ghost predicate Touches(c: Commit, prefix: string)
  {
    exists t: ChangeType, j :: 0 <= j < |PathsOf(c, t)| && StartsWith(PathsOf(c, t)[j], prefix)
  }

  /** Some commit touches a path starting with `prefix`. */
  ghost predicate AnyPathStartsWith(prefix: string, commits: seq<Commit>)
  {
    exists i :: 0 <= i < |commits| && Touches(commits[i], prefix)
  }

  /** Some commit changes at least one path. */
  ghost predicate HasChangedPath(commits: seq<Commit>)
  {
    exists i, t: ChangeType :: 0 <= i < |commits| && |PathsOf(commits[i], t)| > 0
  }

  /** `checkCommitPaths`: for each commit, for each change type in the order
      modified, added, removed, for each path, stop at the first path that
      starts with `repositoryPath`. */
  method CheckCommitPaths(repositoryPath: string, commits: seq<Commit>) returns (found: bool)
    ensures found <==> AnyPathStartsWith(repositoryPath, commits)
  {
    for i := 0 to |commits|
      invariant forall i' :: 0 <= i' < i ==> !Touches(commits[i'], repositoryPath)
    {
      for k := 0 to |ChangeTypes|
        invariant forall k' :: 0 <= k' < k ==> NoneStartsWith(PathsOf(commits[i], ChangeTypes[k']), repositoryPath)
      {
        var paths := PathsOf(commits[i], ChangeTypes[k]);
        for j := 0 to |paths|
          invariant NoneStartsWith(paths[..j], repositoryPath)
        {
          if StartsWith(paths[j], repositoryPath) {
            assert Touches(commits[i], repositoryPath);
            return true;
          }
          assert paths[..j + 1] == paths[..j] + [paths[j]];
        }
        assert paths[..|paths|] == paths;
      }
      forall t: ChangeType
        ensures NoneStartsWith(PathsOf(commits[i], t), repositoryPath)
      {
        assert t == ChangeTypes[0] || t == ChangeTypes[1] || t == ChangeTypes[2];
      }
    }
    return false;
  }

  /** The filter never passes on a push without commits. */
  lemma NoCommitsNoMatch(prefix: string)
    ensures !AnyPathStartsWith(prefix, [])
  {
  }

  /** The empty prefix is a prefix of every path, so it matches exactly when
      the push changes at least one path. */
  lemma EmptyPrefixMatchesAnyChange(commits: seq<Commit>)
    ensures AnyPathStartsWith("", commits) <==> HasChangedPath(commits)
  {
    if HasChangedPath(commits) {
      var i, t: ChangeType :| 0 <= i < |commits| && |PathsOf(commits[i], t)| > 0;
      assert StartsWith(PathsOf(commits[i], t)[0], "");
      assert Touches(commits[i], "");
    }
  }

  /** The match is on raw characters, not on path segments: `lib` matches
      a change to `libfoo/x`. */
  lemma PrefixIsNotSegmentAware()
    ensures AnyPathStartsWith("lib", [Commit(["libfoo/x"], [], [])])
  {
    var c := Commit(["libfoo/x"], [], []);
    var commits := [c];
    assert commits[0] == c;
    assert StartsWith(PathsOf(c, Modified)[0], "lib");
    assert Touches(c, "lib");
  }

  // ---------------------------------------------------------------------------
  // The per-job decision

  /** The path test of the job loop, as written: no property, a null path or
      the path object being the literal `""` (a reference comparison) lets
      every push through; any other path goes to `checkCommitPaths`. */
  ghost predicate PathFilterPasses(property: Option<GithubProjectProperty>, commits: seq<Commit>)
    ensures property.None? || property.value.GetRepositoryPath().Null? ==> PathFilterPasses(property, commits)
  {
    property.None?
    || property.value.GetRepositoryPath().Null?
    || IsEmptyLiteralRef(property.value.GetRepositoryPath())
    || AnyPathStartsWith(property.value.GetRepositoryPath().Chars(), commits)
  }

  /** On a push that changes no path, only a job with no property, a null
      path or the literal `""` as its path passes the filter. */
  lemma UnchangedPushPassesOnlyUnfiltered(property: Option<GithubProjectProperty>, commits: seq<Commit>)
    requires !HasChangedPath(commits)
    ensures PathFilterPasses(property, commits) <==>
              property.None? || property.value.GetRepositoryPath().Null?
              || IsEmptyLiteralRef(property.value.GetRepositoryPath())
  {
  }

  /** The job's trigger is poked: it has a push trigger, it is associated
      with the changed repository, and its path filter passes. */
  ghost predicate ShouldTrigger(job: Job, repo: RepositoryName, commits: seq<Commit>)
  {
    job.hasPushTrigger && repo in job.associatedNames && PathFilterPasses(job.property, commits)
  }

  /** The trigger calls the job loop makes over `jobs`, in registry order. */
  ghost function TriggerCalls(jobs: seq<Job>, repo: RepositoryName, commits: seq<Commit>,
                              pusherName: string, values: seq<ParameterValue>): seq<TriggerCall>
  {
    Poked(jobs, TriggerDecision(repo, commits), pusherName, values)
  }

  /** The listener loop's calls: one per listener, in order. */
  function Notifications(listeners: nat, pusherName: string, repo: RepositoryName): seq<Notification>
  {
    if listeners == 0 then []
    else Notifications(listeners - 1, pusherName, repo) + [OnPushRepositoryChanged(listeners - 1, pusherName, repo)]
  }

  /** The build parameters of every trigger call: `sha1` set to the pushed commit. */
  function ShaParameters(after: string): seq<ParameterValue>
  {
    [StringParameterValue("sha1", after)]
  }

  /** The job loop over `jobs` for any per-job decision `should`: the calls
      it makes, in registry order. */
  ghost function Poked(jobs: seq<Job>, should: Job -> bool, pusherName: string,
                       values: seq<ParameterValue>): seq<TriggerCall>
    decreases |jobs|
  {
    if |jobs| == 0 then []
    else
      var n := |jobs| - 1;
      Poked(jobs[..n], should, pusherName, values)
      + (if should(jobs[n]) then [OnPost(n, pusherName, values)] else [])
  }

  /** The subscriber's per-job decision as a function of the job. */
  ghost function TriggerDecision(repo: RepositoryName, commits: seq<Commit>): Job -> bool
  {
    job => ShouldTrigger(job, repo, commits)
  }

  /** Every call names one of the first `count` jobs and carries the pusher
      and the parameter list, and the calls follow registry order. */
  ghost predicate CallsInOrder(calls: seq<TriggerCall>, count: nat, pusherName: string, values: seq<ParameterValue>)
  {
    (forall m :: 0 <= m < |calls| ==>
       calls[m].job < count && calls[m].pusherName == pusherName && calls[m].values == values)
    && (forall m, m' :: 0 <= m < m' < |calls| ==> calls[m].job < calls[m'].job)
  }

  /** A job of `jobs` is called iff `should` selects it. */
  ghost predicate CallsSelect(calls: seq<TriggerCall>, jobs: seq<Job>, should: Job -> bool)
  {
    forall k :: 0 <= k < |jobs| ==> (should(jobs[k]) <==> exists m :: 0 <= m < |calls| && calls[m].job == k)
  }

  /** `calls` pokes exactly the jobs of `jobs` that `should` selects, each
      once, in registry order, each with the pusher and the parameter list. */
  ghost predicate PokesExactlyBy(calls: seq<TriggerCall>, jobs: seq<Job>, should: Job -> bool,
                                 pusherName: string, values: seq<ParameterValue>)
  {
    CallsInOrder(calls, |jobs|, pusherName, values) && CallsSelect(calls, jobs, should)
  }

  /** `calls` pokes exactly the jobs of `jobs` that should be poked. */
  ghost predicate PokesExactly(calls: seq<TriggerCall>, jobs: seq<Job>, repo: RepositoryName,
                               commits: seq<Commit>, pusherName: string, values: seq<ParameterValue>)
  {
    PokesExactlyBy(calls, jobs, TriggerDecision(repo, commits), pusherName, values)
  }

  /** Whatever the decision, the job loop pokes exactly the selected jobs. */
  lemma PokedExact(jobs: seq<Job>, should: Job -> bool, pusherName: string, values: seq<ParameterValue>)
    ensures PokesExactlyBy(Poked(jobs, should, pusherName, values), jobs, should, pusherName, values)
  {
    PokedInOrder(jobs, should, pusherName, values);
    PokedSelected(jobs, should, pusherName, values);
  }

  /** The calls of the job loop name jobs of the list, in registry order. */
  lemma {:induction false} PokedInOrder(jobs: seq<Job>, should: Job -> bool, pusherName: string,
                                        values: seq<ParameterValue>)
    ensures CallsInOrder(Poked(jobs, should, pusherName, values), |jobs|, pusherName, values)
  {
    if |jobs| > 0 {
      PokedInOrder(jobs[..|jobs| - 1], should, pusherName, values);
    }
  }

  /** The job loop calls a job iff the decision selects it. */
  lemma {:induction false} PokedSelected(jobs: seq<Job>, should: Job -> bool, pusherName: string,
                                         values: seq<ParameterValue>)
    ensures CallsSelect(Poked(jobs, should, pusherName, values), jobs, should)
  {
    if |jobs| > 0 {
      var n := |jobs| - 1;
      var prefix := jobs[..n];
      PokedSelected(prefix, should, pusherName, values);
      PokedInOrder(prefix, should, pusherName, values);
      var before := Poked(prefix, should, pusherName, values);
      var calls := Poked(jobs, should, pusherName, values);
      assert forall k :: 0 <= k < n ==> prefix[k] == jobs[k];
      if should(jobs[n]) {
        assert calls == before + [OnPost(n, pusherName, values)];
        assert calls[|before|].job == n;
        assert forall m :: 0 <= m < |before| ==> calls[m] == before[m];
      } else {
        assert calls == before;
      }
    }
  }

  /** Each job whose trigger should be poked is poked exactly once, no other
      job is, the calls follow registry order, and each carries the pusher
      and the parameter list. */
  lemma TriggerCallsExact(jobs: seq<Job>, repo: RepositoryName, commits: seq<Commit>,
                          pusherName: string, values: seq<ParameterValue>)
    ensures PokesExactly(TriggerCalls(jobs, repo, commits, pusherName, values), jobs, repo, commits, pusherName, values)
  {
    PokedExact(jobs, TriggerDecision(repo, commits), pusherName, values);
  }

  /** A job that the subscriber is not applicable to is never poked. */
  lemma NotApplicableNeverTriggered(jobs: seq<Job>, repo: RepositoryName, commits: seq<Commit>,
                                    pusherName: string, values: seq<ParameterValue>, k: nat)
    requires k < |jobs| && !IsApplicable(jobs[k])
    ensures forall c :: c in TriggerCalls(jobs, repo, commits, pusherName, values) ==> c.job != k
  {
    TriggerCallsExact(jobs, repo, commits, pusherName, values);
  }

  /** Every listener is told exactly once, in order, with the pusher and the
      changed repository. */
  lemma {:induction false} NotificationsExact(listeners: nat, pusherName: string, repo: RepositoryName)
    ensures |Notifications(listeners, pusherName, repo)| == listeners
    ensures forall k :: 0 <= k < listeners ==>
              Notifications(listeners, pusherName, repo)[k] == OnPushRepositoryChanged(k, pusherName, repo)
  {
    if listeners > 0 {
      NotificationsExact(listeners - 1, pusherName, repo);
    }
  }

  /** What the reference test `path == ""` means for an empty path: when the
      path is the shared literal object, the job sees every push; any other
      empty string object goes to `checkCommitPaths` and passes only when the
      push changes some path. */
  lemma EmptyPathReading(p: GithubProjectProperty, commits: seq<Commit>)
    requires p.GetRepositoryPath() == EmptyLiteral || p.GetRepositoryPath() == Str("")
    ensures p.GetRepositoryPath() == EmptyLiteral ==> PathFilterPasses(Some(p), commits)
    ensures p.GetRepositoryPath() == Str("") ==> (PathFilterPasses(Some(p), commits) <==> HasChangedPath(commits))
  {
    EmptyPrefixMatchesAnyChange(commits);
  }

  /** A job without a path, or without a GitHub property, sees every push of
      its repository whatever the changed paths. */
  lemma WholeRepositoryJob(job: Job, repo: RepositoryName, commits: seq<Commit>)
    requires job.hasPushTrigger && repo in job.associatedNames
    requires job.property.None? || job.property.value.GetRepositoryPath().Null?
    ensures ShouldTrigger(job, repo, commits)
  {
  }

  /** The job loop on a push whose only change is `lib/a.go`, with one job
      for the repository: a path of `lib` pokes the job once with the pusher
      and `sha1`; a path of `docs` does not. */
  lemma {:induction false} MonorepoTriggerCalls(repo: RepositoryName, property: GithubProjectProperty)
    requires property.GetRepositoryPath() == Str("lib") || property.GetRepositoryPath() == Str("docs")
    ensures var job := Job(true, {repo}, Some(property));
            var commits := [Commit(["lib/a.go"], [], [])];
            TriggerCalls([job], repo, commits, "alice", ShaParameters("deadbeef"))
            == if property.GetRepositoryPath() == Str("lib")
               then [OnPost(0, "alice", [StringParameterValue("sha1", "deadbeef")])]
               else []
  {
    var job := Job(true, {repo}, Some(property));
    var c := Commit(["lib/a.go"], [], []);
    var commits := [c];
    var should := TriggerDecision(repo, commits);
    var values := ShaParameters("deadbeef");
    assert [job][..0] == [];
    assert Poked([job], should, "alice", values)
           == Poked([], should, "alice", values) + (if should(job) then [OnPost(0, "alice", values)] else []);
    assert should(job) == ShouldTrigger(job, repo, commits);
    if property.GetRepositoryPath() == Str("lib") {
      assert StartsWith(PathsOf(c, Modified)[0], "lib");
      assert Touches(commits[0], "lib");
    } else {
      assert !StartsWith("lib/a.go", "docs") by { assert "lib/a.go"[0] != "docs"[0]; }
      forall t: ChangeType ensures NoneStartsWith(PathsOf(c, t), "docs") {
        assert PathsOf(c, t) == [] || PathsOf(c, t) == ["lib/a.go"];
      }
      assert !Touches(commits[0], "docs");
      assert !AnyPathStartsWith("docs", commits);
    }
  }

  // ---------------------------------------------------------------------------
  // The event handler

  /** `onEvent`: `create` stands for `GitHubRepositoryName.create`, `jobs` for
      every job of the instance (read with system privileges), `listeners`
      for the number of registered `GitHubWebHook.Listener`s. */
  method OnEvent(payload: PushPayload, create: string -> Option<RepositoryName>,
                 jobs: seq<Job>, listeners: nat)
    returns (calls: seq<TriggerCall>, notifications: seq<Notification>)
    ensures !Matches(payload.repoUrl) ==> calls == [] && notifications == []
    ensures Matches(payload.repoUrl) && create(payload.repoUrl).None? ==> calls == [] && notifications == []
    ensures Matches(payload.repoUrl) && create(payload.repoUrl).Some? ==>
              var repo := create(payload.repoUrl).value;
              calls == TriggerCalls(jobs, repo, payload.commits, payload.pusherName, ShaParameters(payload.after))
              && notifications == Notifications(listeners, payload.pusherName, repo)
  {
    calls, notifications := [], [];
    var values: seq<ParameterValue> := [];
    values := values + [StringParameterValue("sha1", payload.after)];
    assert values == ShaParameters(payload.after);

    if !Matches(payload.repoUrl) {
      return;
    }
    var changedRepository := create(payload.repoUrl);
    if changedRepository.None? {
      return;
    }
    var repo := changedRepository.value;

    for i := 0 to |jobs|
      invariant calls == TriggerCalls(jobs[..i], repo, payload.commits, payload.pusherName, values)
    {
      var job := jobs[i];
      assert jobs[..i + 1][..i] == jobs[..i];
      if job.hasPushTrigger {
        if repo in job.associatedNames {
          var commits := payload.commits;
          var pass: bool;
          if job.property.None?
             || job.property.value.GetRepositoryPath().Null?
             || IsEmptyLiteralRef(job.property.value.GetRepositoryPath())
          {
            pass := true;
          } else {
            pass := CheckCommitPaths(job.property.value.GetRepositoryPath().Chars(), commits);
          }
          if pass {
            calls := calls + [OnPost(i, payload.pusherName, values)];
          }
        }
      }
    }
    assert jobs[..|jobs|] == jobs;

    for l := 0 to listeners
      invariant notifications == Notifications(l, payload.pusherName, repo)
    {
      notifications := notifications + [OnPushRepositoryChanged(l, payload.pusherName, repo)];
    }
  }

  /** The whole delivery: a push to `https://github.com/acme/widgets` by
      `alice`, resulting commit `deadbeef`, whose only change is `lib/a.go`,
      with one job configured for `acme/widgets` with a push trigger and the
      given path, and one listener. With the path `lib` the job is poked
      once with `alice` and `sha1 = deadbeef`; with `docs` it is not; in both
      cases the listener is told once. `create` stands in for
      `GitHubRepositoryName.create` on this one URL. */
  method MonorepoScenario(path: string) returns (calls: seq<TriggerCall>, notifications: seq<Notification>)
    requires path == "lib" || path == "docs"
    ensures calls == if path == "lib"
                     then [OnPost(0, "alice", [StringParameterValue("sha1", "deadbeef")])]
                     else []
    ensures notifications == [OnPushRepositoryChanged(0, "alice", RepositoryName("github.com", "acme", "widgets"))]
  {
    var url := "https://github.com/acme/widgets";
    var repo := RepositoryName("github.com", "acme", "widgets");
    var create := (u: string) => if u == url then Some(repo) else None;
    var property := GithubProjectProperty(Some(url), Str(path), None, None, None);
    var job := Job(true, {repo}, Some(property));
    var payload := PushPayload(url, "alice", "deadbeef", [Commit(["lib/a.go"], [], [])]);
    GitHubUrlMatches();
    MonorepoTriggerCalls(repo, property);
    calls, notifications := OnEvent(payload, create, [job], 1);
  }
}
