/**
 * The vector cache under concurrency. Writers commit a new database version and then, as a
 * separate step under the mutex, drop the cache; loaders hold the mutex from the moment they
 * look at the cache until they have stored what they queried. Commits need no mutex.
 */
module CacheProtocol {
  import opened Basics
  import Store

  /** A database version, as a load decodes it. */
  type Rows = seq<Store.VecRow>

  /** Nil is the nil slice; an empty result is stored as nil. */
  datatype Cache = Nil | Cached(rows: Rows, version: nat)

  datatype Thread =
    | Committed(version: nat)                             // a writer before its invalidate
    | Returned(version: nat)                              // a writer after its invalidate
    | Waiting(floor: nat)                                 // a loader before it has the mutex
    | Locked(floor: nat)                                  // holding it, cache found nil
    | Queried(floor: nat, version: nat)                   // holding it, snapshot taken
    | Loaded(floor: nat, version: nat, rows: Rows)        // a loader that has returned
    | Failed

  /**
   * versions[v] is the database after v commits. returned is the highest version of any
   * writer that has returned, and a loader's floor is its value when the loader started.
   */
  datatype State = State(
    versions: seq<Rows>,
    cache: Cache,
    mutex: Option<nat>,
    threads: map<nat, Thread>,
    returned: nat)

  predicate Init(s: State) {
    |s.versions| == 1 && s.cache.Nil? && s.mutex.None? && s.threads == map[] && s.returned == 0
  }

  function Max(a: nat, b: nat): nat {
    if a < b then b else a
  }

  predicate Commit(s: State, t: State, id: nat, rows: Rows) {
    && id !in s.threads
    && t == s.(versions := s.versions + [rows], threads := s.threads[id := Committed(|s.versions|)])
  }

  predicate Invalidate(s: State, t: State, id: nat) {
    && id in s.threads && s.threads[id].Committed? && s.mutex.None?
    && t == s.(cache := Nil,
               threads := s.threads[id := Returned(s.threads[id].version)],
               returned := Max(s.returned, s.threads[id].version))
  }

  predicate StartLoad(s: State, t: State, id: nat) {
    && id !in s.threads
    && t == s.(threads := s.threads[id := Waiting(s.returned)])
  }

  predicate LockHit(s: State, t: State, id: nat) {
    && id in s.threads && s.threads[id].Waiting? && s.mutex.None? && s.cache.Cached?
    && t == s.(threads := s.threads[id := Loaded(s.threads[id].floor, s.cache.version, s.cache.rows)])
  }

  predicate LockMiss(s: State, t: State, id: nat) {
    && id in s.threads && s.threads[id].Waiting? && s.mutex.None? && s.cache.Nil?
    && t == s.(mutex := Some(id), threads := s.threads[id := Locked(s.threads[id].floor)])
  }

  predicate Query(s: State, t: State, id: nat) {
    && id in s.threads && s.threads[id].Locked? && |s.versions| > 0
    && t == s.(threads := s.threads[id := Queried(s.threads[id].floor, |s.versions| - 1)])
  }

  /** A failing query or scan returns without touching the cache. */
  predicate Abort(s: State, t: State, id: nat) {
    && id in s.threads && (s.threads[id].Locked? || s.threads[id].Queried?)
    && t == s.(mutex := None, threads := s.threads[id := Failed])
  }

  predicate Publish(s: State, t: State, id: nat) {
    && id in s.threads && s.threads[id].Queried? && s.threads[id].version < |s.versions|
    && var q := s.threads[id];
       var rows := s.versions[q.version];
       t == s.(cache := if rows == [] then Nil else Cached(rows, q.version),
               mutex := None,
               threads := s.threads[id := Loaded(q.floor, q.version, rows)])
  }

  datatype Action =
    | DoCommit(rows: Rows) | DoInvalidate | DoStartLoad | DoLockHit | DoLockMiss | DoQuery | DoAbort | DoPublish

  predicate Step(s: State, t: State, id: nat, a: Action) {
    match a
    case DoCommit(rows) => Commit(s, t, id, rows)
    case DoInvalidate => Invalidate(s, t, id)
    case DoStartLoad => StartLoad(s, t, id)
    case DoLockHit => LockHit(s, t, id)
    case DoLockMiss => LockMiss(s, t, id)
    case DoQuery => Query(s, t, id)
    case DoAbort => Abort(s, t, id)
    case DoPublish => Publish(s, t, id)
  }

  ghost predicate Next(s: State, t: State) {
    exists id, a :: Step(s, t, id, a)
  }

  /** A finite execution: any interleaving of any number of writers and loaders. */
  ghost predicate Run(run: seq<State>) {
    && run != [] && Init(run[0])
    && forall i :: 0 < i < |run| ==> Next(run[i - 1], run[i])
  }

  // ---------------------------------------------------------------- invariant

  predicate Holding(th: Thread) {
    th.Locked? || th.Queried?
  }

  /** What is true of one thread in any reachable state. */
  predicate ThreadInv(s: State, id: nat, th: Thread) {
    && (Holding(th) ==> s.mutex == Some(id))
    && match th
       case Committed(v) => 0 < v < |s.versions|
       case Returned(v) => 0 < v <= s.returned
       case Waiting(f) => f <= s.returned
       case Locked(f) => f <= s.returned
       case Queried(f, v) => f <= s.returned <= v < |s.versions|
       case Loaded(f, v, rows) => f <= v < |s.versions| && rows == s.versions[v]
       case Failed => true
  }

  predicate WriterOf(th: Thread, v: nat) {
    (th.Committed? || th.Returned?) && th.version == v
  }

  ghost predicate HasWriter(s: State, v: nat) {
    exists id :: id in s.threads && WriterOf(s.threads[id], v)
  }

  ghost predicate Inv(s: State) {
    && |s.versions| > 0 && s.returned < |s.versions|
    && (s.cache.Cached? ==>
          && s.cache.version < |s.versions| && s.cache.rows == s.versions[s.cache.version]
          && s.returned <= s.cache.version)
    && (forall id :: id in s.threads ==> ThreadInv(s, id, s.threads[id]))
    && (forall v :: 0 < v < |s.versions| ==> HasWriter(s, v))
    && (s.mutex.Some? ==> s.mutex.value in s.threads && Holding(s.threads[s.mutex.value]))
  }

  lemma WritersSurvive(s: State, t: State, id: nat)
    requires forall v :: 0 < v < |s.versions| ==> HasWriter(s, v)
    requires forall k :: k in s.threads && k != id ==> k in t.threads && t.threads[k] == s.threads[k]
    requires id in s.threads && (s.threads[id].Committed? || s.threads[id].Returned?) ==>
      id in t.threads && WriterOf(t.threads[id], s.threads[id].version)
    ensures forall v :: 0 < v < |s.versions| ==> HasWriter(t, v)
  {
    forall v | 0 < v < |s.versions|
      ensures HasWriter(t, v)
    {
      assert HasWriter(s, v);
      var k :| k in s.threads && WriterOf(s.threads[k], v);
      assert k in t.threads && WriterOf(t.threads[k], v);
    }
  }

  lemma StepKeepsInv(s: State, t: State, id: nat, a: Action)
    requires Inv(s) && Step(s, t, id, a)
    ensures Inv(t)
  {
    assert forall v :: 0 < v < |t.versions| ==> HasWriter(t, v) by {
      WritersSurvive(s, t, id);
      if a.DoCommit? {
        assert WriterOf(t.threads[id], |s.versions|);
      }
    }
    hide HasWriter;
    forall k | k in t.threads
      ensures ThreadInv(t, k, t.threads[k])
    {
      if k in s.threads {
        assert ThreadInv(s, k, s.threads[k]);
      }
    }
  }

  lemma {:induction false} RunKeepsInv(run: seq<State>, i: nat)
    requires Run(run) && i < |run|
    ensures Inv(run[i])
  {
    if i > 0 {
      RunKeepsInv(run, i - 1);
      assert Next(run[i - 1], run[i]);
      var id, a :| Step(run[i - 1], run[i], id, a);
      StepKeepsInv(run[i - 1], run[i], id, a);
    }
  }

  /**
   * A non-nil cache is stale only while every commit it misses has its writer between
   * commit and invalidate; and what it holds is always some committed version, whole.
   */
  lemma StaleOnlyMidWrite(run: seq<State>, i: nat, v: nat)
    requires Run(run) && i < |run| && run[i].cache.Cached?
    requires run[i].cache.version < v < |run[i].versions|
    ensures exists id :: id in run[i].threads && run[i].threads[id] == Committed(v)
    ensures run[i].cache.version < |run[i].versions| && run[i].cache.rows == run[i].versions[run[i].cache.version]
  {
    RunKeepsInv(run, i);
    assert HasWriter(run[i], v);
    var id :| id in run[i].threads && WriterOf(run[i].threads[id], v);
    assert ThreadInv(run[i], id, run[i].threads[id]);
  }

  // ------------------------------------------------------------ read your writes

  /** If loader id starts from here on, or has started, it knows of version v. */
  predicate Bound(s: State, id: nat, v: nat) {
    && v <= s.returned
    && (id in s.threads ==>
          match s.threads[id]
          case Waiting(f) => v <= f
          case Locked(f) => v <= f
          case Queried(f, _) => v <= f
          case Loaded(f, _, _) => v <= f
          case _ => true)
  }

  lemma StepKeepsBound(s: State, t: State, id: nat, a: Action, loader: nat, v: nat)
    requires Step(s, t, id, a) && Bound(s, loader, v)
    ensures Bound(t, loader, v)
  {
  }

  lemma {:induction false} RunKeepsBound(run: seq<State>, i: nat, k: nat, loader: nat, v: nat)
    requires Run(run) && i <= k < |run| && Bound(run[i], loader, v)
    ensures Bound(run[k], loader, v)
    decreases k - i
  {
    if i < k {
      RunKeepsBound(run, i, k - 1, loader, v);
      assert Next(run[k - 1], run[k]);
      var id, a :| Step(run[k - 1], run[k], id, a);
      StepKeepsBound(run[k - 1], run[k], id, a, loader, v);
    }
  }

  /**
   * In every interleaving: a load that starts after a writer has returned sees a database
   * version that includes that writer's commit, and returns exactly that version's rows.
   */
  lemma LoadSeesReturnedWrites(run: seq<State>, i: nat, k: nat, writer: nat, loader: nat)
    requires Run(run) && i <= k < |run|
    requires writer in run[i].threads && run[i].threads[writer].Returned?
    requires loader !in run[i].threads
    requires loader in run[k].threads && run[k].threads[loader].Loaded?
    ensures var seen := run[k].threads[loader];
      && run[i].threads[writer].version <= seen.version < |run[k].versions|
      && seen.rows == run[k].versions[seen.version]
  {
    RunKeepsInv(run, i);
    RunKeepsInv(run, k);
    assert ThreadInv(run[i], writer, run[i].threads[writer]);
    RunKeepsBound(run, i, k, loader, run[i].threads[writer].version);
    assert ThreadInv(run[k], loader, run[k].threads[loader]);
  }

  /** Versions are never rewritten, so a version number names the same rows for ever. */
  lemma {:induction false} VersionsAreStable(run: seq<State>, i: nat, k: nat)
    requires Run(run) && i <= k < |run|
    ensures run[i].versions <= run[k].versions
    decreases k - i
  {
    if i < k {
      VersionsAreStable(run, i, k - 1);
      assert Next(run[k - 1], run[k]);
    }
  }
}
