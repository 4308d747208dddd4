/**
 * The store's cache is the protocol's: what each store operation does to the row list and to
 * the cache is a step, or a few steps, of the concurrent protocol, so what the protocol
 * guarantees in every interleaving holds of the store's commits, invalidations and loads.
 */
module LiveCache {
  import opened Basics
  import opened Store
  import opened CacheProtocol

  /** The latest version is the decoded row list; the cache, nil or not, is the store's. */
  predicate Shows(s: State, db: seq<Row>, cache: seq<VecRow>) {
    && |s.versions| > 0 && s.versions[|s.versions| - 1] == Decoded(db)
    && match s.cache
       case Nil => cache == []
       case Cached(rows, _) => rows == cache && rows != []
  }

  predicate Waits(s: State, id: nat) {
    id in s.threads && s.threads[id].Waiting? && s.mutex.None?
  }

  // -------------------------------------------- one store step, any interleaving

  /** A transaction is a commit, whatever other threads are doing; the cache stays. */
  lemma TransactionIsCommit(s: State, db: seq<Row>, cache: seq<VecRow>, after: seq<Row>, id: nat) returns (t: State)
    requires Shows(s, db, cache) && id !in s.threads
    ensures Commit(s, t, id, Decoded(after)) && Shows(t, after, cache)
  {
    t := s.(versions := s.versions + [Decoded(after)], threads := s.threads[id := Committed(|s.versions|)]);
  }

  /** Dropping the cache is the writer's invalidate. */
  lemma DropIsInvalidate(s: State, db: seq<Row>, cache: seq<VecRow>, id: nat) returns (t: State)
    requires Shows(s, db, cache) && id in s.threads && s.threads[id].Committed? && s.mutex.None?
    ensures Invalidate(s, t, id) && Shows(t, db, [])
  {
    t := s.(cache := Nil, threads := s.threads[id := Returned(s.threads[id].version)],
            returned := Max(s.returned, s.threads[id].version));
  }

  /** A load that finds a cache returns it. */
  lemma HitIsLockHit(s: State, db: seq<Row>, cache: seq<VecRow>, id: nat) returns (t: State)
    requires Shows(s, db, cache) && Waits(s, id) && cache != []
    ensures LockHit(s, t, id) && Shows(t, db, cache)
    ensures t.threads[id].Loaded? && t.threads[id].rows == cache
  {
    t := s.(threads := s.threads[id := Loaded(s.threads[id].floor, s.cache.version, s.cache.rows)]);
  }

  /** A load that finds none holds the mutex, reads the latest rows, and caches what it decoded. */
  lemma MissIsQueryThenPublish(s: State, db: seq<Row>, id: nat) returns (locked: State, queried: State, t: State)
    requires Shows(s, db, []) && Waits(s, id)
    ensures LockMiss(s, locked, id) && Query(locked, queried, id) && Publish(queried, t, id)
    ensures Shows(t, db, Decoded(db))
    ensures t.mutex.None? && t.threads[id].Loaded? && t.threads[id].rows == Decoded(db)
  {
    var floor, v := s.threads[id].floor, |s.versions| - 1;
    locked := s.(mutex := Some(id), threads := s.threads[id := Locked(floor)]);
    queried := locked.(threads := locked.threads[id := Queried(floor, v)]);
    var rows := s.versions[v];
    t := queried.(cache := if rows == [] then Nil else Cached(rows, v), mutex := None,
                  threads := queried.threads[id := Loaded(floor, v, rows)]);
  }

  /** A load whose query fails leaves cache and rows alone and releases the mutex. */
  lemma FailedLoadIsAbort(s: State, db: seq<Row>, id: nat) returns (locked: State, t: State)
    requires Shows(s, db, []) && Waits(s, id)
    ensures LockMiss(s, locked, id) && Abort(locked, t, id) && Shows(t, db, []) && t.mutex.None?
  {
    locked := s.(mutex := Some(id), threads := s.threads[id := Locked(s.threads[id].floor)]);
    t := locked.(mutex := None, threads := locked.threads[id := Failed]);
  }

  // ------------------------------------------------- whole operations, in sequence

  /** A committed write of any rows, a load, or a load whose query fails if it needs one. */
  datatype Op = Write(after: seq<Row>) | Load | FailingLoad

  /** What an operation leaves behind: the contracts of UpsertFile, DeleteFile and LoadAll. */
  function DbAfter(db: seq<Row>, op: Op): seq<Row> {
    if op.Write? then op.after else db
  }

  function CacheAfter(db: seq<Row>, cache: seq<VecRow>, op: Op): seq<VecRow> {
    match op
    case Write(_) => []
    case Load => if cache != [] then cache else Decoded(db)
    case FailingLoad => cache
  }

  /** A protocol run whose last state shows the store, with nobody holding the mutex. */
  ghost predicate Mirrors(run: seq<State>, db: seq<Row>, cache: seq<VecRow>, id: nat) {
    && Run(run)
    && var s := run[|run| - 1];
       Shows(s, db, cache) && s.mutex.None? && forall k :: k in s.threads ==> k < id
  }

  lemma Extend(run: seq<State>, t: State, id: nat, a: Action)
    requires Run(run) && Step(run[|run| - 1], t, id, a)
    ensures Run(run + [t])
  {
    var longer := run + [t];
    assert Next(run[|run| - 1], t);
    hide Next, Step;
    forall i | 0 < i < |longer|
      ensures Next(longer[i - 1], longer[i])
    {
      if i < |run| {
        assert Next(run[i - 1], run[i]);
      }
    }
  }

  lemma WriteMirrors(run: seq<State>, db: seq<Row>, cache: seq<VecRow>, id: nat, after: seq<Row>)
    returns (longer: seq<State>)
    requires Mirrors(run, db, cache, id)
    ensures run <= longer && Mirrors(longer, after, [], id + 1)
  {
    var s := run[|run| - 1];
    var t := TransactionIsCommit(s, db, cache, after, id);
    Extend(run, t, id, DoCommit(Decoded(after)));
    var u := DropIsInvalidate(t, after, cache, id);
    hide Run;
    Extend(run + [t], u, id, DoInvalidate);
    longer := run + [t] + [u];
  }

  lemma LoadMirrors(run: seq<State>, db: seq<Row>, cache: seq<VecRow>, id: nat, fails: bool)
    returns (longer: seq<State>)
    requires Mirrors(run, db, cache, id) && (cache == [] || cache == Decoded(db))
    ensures run <= longer
    ensures Mirrors(longer, db, CacheAfter(db, cache, if fails then FailingLoad else Load), id + 1)
    ensures var th := longer[|longer| - 1].threads;
      id in th && (if fails && cache == [] then th[id].Failed? else th[id].Loaded? && th[id].rows == Decoded(db))
  {
    var s := run[|run| - 1];
    var w := s.(threads := s.threads[id := Waiting(s.returned)]);
    assert Step(s, w, id, DoStartLoad);
    Extend(run, w, id, DoStartLoad);
    hide Run;
    var waiting := run + [w];
    if cache != [] {
      var t := HitIsLockHit(w, db, cache, id);
      Extend(waiting, t, id, DoLockHit);
      longer := waiting + [t];
    } else if fails {
      var l, t := FailedLoadIsAbort(w, db, id);
      Extend(waiting, l, id, DoLockMiss);
      Extend(waiting + [l], t, id, DoAbort);
      longer := waiting + [l] + [t];
    } else {
      var l, q, t := MissIsQueryThenPublish(w, db, id);
      Extend(waiting, l, id, DoLockMiss);
      Extend(waiting + [l], q, id, DoQuery);
      Extend(waiting + [l] + [q], t, id, DoPublish);
      longer := waiting + [l] + [q] + [t];
    }
  }

  function DbAfterAll(db: seq<Row>, ops: seq<Op>): seq<Row> {
    if ops == [] then db else DbAfter(DbAfterAll(db, ops[..|ops| - 1]), ops[|ops| - 1])
  }

  function CacheAfterAll(db: seq<Row>, ops: seq<Op>): seq<VecRow> {
    if ops == [] then []
    else
      var init, last := ops[..|ops| - 1], ops[|ops| - 1];
      CacheAfter(DbAfterAll(db, init), CacheAfterAll(db, init), last)
  }

  /**
   * Any sequence of store operations on a fresh cache is a run of the protocol, ending in
   * the store's own rows and cache; so between operations the cache is nil or exactly the
   * decoded rows.
   */
  lemma {:induction false} StoreRefinesProtocol(db: seq<Row>, ops: seq<Op>) returns (run: seq<State>)
    ensures Mirrors(run, DbAfterAll(db, ops), CacheAfterAll(db, ops), |ops|)
    ensures CacheAfterAll(db, ops) == [] || CacheAfterAll(db, ops) == Decoded(DbAfterAll(db, ops))
    decreases |ops|
  {
    if ops == [] {
      run := [State([Decoded(db)], Nil, None, map[], 0)];
    } else {
      var init, last := ops[..|ops| - 1], ops[|ops| - 1];
      run := StoreRefinesProtocol(db, init);
      var before, cache := DbAfterAll(db, init), CacheAfterAll(db, init);
      hide Mirrors;
      if last.Write? {
        run := WriteMirrors(run, before, cache, |init|, last.after);
      } else {
        run := LoadMirrors(run, before, cache, |init|, last.FailingLoad?);
      }
    }
  }
}
