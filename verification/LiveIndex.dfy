/**
 * The watcher's index is the store's: every abstract commit is an upsert or a delete of the
 * row list, so what the watcher guarantees holds of the stored rows and of their vectors.
 */
module LiveIndex {
  import opened Basics
  import opened Vectors
  import opened Store
  import opened Watcher

  /** A store's configuration, the embedding of a text, and the chunks of a file. */
  datatype Corpus = Corpus(
    cfg: Config,
    e: string -> Vec,
    chunks: (string, string) -> seq<Doc>,
    isPython: string -> bool,
    isDir: string -> bool,
    matches: string -> bool)

  /** Every chunk of a file carries that file's path. */
  ghost predicate OwnPaths(c: Corpus) {
    forall p: string, content: string, i :: 0 <= i < |c.chunks(p, content)| ==> c.chunks(p, content)[i].path == p
  }

  function RowsFor(c: Corpus, p: string, content: string): seq<Row> {
    RowsOf(c.cfg, c.e, c.chunks(p, content))
  }

  function SetupOf(c: Corpus): Setup {
    Setup(c.isPython, c.isDir, c.matches, (p: string, content: string) => RowsFor(c, p, content))
  }

  ghost predicate Represents(db: seq<Row>, index: map<string, Rows>) {
    forall p :: RowsAt(db, p) == IndexAt(index, p)
  }

  /** What a step of the system does to the row list: nothing, an upsert, or a delete. */
  function DbAfter(c: Corpus, s: State, t: State, db: seq<Row>): seq<Row> {
    if !CommitTask(SetupOf(c), s, t) then db
    else if s.task.Read? then Without(db, s.task.path) + RowsFor(c, s.task.path, s.task.content)
    else Without(db, s.task.path)
  }

  lemma RowsForOwnPath(c: Corpus, p: string, content: string)
    requires OwnPaths(c)
    ensures forall i :: 0 <= i < |RowsFor(c, p, content)| ==> RowsFor(c, p, content)[i].doc.path == p
  {
    forall i | 0 <= i < |RowsFor(c, p, content)|
      ensures RowsFor(c, p, content)[i].doc.path == p
    {
      assert RowsFor(c, p, content)[i] == RowOf(c.cfg, c.e, c.chunks(p, content)[i]);
    }
  }

  /** An upsert or delete of one path is the watcher's commit of that path. */
  lemma CommitRefines(c: Corpus, s: State, t: State, db: seq<Row>)
    requires OwnPaths(c) && CommitTask(SetupOf(c), s, t) && Represents(db, s.index) && Coherent(c.cfg, c.e, db)
    ensures Represents(DbAfter(c, s, t, db), t.index) && Coherent(c.cfg, c.e, DbAfter(c, s, t, db))
  {
    var path, after := s.task.path, DbAfter(c, s, t, db);
    var docs := if s.task.Read? then c.chunks(path, s.task.content) else [];
    var rows := if s.task.Read? then RowsFor(c, path, s.task.content) else [];
    assert rows == RowsOf(c.cfg, c.e, docs) && after == Without(db, path) + rows;
    if s.task.Read? {
      RowsForOwnPath(c, path, s.task.content);
    }
    ReplacedCoherent(c.cfg, c.e, db, path, docs);
    hide RowsFor, RowsOf, Coherent;
    assert t.index == s.index[path := rows];
    forall p
      ensures RowsAt(after, p) == IndexAt(t.index, p)
    {
      ReplaceTouchesOnePath(db, path, rows, p);
    }
  }

  lemma OnlyCommitsTouchTheIndex(w: Setup, s: State, t: State)
    requires Next(w, s, t) && !CommitTask(w, s, t)
    ensures t.index == s.index
  {
  }

  /** An execution of files, watcher and store together. */
  ghost predicate StoreRun(c: Corpus, run: seq<State>, dbs: seq<seq<Row>>) {
    && Run(SetupOf(c), run) && |dbs| == |run|
    && Represents(dbs[0], run[0].index) && Coherent(c.cfg, c.e, dbs[0])
    && forall i :: 0 < i < |run| ==> dbs[i] == DbAfter(c, run[i - 1], run[i], dbs[i - 1])
  }

  lemma {:induction false} StoreRunRefines(c: Corpus, run: seq<State>, dbs: seq<seq<Row>>, i: nat)
    requires OwnPaths(c) && StoreRun(c, run, dbs) && i < |run|
    ensures Represents(dbs[i], run[i].index) && Coherent(c.cfg, c.e, dbs[i])
    decreases i
  {
    if i > 0 {
      StoreRunRefines(c, run, dbs, i - 1);
      hide Next, Represents, Coherent;
      assert Next(SetupOf(c), run[i - 1], run[i]);
      if CommitTask(SetupOf(c), run[i - 1], run[i]) {
        CommitRefines(c, run[i - 1], run[i], dbs[i - 1]);
      } else {
        OnlyCommitsTouchTheIndex(SetupOf(c), run[i - 1], run[i]);
      }
    }
  }

  /** The row of every chunk is stored with that chunk's own embedding, bit for bit. */
  predicate Embeds(c: Corpus, rows: seq<Row>, docs: seq<Doc>) {
    && |rows| == |docs|
    && forall i :: 0 <= i < |docs| ==> rows[i].doc == docs[i] && Decode(rows[i].blob) == c.e(docs[i].content)
  }

  lemma RowsForEmbeds(c: Corpus, p: string, content: string)
    ensures Embeds(c, RowsFor(c, p, content), c.chunks(p, content))
  {
    var docs, rows := c.chunks(p, content), RowsFor(c, p, content);
    forall i | 0 <= i < |docs|
      ensures rows[i].doc == docs[i] && Decode(rows[i].blob) == c.e(docs[i].content)
    {
      DecodeEncode(c.e(docs[i].content));
    }
  }

  /**
   * Once drained, the database holds for every Python path exactly the chunks of its current
   * file with their own embeddings, reused or not, and nothing for a path without a file;
   * only paths whose last attempt was swallowed are excepted.
   */
  lemma StoreConverges(c: Corpus, run: seq<State>, dbs: seq<seq<Row>>, i: nat, p: string)
    requires OwnPaths(c) && StoreRun(c, run, dbs) && TracksPython(SetupOf(c)) && i < |run|
    requires Drained(run[i]) && c.isPython(p) && p !in run[i].swallowed
    ensures var rows := RowsAt(dbs[i], p);
      if p in run[i].files then Embeds(c, rows, c.chunks(p, run[i].files[p])) else rows == []
  {
    StoreRunRefines(c, run, dbs, i);
    IndexConverges(SetupOf(c), run, i, p);
    if p in run[i].files {
      RowsForEmbeds(c, p, run[i].files[p]);
    }
  }

  /** A walk of every Python file there is, each with the chunks of its content. */
  ghost predicate WalkOf(c: Corpus, files: map<string, string>, walk: seq<(string, seq<Doc>)>) {
    && (forall i :: 0 <= i < |walk| ==>
          walk[i].0 in files && c.isPython(walk[i].0) && walk[i].1 == c.chunks(walk[i].0, files[walk[i].0]))
    && (forall p :: p in files && c.isPython(p) ==> Walked(walk, |walk|, p))
  }

  /** The database holds what the files deserve, for every Python path. */
  ghost predicate Agrees(c: Corpus, files: map<string, string>, db: seq<Row>) {
    forall p :: c.isPython(p) ==> RowsAt(db, p) == if p in files then RowsFor(c, p, files[p]) else []
  }

  /**
   * A completed full build repairs any missed update except a missed removal: afterwards
   * the database agrees with the files if and only if no vanished Python file had rows.
   */
  lemma BuildReconcilesIffNothingVanished(c: Corpus, files: map<string, string>, walk: seq<(string, seq<Doc>)>,
                                          before: seq<Row>, after: seq<Row>)
    requires WalkOf(c, files, walk) && Built(c.cfg, c.e, walk, |walk|, before, after)
    ensures Agrees(c, files, after) <==> forall p :: c.isPython(p) && p !in files ==> RowsAt(before, p) == []
  {
    hide RowsOf;
    forall p | c.isPython(p)
      ensures RowsAt(after, p) == if p in files then RowsFor(c, p, files[p]) else RowsAt(before, p)
    {
      if p in files {
        assert Walked(walk, |walk|, p);
      } else {
        assert !Walked(walk, |walk|, p);
      }
    }
  }

  /** A file is removed, the watcher works through the event, and the delete is swallowed. */
  function RemovalSwallowed(c: Corpus, p: string, content: string): seq<State> {
    var s0 := State(map[p := content], map[p := RowsFor(c, p, content)], [], {}, false, [], Idle, {});
    var s1 := s0.(files := map[], queue := [Event(p, {Remove})]);
    var s2 := s1.(queue := [], pending := {p}, armed := true);
    var s3 := s2.(pending := {}, armed := false, batch := [p]);
    var s4 := s3.(batch := [], task := Deleting(p));
    [s0, s1, s2, s3, s4, s4.(task := Idle, swallowed := {p})]
  }

  lemma RemovalSwallowedRuns(c: Corpus, p: string, content: string)
    requires c.isPython(p) && TracksPython(SetupOf(c))
    ensures Run(SetupOf(c), RemovalSwallowed(c, p, content))
  {
    var w, run := SetupOf(c), RemovalSwallowed(c, p, content);
    hide RowsFor;
    assert map[p := content] - {p} == map[];
    assert Remove in {Remove} * {Create, Write, Remove, Rename};
    assert Change(run[0], run[1], p, None, {Remove});
    assert w.matches(p) && run[1].queue[1..] == [] && {} + {p} == {p};
    assert Receive(w, run[1], run[2]);
    assert Lists([p], {p}) by {
      assert [p][0] == p;
    }
    assert Fire(run[2], run[3], [p]);
    assert Handle(w, run[3], run[4]) by {
      assert [p][1..] == [];
    }
    assert {} + {p} == {p};
    assert Swallow(run[4], run[5]);
  }

  lemma RemovalTouchesNoRow(c: Corpus, p: string, content: string, db: seq<Row>)
    ensures var run := RemovalSwallowed(c, p, content);
      forall i :: 0 < i < |run| ==> DbAfter(c, run[i - 1], run[i], db) == db
  {
    hide RowsFor, Without;
    var run := RemovalSwallowed(c, p, content);
    forall i | 0 < i < |run|
      ensures DbAfter(c, run[i - 1], run[i], db) == db
    {
      assert !CommitTask(SetupOf(c), run[i - 1], run[i]);
    }
  }

  /**
   * A missed removal outlives any full build: the watcher has drained, the build completes,
   * and the vanished file's chunks are still in the database.
   */
  lemma MissedRemovalOutlivesBuild(c: Corpus, p: string, content: string, walk: seq<(string, seq<Doc>)>,
                                   after: seq<Row>)
    requires OwnPaths(c) && c.isPython(p) && TracksPython(SetupOf(c)) && c.chunks(p, content) != []
    ensures var run, db := RemovalSwallowed(c, p, content), RowsFor(c, p, content);
      && StoreRun(c, run, [db, db, db, db, db, db]) && Drained(run[5])
      && (WalkOf(c, run[5].files, walk) && Built(c.cfg, c.e, walk, |walk|, db, after) ==>
            !Agrees(c, run[5].files, after))
  {
    var run, db := RemovalSwallowed(c, p, content), RowsFor(c, p, content);
    RemovalSwallowedRuns(c, p, content);
    RowsForOwnPath(c, p, content);
    forall q
      ensures RowsAt(db, q) == IndexAt(run[0].index, q)
    {
      RowsAllAt(db, p, q);
    }
    assert Coherent(c.cfg, c.e, db);
    RemovalTouchesNoRow(c, p, content, db);
    hide Run, Coherent, RowsAt, RowsFor, DbAfter, Agrees, WalkOf, Built;
    if WalkOf(c, run[5].files, walk) && Built(c.cfg, c.e, walk, |walk|, db, after) {
      BuildReconcilesIffNothingVanished(c, run[5].files, walk, db, after);
      assert RowsAt(db, p) == IndexAt(run[0].index, p) == db != [];
    }
  }
}
