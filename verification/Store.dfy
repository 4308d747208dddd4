/**
 * The vector store: rows in insertion order, a cache of decoded rows dropped on every
 * write, and an upsert that re-embeds only what it has not stored. SQLite is the row list
 * with atomic transactions; the hash and the embedder are arbitrary functions.
 */
module Store {
  import opened Basics
  import opened Vectors

  datatype Doc = Doc(path: string, start: nat, end: nat, kind: string, content: string)

  datatype Row = Row(doc: Doc, sha: string, dim: nat, blob: seq<Byte>)

  datatype VecRow = VecRow(doc: Doc, vec: Vec)

  datatype Config = Config(sha: string -> string, embed: Embedder)

  ghost predicate Injective(sha: string -> string) {
    forall a: string, b: string :: sha(a) == sha(b) ==> a == b
  }

  /**
   * The failures outside this model: reading or chunking the file, looking up its stored
   * vectors, and the transaction, which rolls back.
   */
  datatype Faults = Faults(read: Option<string>, lookup: Option<string>, write: Option<string>)

  function RowOf(cfg: Config, e: string -> Vec, d: Doc): Row {
    Row(d, cfg.sha(d.content), |e(d.content)|, Encode(e(d.content)))
  }

  function RowsOf(cfg: Config, e: string -> Vec, docs: seq<Doc>): seq<Row> {
    Map((d: Doc) => RowOf(cfg, e, d), docs)
  }

  /** Every stored row is the row its content deserves, wherever its vector came from. */
  predicate Coherent(cfg: Config, e: string -> Vec, db: seq<Row>) {
    forall i :: 0 <= i < |db| ==> db[i] == RowOf(cfg, e, db[i].doc)
  }

  function RowsAt(db: seq<Row>, path: string): seq<Row> {
    if db == [] then []
    else
      var last := db[|db| - 1];
      RowsAt(db[..|db| - 1], path) + if last.doc.path == path then [last] else []
  }

  function Without(db: seq<Row>, path: string): seq<Row> {
    if db == [] then []
    else
      var last := db[|db| - 1];
      Without(db[..|db| - 1], path) + if last.doc.path == path then [] else [last]
  }

  function Decoded(db: seq<Row>): seq<VecRow> {
    Map((r: Row) => VecRow(r.doc, Decode(r.blob)), db)
  }

  /** Element i is document i with that document's own embedding. */
  predicate LoadsEmbedded(e: string -> Vec, db: seq<Row>, rows: seq<VecRow>) {
    && |rows| == |db|
    && forall i :: 0 <= i < |db| ==> rows[i].doc == db[i].doc && rows[i].vec == e(db[i].doc.content)
  }

  lemma CoherentLoads(cfg: Config, e: string -> Vec, db: seq<Row>)
    requires Coherent(cfg, e, db)
    ensures LoadsEmbedded(e, db, Decoded(db))
  {
    forall i | 0 <= i < |db|
      ensures Decoded(db)[i].vec == e(db[i].doc.content)
    {
      assert db[i] == RowOf(cfg, e, db[i].doc);
      DecodeEncode(e(db[i].doc.content));
    }
  }

  lemma RowsAtOne(r: Row, path: string)
    ensures RowsAt([r], path) == if r.doc.path == path then [r] else []
    ensures RowsAt([], path) == []
  {
    assert [r][..0] == [];
  }

  lemma {:induction false} WithoutKeepsOthers(db: seq<Row>, path: string, other: string)
    ensures RowsAt(Without(db, path), other) == if other == path then [] else RowsAt(db, other)
    decreases |db|
  {
    if db != [] {
      var init, last := db[..|db| - 1], db[|db| - 1];
      WithoutKeepsOthers(init, path, other);
      RowsAtOne(last, other);
      if last.doc.path != path {
        RowsAtConcat(Without(init, path), [last], other);
      } else {
        assert Without(db, path) == Without(init, path);
      }
    }
  }

  lemma {:induction false} WithoutIsSubset(db: seq<Row>, path: string)
    ensures forall i :: 0 <= i < |Without(db, path)| ==> Without(db, path)[i] in db
    decreases |db|
  {
    if db != [] {
      WithoutIsSubset(db[..|db| - 1], path);
    }
  }

  lemma {:induction false} RowsAtConcat(a: seq<Row>, b: seq<Row>, path: string)
    ensures RowsAt(a + b, path) == RowsAt(a, path) + RowsAt(b, path)
    decreases |b|
  {
    if b == [] {
      assert a + b == a;
    } else {
      RowsAtConcat(a, b[..|b| - 1], path);
      assert (a + b)[..|a + b| - 1] == a + b[..|b| - 1];
    }
  }

  lemma {:induction false} RowsAllAt(rows: seq<Row>, path: string, other: string)
    requires forall i :: 0 <= i < |rows| ==> rows[i].doc.path == path
    ensures RowsAt(rows, other) == if other == path then rows else []
    decreases |rows|
  {
    if rows != [] {
      RowsAllAt(rows[..|rows| - 1], path, other);
    }
  }

  /** Replacing one path's rows: that path holds exactly the new ones, every other its own. */
  lemma ReplaceTouchesOnePath(db: seq<Row>, path: string, rows: seq<Row>, other: string)
    requires forall i :: 0 <= i < |rows| ==> rows[i].doc.path == path
    ensures RowsAt(Without(db, path) + rows, other) == if other == path then rows else RowsAt(db, other)
  {
    WithoutKeepsOthers(db, path, other);
    RowsAtConcat(Without(db, path), rows, other);
    RowsAllAt(rows, path, other);
  }

  predicate Stored(cfg: Config, db: seq<Row>, path: string, content: string) {
    exists i :: 0 <= i < |db| && db[i].doc.path == path && db[i].sha == cfg.sha(content)
  }

  /** The contents an upsert has to embed: those with no row of the same hash at this path. */
  function Missing(cfg: Config, db: seq<Row>, path: string, docs: seq<Doc>): seq<string> {
    if docs == [] then []
    else
      var last := docs[|docs| - 1].content;
      Missing(cfg, db, path, docs[..|docs| - 1]) + if Stored(cfg, db, path, last) then [] else [last]
  }

  /** found holds, for each hash stored at the path, the decoded vector of such a row. */
  ghost predicate LooksUp(cfg: Config, db: seq<Row>, path: string, found: map<string, Vec>) {
    && (forall k :: k in found ==>
          exists i :: 0 <= i < |db| && db[i].doc.path == path && db[i].sha == k && found[k] == Decode(db[i].blob))
    && (forall i :: 0 <= i < |db| && db[i].doc.path == path ==> db[i].sha in found)
  }

  /** A hit under the hash of a text is that text's embedding; a miss means it is not stored. */
  lemma LookupIsRight(cfg: Config, e: string -> Vec, db: seq<Row>, path: string, found: map<string, Vec>,
                      content: string)
    requires Coherent(cfg, e, db) && Injective(cfg.sha) && LooksUp(cfg, db, path, found)
    ensures cfg.sha(content) in found <==> Stored(cfg, db, path, content)
    ensures cfg.sha(content) in found ==> found[cfg.sha(content)] == e(content)
  {
    var k := cfg.sha(content);
    if k in found {
      var i :| 0 <= i < |db| && db[i].doc.path == path && db[i].sha == k && found[k] == Decode(db[i].blob);
      assert db[i] == RowOf(cfg, e, db[i].doc);
      DecodeEncode(e(db[i].doc.content));
    }
  }

  lemma ReplacedCoherent(cfg: Config, e: string -> Vec, db: seq<Row>, path: string, docs: seq<Doc>)
    requires Coherent(cfg, e, db)
    ensures Coherent(cfg, e, Without(db, path) + RowsOf(cfg, e, docs))
  {
    var kept, rows := Without(db, path), RowsOf(cfg, e, docs);
    var all: seq<Row> := kept + rows;
    WithoutIsSubset(db, path);
    forall i | 0 <= i < |all|
      ensures all[i] == RowOf(cfg, e, all[i].doc)
    {
      if i < |kept| {
        var j :| 0 <= j < |db| && db[j] == kept[i];
      } else {
        assert rows[i - |kept|] == RowOf(cfg, e, docs[i - |kept|]);
      }
    }
  }

  /** The first n files of a walk include path p. */
  predicate Walked(walk: seq<(string, seq<Doc>)>, n: nat, p: string)
    requires n <= |walk|
  {
    exists i :: 0 <= i < n && walk[i].0 == p
  }

  /** The first n files of a walk are indexed as their chunks deserve; every other path is as before. */
  ghost predicate Built(cfg: Config, e: string -> Vec, walk: seq<(string, seq<Doc>)>, n: nat, before: seq<Row>,
                        after: seq<Row>) {
    && n <= |walk|
    && (forall i :: 0 <= i < n ==> RowsAt(after, walk[i].0) == RowsOf(cfg, e, walk[i].1))
    && (forall p :: !Walked(walk, n, p) ==> RowsAt(after, p) == RowsAt(before, p))
  }

  /** Each path is walked once, with chunks that carry it. */
  predicate ProperWalk(walk: seq<(string, seq<Doc>)>) {
    && (forall i, k :: 0 <= i < |walk| && 0 <= k < |walk[i].1| ==> walk[i].1[k].path == walk[i].0)
    && (forall i, j :: 0 <= i < j < |walk| ==> walk[i].0 != walk[j].0)
  }

  lemma ReplaceTouchesOnlyPath(cfg: Config, e: string -> Vec, db: seq<Row>, path: string, docs: seq<Doc>, p: string)
    requires forall k :: 0 <= k < |docs| ==> docs[k].path == path
    ensures RowsAt(Without(db, path) + RowsOf(cfg, e, docs), p)
         == if p == path then RowsOf(cfg, e, docs) else RowsAt(db, p)
  {
    var rows := RowsOf(cfg, e, docs);
    assert forall k :: 0 <= k < |rows| ==> rows[k].doc == docs[k];
    ReplaceTouchesOnePath(db, path, rows, p);
  }

  lemma BuiltGrows(cfg: Config, e: string -> Vec, walk: seq<(string, seq<Doc>)>, n: nat, before: seq<Row>, db: seq<Row>)
    requires ProperWalk(walk) && n < |walk| && Built(cfg, e, walk, n, before, db)
    ensures Built(cfg, e, walk, n + 1, before, Without(db, walk[n].0) + RowsOf(cfg, e, walk[n].1))
  {
    hide RowsAt, RowsOf, Without;
    var path, docs := walk[n].0, walk[n].1;
    var after := Without(db, path) + RowsOf(cfg, e, docs);
    forall i | 0 <= i < n + 1
      ensures RowsAt(after, walk[i].0) == RowsOf(cfg, e, walk[i].1)
    {
      ReplaceTouchesOnlyPath(cfg, e, db, path, docs, walk[i].0);
    }
    forall p | !Walked(walk, n + 1, p)
      ensures RowsAt(after, p) == RowsAt(before, p)
    {
      assert !Walked(walk, n, p);
      ReplaceTouchesOnlyPath(cfg, e, db, path, docs, p);
    }
  }

  lemma MissingGrows(cfg: Config, db: seq<Row>, path: string, docs: seq<Doc>, i: nat)
    requires i < |docs|
    ensures Missing(cfg, db, path, docs[..i + 1])
         == Missing(cfg, db, path, docs[..i]) + if Stored(cfg, db, path, docs[i].content) then [] else [docs[i].content]
  {
    assert docs[..i + 1][..i] == docs[..i];
  }

  /** The first n chunks have their vector or are queued for embedding. */
  predicate Placed(vecs: seq<Vec>, queued: seq<nat>, docs: seq<Doc>, e: string -> Vec, n: nat) {
    && n <= |docs| == |vecs|
    && forall k :: 0 <= k < n ==> k in queued || vecs[k] == e(docs[k].content)
  }

  lemma PlacedHit(vecs: seq<Vec>, queued: seq<nat>, docs: seq<Doc>, e: string -> Vec, n: nat)
    requires Placed(vecs, queued, docs, e, n) && n < |docs|
    ensures Placed(vecs[n := e(docs[n].content)], queued, docs, e, n + 1)
  {
  }

  lemma PlacedMiss(vecs: seq<Vec>, queued: seq<nat>, docs: seq<Doc>, e: string -> Vec, n: nat)
    requires Placed(vecs, queued, docs, e, n) && n < |docs|
    ensures Placed(vecs, queued + [n], docs, e, n + 1)
  {
    assert forall k :: k in queued ==> k in queued + [n];
    assert (queued + [n])[|queued|] == n;
  }

  /** Every chunk has its own embedding. */
  predicate Embedded(vecs: seq<Vec>, docs: seq<Doc>, e: string -> Vec) {
    |vecs| == |docs| && forall i :: 0 <= i < |docs| ==> vecs[i] == e(docs[i].content)
  }

  lemma NothingQueued(docs: seq<Doc>, toEmbed: seq<string>, toEmbedIdx: seq<nat>, vecs: seq<Vec>, e: string -> Vec)
    requires Queued(docs, toEmbed, toEmbedIdx) && toEmbed == [] && Placed(vecs, toEmbedIdx, docs, e, |docs|)
    ensures Embedded(vecs, docs, e)
  {
  }

  lemma AnsweredPointwise(embed: Embedder, e: string -> Vec, ts: seq<string>)
    requires Pointwise(embed, e) && embed(ts).Ok?
    ensures embed(ts).value == Map(e, ts) && |embed(ts).value| == |ts|
  {
  }

  /** The j-th queued text is the content of the chunk at the j-th queued position. */
  predicate Queued(docs: seq<Doc>, toEmbed: seq<string>, toEmbedIdx: seq<nat>) {
    && |toEmbedIdx| == |toEmbed|
    && forall j :: 0 <= j < |toEmbed| ==> toEmbedIdx[j] < |docs| && docs[toEmbedIdx[j]].content == toEmbed[j]
  }

  lemma QueuedSnoc(docs: seq<Doc>, toEmbed: seq<string>, toEmbedIdx: seq<nat>, i: nat)
    requires Queued(docs, toEmbed, toEmbedIdx) && i < |docs|
    ensures Queued(docs, toEmbed + [docs[i].content], toEmbedIdx + [i])
  {
  }

  class VectorStore {
    const cfg: Config
    var db: seq<Row>
    var cache: seq<VecRow>
    ghost var embedded: seq<string>

    constructor (cfg: Config)
      ensures this.cfg == cfg && db == [] && cache == [] && embedded == []
    {
      this.cfg := cfg;
      db, cache, embedded := [], [], [];
    }

    /** An empty cache is a nil cache; a non-empty one is the decoded database. */
    predicate Valid()
      reads this
    {
      cache == [] || cache == Decoded(db)
    }

    method Invalidate()
      modifies this`cache
      ensures cache == []
    {
      cache := [];
    }

    /** The cache if there is one, otherwise the decoded database, which is then cached. */
    method LoadAll(fault: Option<string>) returns (r: Result<seq<VecRow>, string>)
      requires Valid()
      modifies this`cache
      ensures Valid() && (r.Err? <==> old(cache) == [] && fault.Some?)
      ensures r.Ok? ==> r.value == Decoded(db) == cache
      ensures r.Ok? ==> forall e: string -> Vec :: Coherent(cfg, e, db) ==> LoadsEmbedded(e, db, r.value)
      ensures r.Err? ==> r.error == fault.value && cache == []
    {
      forall e: string -> Vec | Coherent(cfg, e, db)
        ensures LoadsEmbedded(e, db, Decoded(db))
      {
        CoherentLoads(cfg, e, db);
      }
      if cache != [] {
        return Ok(cache);
      }
      if fault.Some? {
        return Err(fault.value);
      }
      var rows: seq<VecRow> := [];
      for i := 0 to |db|
        invariant rows == Decoded(db)[..i]
        invariant cache == old(cache)
      {
        var vec := DecodeVec(db[i].blob);
        rows := rows + [VecRow(db[i].doc, vec[..])];
      }
      cache := rows;
      return Ok(rows);
    }

    /** Drops one path's rows, or fails without touching anything. */
    method DeleteFile(rel: string, fault: Option<string>) returns (error: Option<string>)
      requires Valid()
      modifies this`db, this`cache
      ensures Valid() && error == fault
      ensures error.None? ==> cache == [] && forall p :: RowsAt(db, p) == if p == rel then [] else old(RowsAt(db, p))
      ensures error.None? ==> forall i :: 0 <= i < |db| ==> db[i] in old(db)
      ensures error.Some? ==> db == old(db) && cache == old(cache)
    {
      if fault.Some? {
        return fault;
      }
      forall p
        ensures RowsAt(Without(db, rel), p) == if p == rel then [] else RowsAt(db, p)
      {
        WithoutKeepsOthers(db, rel, p);
      }
      WithoutIsSubset(db, rel);
      db := Without(db, rel);
      Invalidate();
      return None;
    }

    /** Hash to vector for one path; among equal hashes a later row overwrites. */
    method VectorsByPath(rel: string, fault: Option<string>) returns (r: Result<map<string, Vec>, string>)
      ensures r.Err? <==> fault.Some?
      ensures r.Err? ==> r.error == fault.value
      ensures r.Ok? ==> LooksUp(cfg, db, rel, r.value)
    {
      if fault.Some? {
        return Err(fault.value);
      }
      var found: map<string, Vec> := map[];
      for i := 0 to |db|
        invariant forall k :: k in found ==>
          exists j :: 0 <= j < i && db[j].doc.path == rel && db[j].sha == k && found[k] == Decode(db[j].blob)
        invariant forall j :: 0 <= j < i && db[j].doc.path == rel ==> db[j].sha in found
      {
        if db[i].doc.path == rel {
          var vec := DecodeVec(db[i].blob);
          found := found[db[i].sha := vec[..]];
        }
      }
      return Ok(found);
    }

    /** Looks every chunk up by hash; returns the vectors found and what is left to embed. */
    method Reuse(rel: string, docs: seq<Doc>, found: map<string, Vec>, ghost e: string -> Vec)
      returns (vecs: array<Vec>, toEmbed: seq<string>, toEmbedIdx: seq<nat>)
      requires Coherent(cfg, e, db) && Injective(cfg.sha) && LooksUp(cfg, db, rel, found)
      ensures fresh(vecs) && vecs.Length == |docs|
      ensures toEmbed == Missing(cfg, db, rel, docs) && Queued(docs, toEmbed, toEmbedIdx)
      ensures Placed(vecs[..], toEmbedIdx, docs, e, |docs|)
    {
      vecs := new Vec[|docs|](i => []);
      toEmbed, toEmbedIdx := [], [];
      for i := 0 to |docs|
        invariant toEmbed == Missing(cfg, db, rel, docs[..i]) && Queued(docs, toEmbed, toEmbedIdx)
        invariant Placed(vecs[..], toEmbedIdx, docs, e, i)
      {
        hide LooksUp, Coherent, Injective, Stored, Missing, Placed, Queued;
        ghost var before := vecs[..];
        var sha := cfg.sha(docs[i].content);
        MissingGrows(cfg, db, rel, docs, i);
        LookupIsRight(cfg, e, db, rel, found, docs[i].content);
        if sha in found {
          vecs[i] := found[sha];
          assert vecs[..] == before[i := found[sha]];
          PlacedHit(before, toEmbedIdx, docs, e, i);
        } else {
          PlacedMiss(before, toEmbedIdx, docs, e, i);
          QueuedSnoc(docs, toEmbed, toEmbedIdx, i);
          toEmbed := toEmbed + [docs[i].content];
          toEmbedIdx := toEmbedIdx + [i];
        }
      }
      assert docs[..|docs|] == docs;
    }

    /** Puts the j-th fresh vector at the j-th missing chunk. */
    method Fill(vecs: array<Vec>, docs: seq<Doc>, toEmbed: seq<string>, toEmbedIdx: seq<nat>,
                fresh_: seq<Vec>, ghost e: string -> Vec)
      requires Queued(docs, toEmbed, toEmbedIdx) && fresh_ == Map(e, toEmbed)
      requires vecs.Length == |docs| && Placed(vecs[..], toEmbedIdx, docs, e, |docs|)
      modifies vecs
      ensures Embedded(vecs[..], docs, e)
    {
      for j := 0 to |toEmbedIdx|
        invariant forall i :: 0 <= i < |docs| ==> i in toEmbedIdx[j..] || vecs[i] == e(docs[i].content)
      {
        assert toEmbedIdx[j..] == [toEmbedIdx[j]] + toEmbedIdx[j + 1..];
        vecs[toEmbedIdx[j]] := fresh_[j];
      }
    }

    /**
     * Replaces one path's rows in one transaction. Only contents not already stored at this
     * path are embedded; any failure leaves the database and the cache as they were; the
     * cache is dropped after the commit.
     */
    method UpsertFile(rel: string, docs: seq<Doc>, faults: Faults,
                      ghost e: string -> Vec) returns (error: Option<string>)
      requires Valid() && Coherent(cfg, e, db) && Injective(cfg.sha) && Pointwise(cfg.embed, e)
      requires forall i :: 0 <= i < |docs| ==> docs[i].path == rel
      modifies this
      ensures Valid() && Coherent(cfg, e, db)
      ensures error.None? ==> db == Without(old(db), rel) + RowsOf(cfg, e, docs) && cache == []
      ensures error.Some? ==> db == old(db) && cache == old(cache)
      ensures var missing := Missing(cfg, old(db), rel, docs);
        error.None? <==> faults == Faults(None, None, None) && (missing == [] || cfg.embed(missing).Ok?)
      ensures embedded == old(embedded)
        + if faults.read.Some? || faults.lookup.Some? then [] else Missing(cfg, old(db), rel, docs)
    {
      if faults.read.Some? {
        return faults.read;
      }
      var existing := VectorsByPath(rel, faults.lookup);
      if existing.Err? {
        return Some(existing.error);
      }
      var vecs, toEmbed, toEmbedIdx := Reuse(rel, docs, existing.value, e);
      hide Coherent, Injective, Missing, Queued, Placed, LooksUp, Pointwise, Embedded, Without, RowsOf;
      if |toEmbed| > 0 {
        var answer := cfg.embed(toEmbed);
        embedded := embedded + toEmbed;
        if answer.Err? {
          return Some(answer.error);
        }
        AnsweredPointwise(cfg.embed, e, toEmbed);
        if |answer.value| != |toEmbed| {
          assert false;
          return Some("index: embedder returned a different number of vectors");
        }
        Fill(vecs, docs, toEmbed, toEmbedIdx, answer.value, e);
      } else {
        NothingQueued(docs, toEmbed, toEmbedIdx, vecs[..], e);
      }
      if faults.write.Some? {
        return faults.write;
      }
      Commit(rel, docs, vecs[..], e);
      Invalidate();
      return None;
    }

    /** Delete and insert inside one transaction; the cache is dropped separately. */
    method Commit(rel: string, docs: seq<Doc>, vecs: seq<Vec>, ghost e: string -> Vec)
      requires Coherent(cfg, e, db) && Embedded(vecs, docs, e)
      modifies this`db, this`cache
      ensures cache == old(cache) && Coherent(cfg, e, db) && db == Without(old(db), rel) + RowsOf(cfg, e, docs)
    {
      var tx := Without(db, rel);
      ghost var kept := tx;
      for i := 0 to |docs|
        invariant tx == kept + RowsOf(cfg, e, docs)[..i] && db == old(db) && cache == old(cache)
      {
        var blob := EncodeVec(vecs[i]);
        tx := tx + [Row(docs[i], cfg.sha(docs[i].content), |vecs[i]|, blob[..])];
      }
      assert tx == kept + RowsOf(cfg, e, docs);
      ReplacedCoherent(cfg, e, db, rel, docs);
      db := tx;
    }

    /** Indexes every file of a walk in order, stopping at the first failure. */
    method BuildAll(walk: seq<(string, seq<Doc>)>, faults: nat -> Faults, ghost e: string -> Vec)
      returns (n: nat, error: Option<string>)
      requires Valid() && Coherent(cfg, e, db) && Injective(cfg.sha) && Pointwise(cfg.embed, e)
      requires ProperWalk(walk)
      modifies this
      ensures Valid() && Coherent(cfg, e, db) && (error.None? ==> n == |walk|)
      ensures Built(cfg, e, walk, n, old(db), db)
    {
      hide Coherent, Injective, Pointwise, Valid;
      n, error := 0, None;
      while n < |walk|
        invariant Valid() && Coherent(cfg, e, db) && error.None?
        invariant Built(cfg, e, walk, n, old(db), db)
      {
        BuiltGrows(cfg, e, walk, n, old(db), db);
        hide Built;
        error := UpsertFile(walk[n].0, walk[n].1, faults(n), e);
        if error.Some? {
          return;
        }
        n := n + 1;
      }
    }
  }

  /** Re-indexing a file whose chunks are all stored embeds nothing. */
  lemma {:induction false} UnchangedFileEmbedsNothing(cfg: Config, e: string -> Vec, db: seq<Row>, path: string,
                                                      docs: seq<Doc>)
    requires forall i :: 0 <= i < |docs| ==> docs[i].path == path && RowOf(cfg, e, docs[i]) in db
    ensures Missing(cfg, db, path, docs) == []
    decreases |docs|
  {
    if docs != [] {
      var n := |docs| - 1;
      UnchangedFileEmbedsNothing(cfg, e, db, path, docs[..n]);
      var i :| 0 <= i < |db| && db[i] == RowOf(cfg, e, docs[n]);
      assert Stored(cfg, db, path, docs[n].content);
    }
  }
}
