/**
 * The live index: file changes queue events, the watcher gathers changed paths and, when its
 * debounce timer fires, hands them to a handler that re-reads and re-indexes each file in
 * several steps, while files go on changing. The timer may fire at any time while armed,
 * which covers every debounce delay.
 */
module Watcher {
  import opened Basics
  import Store

  /** What the store holds for one path, in order. */
  type Rows = seq<Store.Row>

  datatype Op = Create | Write | Remove | Rename | Chmod

  /** An event carries a set of operations. */
  datatype Event = Event(path: string, ops: set<Op>)

  /** Anything but a bare chmod marks its path. */
  predicate Marks(ops: set<Op>) {
    ops * {Create, Write, Remove, Rename} != {}
  }

  /** Where the handler stands with the path it is working on. */
  datatype Task =
    | Idle
    | Statted(path: string)                    // the file existed when looked up
    | Read(path: string, content: string)      // its bytes have been read
    | Deleting(path: string)                   // it did not exist when looked up

  /** swallowed collects paths whose last indexing attempt failed silently. */
  datatype State = State(
    files: map<string, string>,
    index: map<string, Rows>,
    queue: seq<Event>,
    pending: set<string>,
    armed: bool,
    batch: seq<string>,
    task: Task,
    swallowed: set<string>)

  /** Which paths are Python files, are directories, are tracked, and the rows a content deserves. */
  datatype Setup = Setup(
    isPython: string -> bool,
    isDir: string -> bool,
    matches: string -> bool,
    rows: (string, string) -> Rows)

  ghost predicate TracksPython(w: Setup) {
    forall p: string :: w.isPython(p) ==> w.matches(p) && !w.isDir(p)
  }

  function IndexAt(index: map<string, Rows>, p: string): Rows {
    if p in index then index[p] else []
  }

  /** The index agrees with the file system about path p. */
  predicate Fresh(w: Setup, files: map<string, string>, index: map<string, Rows>, p: string) {
    IndexAt(index, p) == if p in files then w.rows(p, files[p]) else []
  }

  // ------------------------------------------------------------ the event loop

  /** One event: new directories, bare chmods and untracked paths are ignored; anything else marks and arms. */
  function AfterEvent(w: Setup, pending: set<string>, armed: bool, ev: Event): (set<string>, bool) {
    if (Create in ev.ops && w.isDir(ev.path)) || !Marks(ev.ops) || !w.matches(ev.path) then (pending, armed)
    else (pending + {ev.path}, true)
  }

  predicate Resting(s: State) {
    s.task.Idle? && s.batch == []
  }

  predicate Receive(w: Setup, s: State, t: State) {
    && Resting(s) && s.queue != []
    && var (pending, armed) := AfterEvent(w, s.pending, s.armed, s.queue[0]);
       t == s.(queue := s.queue[1..], pending := pending, armed := armed)
  }

  /** paths lists a set once each, in any order. */
  predicate Lists(paths: seq<string>, these: set<string>) {
    && (forall i :: 0 <= i < |paths| ==> paths[i] in these)
    && (forall p :: p in these ==> p in paths)
    && |paths| == |these|
  }

  predicate Fire(s: State, t: State, paths: seq<string>) {
    && Resting(s) && s.armed && Lists(paths, s.pending)
    && t == s.(pending := {}, armed := false, batch := paths)
  }

  predicate Handle(w: Setup, s: State, t: State) {
    && s.task.Idle? && s.batch != []
    && var p := s.batch[0];
       t == s.(batch := s.batch[1..],
               task := if !w.isPython(p) then Idle else if p in s.files then Statted(p) else Deleting(p))
  }

  /** Reading can fail because the file has vanished since it was looked up. */
  predicate ReadFile(s: State, t: State) {
    && s.task.Statted?
    && var p := s.task.path;
       t == s.(task := if p in s.files then Read(p, s.files[p]) else Idle)
  }

  predicate CommitTask(w: Setup, s: State, t: State) {
    && (s.task.Read? || s.task.Deleting?)
    && var p := s.task.path;
       t == s.(index := s.index[p := if s.task.Read? then w.rows(p, s.task.content) else []],
               task := Idle, swallowed := s.swallowed - {p})
  }

  /** Any other failure is swallowed: the index keeps what it had. */
  predicate Swallow(s: State, t: State) {
    !s.task.Idle? && t == s.(task := Idle, swallowed := s.swallowed + {s.task.path})
  }

  ghost predicate WatcherStep(w: Setup, s: State, t: State) {
    || Receive(w, s, t) || (exists paths :: Fire(s, t, paths)) || Handle(w, s, t)
    || ReadFile(s, t) || CommitTask(w, s, t) || Swallow(s, t)
  }

  // --------------------------------------------------------- the outside world

  /** Creating, writing, removing or renaming a file changes it and queues an event for it. */
  predicate Change(s: State, t: State, p: string, content: Option<string>, ops: set<Op>) {
    && Marks(ops)
    && t == s.(files := if content.Some? then s.files[p := content.value] else s.files - {p},
               queue := s.queue + [Event(p, ops)])
  }

  /** Events that accompany no change, in any number. */
  predicate Noise(s: State, t: State, ev: Event) {
    t == s.(queue := s.queue + [ev])
  }

  ghost predicate Next(w: Setup, s: State, t: State) {
    || WatcherStep(w, s, t)
    || (exists p, content, ops :: Change(s, t, p, content, ops))
    || (exists ev :: Noise(s, t, ev))
  }

  /** The watcher starts on an index that agrees with the files. */
  ghost predicate Init(w: Setup, s: State) {
    && s.queue == [] && s.pending == {} && !s.armed && s.batch == [] && s.task.Idle? && s.swallowed == {}
    && forall p :: w.isPython(p) ==> Fresh(w, s.files, s.index, p)
  }

  ghost predicate Run(w: Setup, run: seq<State>) {
    && run != [] && Init(w, run[0])
    && forall i :: 0 < i < |run| ==> Next(w, run[i - 1], run[i])
  }

  // ---------------------------------------------------------------- invariant

  predicate Queued(s: State, p: string) {
    exists i :: 0 <= i < |s.queue| && s.queue[i].path == p && Marks(s.queue[i].ops)
  }

  predicate Working(s: State, p: string) {
    !s.task.Idle? && s.task.path == p
  }

  /** Agreed, or somewhere on the way through the watcher, or given up on. */
  predicate Tracked(w: Setup, s: State, p: string) {
    || Fresh(w, s.files, s.index, p) || Queued(s, p) || p in s.pending || p in s.batch
    || Working(s, p) || p in s.swallowed
  }

  /** What the handler believes about its file is true, or a later event says otherwise. */
  predicate TaskCurrent(s: State) {
    match s.task
    case Idle => true
    case Statted(p) => p in s.files || Queued(s, p)
    case Read(p, content) => (p in s.files && s.files[p] == content) || Queued(s, p)
    case Deleting(p) => p !in s.files || Queued(s, p)
  }

  ghost predicate Inv(w: Setup, s: State) {
    && (forall p :: w.isPython(p) ==> Tracked(w, s, p))
    && TaskCurrent(s)
    && (s.pending != {} <==> s.armed)
  }

  lemma QueuedAfterAppend(s: State, t: State, ev: Event, p: string)
    requires t.queue == s.queue + [ev]
    ensures Queued(s, p) ==> Queued(t, p)
    ensures ev.path == p && Marks(ev.ops) ==> Queued(t, p)
  {
    if i :| 0 <= i < |s.queue| && s.queue[i].path == p && Marks(s.queue[i].ops) {
      assert t.queue[i] == s.queue[i];
    }
    assert t.queue[|s.queue|] == ev;
  }

  predicate SameFile(a: map<string, string>, b: map<string, string>, p: string) {
    (p in a <==> p in b) && (p in a && p in b ==> a[p] == b[p])
  }

  lemma AppendKeepsInv(w: Setup, s: State, t: State, ev: Event)
    requires Inv(w, s) && t == s.(files := t.files, queue := s.queue + [ev])
    requires forall p :: (p == ev.path && Marks(ev.ops)) || SameFile(s.files, t.files, p)
    ensures Inv(w, t)
  {
    forall p | w.isPython(p)
      ensures Tracked(w, t, p)
    {
      assert Tracked(w, s, p);
      assert (p == ev.path && Marks(ev.ops)) || SameFile(s.files, t.files, p);
      QueuedAfterAppend(s, t, ev, p);
    }
    if !s.task.Idle? {
      assert (s.task.path == ev.path && Marks(ev.ops)) || SameFile(s.files, t.files, s.task.path);
      QueuedAfterAppend(s, t, ev, s.task.path);
    }
  }

  lemma ReceiveKeepsInv(w: Setup, s: State, t: State)
    requires Inv(w, s) && TracksPython(w) && Receive(w, s, t)
    ensures Inv(w, t)
  {
    forall p | w.isPython(p)
      ensures Tracked(w, t, p)
    {
      assert Tracked(w, s, p);
      if i :| 0 <= i < |s.queue| && s.queue[i].path == p && Marks(s.queue[i].ops) {
        if i > 0 {
          assert t.queue[i - 1] == s.queue[i];
        } else {
          assert w.matches(p) && !w.isDir(p);
        }
      }
    }
    assert t.armed ==> s.armed || t.pending == s.pending + {s.queue[0].path};
  }

  lemma FireKeepsInv(w: Setup, s: State, t: State, paths: seq<string>)
    requires Inv(w, s) && Fire(s, t, paths)
    ensures Inv(w, t)
  {
    forall p | w.isPython(p)
      ensures Tracked(w, t, p)
    {
      assert Tracked(w, s, p);
      assert Queued(s, p) ==> Queued(t, p);
    }
  }

  lemma HandlerKeepsInv(w: Setup, s: State, t: State)
    requires Inv(w, s)
    requires Handle(w, s, t) || ReadFile(s, t) || CommitTask(w, s, t) || Swallow(s, t)
    ensures Inv(w, t)
  {
    forall p | w.isPython(p)
      ensures Tracked(w, t, p)
    {
      assert Tracked(w, s, p);
      assert Queued(s, p) ==> Queued(t, p);
      if p in s.batch && Handle(w, s, t) {
        assert s.batch == [s.batch[0]] + s.batch[1..];
      }
    }
  }

  lemma StepKeepsInv(w: Setup, s: State, t: State)
    requires Inv(w, s) && TracksPython(w) && Next(w, s, t)
    ensures Inv(w, t)
  {
    hide Inv;
    if Receive(w, s, t) {
      ReceiveKeepsInv(w, s, t);
    } else if paths :| Fire(s, t, paths) {
      FireKeepsInv(w, s, t, paths);
    } else if Handle(w, s, t) || ReadFile(s, t) || CommitTask(w, s, t) || Swallow(s, t) {
      HandlerKeepsInv(w, s, t);
    } else if p, content, ops :| Change(s, t, p, content, ops) {
      AppendKeepsInv(w, s, t, Event(p, ops));
    } else {
      var ev :| Noise(s, t, ev);
      AppendKeepsInv(w, s, t, ev);
    }
  }

  lemma {:induction false} RunKeepsInv(w: Setup, run: seq<State>, i: nat)
    requires Run(w, run) && TracksPython(w) && i < |run|
    ensures Inv(w, run[i])
  {
    if i > 0 {
      RunKeepsInv(w, run, i - 1);
      StepKeepsInv(w, run[i - 1], run[i]);
    } else {
      assert forall p :: w.isPython(p) ==> Tracked(w, run[0], p);
    }
  }

  // --------------------------------------------------------------- convergence

  predicate Drained(s: State) {
    s.queue == [] && s.pending == {} && Resting(s)
  }

  /**
   * In every reachable state each Python path agrees with its file, or is queued, pending, in
   * the batch, being worked on, or its last attempt was swallowed; and something is pending
   * exactly when the timer is armed. So a drained watcher leaves index and files equal.
   */
  lemma IndexConverges(w: Setup, run: seq<State>, i: nat, p: string)
    requires Run(w, run) && TracksPython(w) && i < |run| && w.isPython(p)
    ensures Tracked(w, run[i], p)
    ensures run[i].pending != {} <==> run[i].armed
    ensures Drained(run[i]) ==> Fresh(w, run[i].files, run[i].index, p) || p in run[i].swallowed
  {
    RunKeepsInv(w, run, i);
  }

  /** Work the watcher still has in front of it. */
  function Backlog(s: State): nat {
    10 * |s.queue| + 6 * |s.pending| + (if s.armed then 1 else 0) + 4 * |s.batch|
    + match s.task case Idle => 0 case Statted(_) => 3 case Read(_, _) => 2 case Deleting(_) => 2
  }

  /** Every step of the watcher's own consumes backlog: it cannot run for ever on its own. */
  lemma WatcherMakesProgress(w: Setup, s: State, t: State)
    requires WatcherStep(w, s, t)
    ensures Backlog(t) < Backlog(s)
  {
    if Receive(w, s, t) {
      var ev := s.queue[0];
      if ev.path in s.pending {
        assert s.pending + {ev.path} == s.pending;
      } else {
        assert |s.pending + {ev.path}| == |s.pending| + 1;
      }
    } else if paths :| Fire(s, t, paths) {
      assert |t.batch| == |s.pending| && |t.pending| == 0;
    } else {
      assert t.queue == s.queue && t.pending == s.pending && t.armed == s.armed;
    }
  }

  /** And while anything is left to do, some step of its own that gives up on nothing is possible. */
  lemma WatcherNeverStuck(w: Setup, s: State) returns (t: State)
    requires Inv(w, s) && !Drained(s)
    ensures WatcherStep(w, s, t) && t.swallowed <= s.swallowed
  {
    if s.task.Statted? {
      t := s.(task := if s.task.path in s.files then Read(s.task.path, s.files[s.task.path]) else Idle);
      assert ReadFile(s, t);
    } else if !s.task.Idle? {
      var p := s.task.path;
      t := s.(index := s.index[p := if s.task.Read? then w.rows(p, s.task.content) else []],
              task := Idle, swallowed := s.swallowed - {p});
      assert CommitTask(w, s, t);
    } else if s.batch != [] {
      var p := s.batch[0];
      t := s.(batch := s.batch[1..],
              task := if !w.isPython(p) then Idle else if p in s.files then Statted(p) else Deleting(p));
      assert Handle(w, s, t);
    } else if s.queue != [] {
      var (pending, armed) := AfterEvent(w, s.pending, s.armed, s.queue[0]);
      t := s.(queue := s.queue[1..], pending := pending, armed := armed);
      assert Receive(w, s, t);
    } else {
      var paths := Listing(s.pending);
      t := s.(pending := {}, armed := false, batch := paths);
      assert Fire(s, t, paths);
    }
  }

  lemma ListsOneMore(paths: seq<string>, these: set<string>, p: string)
    requires Lists(paths, these) && p !in these
    ensures Lists(paths + [p], these + {p})
  {
    assert (paths + [p])[|paths|] == p;
    assert forall q :: q in paths ==> q in paths + [p];
  }

  lemma {:induction false} Listing(these: set<string>) returns (paths: seq<string>)
    ensures Lists(paths, these)
  {
    if these == {} {
      paths := [];
    } else {
      var p :| p in these;
      var rest := Listing(these - {p});
      ListsOneMore(rest, these - {p}, p);
      assert these - {p} + {p} == these;
      paths := rest + [p];
    }
  }

  /** No step of the watcher's own is possible. */
  ghost predicate AtRest(w: Setup, s: State) {
    forall t :: !WatcherStep(w, s, t)
  }

  /**
   * Once files stop changing, the watcher's own steps number at most its backlog, and where
   * they can go no further it has drained, so every path agrees or was swallowed.
   */
  lemma {:induction false} QuietRunConverges(w: Setup, run: seq<State>)
    requires run != [] && Inv(w, run[0]) && TracksPython(w)
    requires forall i :: 0 < i < |run| ==> WatcherStep(w, run[i - 1], run[i])
    ensures |run| - 1 + Backlog(run[|run| - 1]) <= Backlog(run[0])
    ensures Inv(w, run[|run| - 1])
    ensures AtRest(w, run[|run| - 1]) ==>
      Drained(run[|run| - 1]) &&
      forall p :: w.isPython(p) ==>
        Fresh(w, run[|run| - 1].files, run[|run| - 1].index, p) || p in run[|run| - 1].swallowed
    decreases |run|
  {
    hide WatcherStep, Backlog, TaskCurrent;
    var n := |run| - 1;
    if n > 0 {
      QuietRunConverges(w, run[..n]);
      assert WatcherStep(w, run[n - 1], run[n]);
      assert Next(w, run[n - 1], run[n]);
      StepKeepsInv(w, run[n - 1], run[n]);
      WatcherMakesProgress(w, run[n - 1], run[n]);
    }
    if AtRest(w, run[n]) {
      if !Drained(run[n]) {
        var t := WatcherNeverStuck(w, run[n]);
      }
      forall p | w.isPython(p)
        ensures Fresh(w, run[n].files, run[n].index, p) || p in run[n].swallowed
      {
        assert Tracked(w, run[n], p);
      }
    }
  }

  // --------------------------------------------------------- the loop's own state

  /** The fields the event loop updates in place. */
  class EventLoop {
    const w: Setup
    var pending: set<string>
    var armed: bool

    constructor (w: Setup)
      ensures this.w == w && pending == {} && !armed
    {
      this.w, pending, armed := w, {}, false;
    }

    method OnEvent(ev: Event)
      modifies this
      ensures (pending, armed) == AfterEvent(w, old(pending), old(armed), ev)
      ensures (Create in ev.ops && w.isDir(ev.path)) || ev.ops <= {Chmod} || !w.matches(ev.path) ==>
        pending == old(pending) && armed == old(armed)
      ensures !(Create in ev.ops && w.isDir(ev.path)) && !(ev.ops <= {Chmod}) && w.matches(ev.path) ==>
        pending == old(pending) + {ev.path} && armed
    {
      if ev.ops <= {Chmod} {
        assert ev.ops * {Write, Create, Remove, Rename} == {};
        assert ev.ops * {Create, Write, Remove, Rename} == {};
      } else {
        var op :| op in ev.ops && op != Chmod;
        assert op.Write? || op.Create? || op.Remove? || op.Rename?;
        assert op in ev.ops * {Write, Create, Remove, Rename};
        assert op in ev.ops * {Create, Write, Remove, Rename};
      }
      if Create in ev.ops && w.isDir(ev.path) {
        return;
      }
      if ev.ops * {Write, Create, Remove, Rename} == {} {
        return;
      }
      if !w.matches(ev.path) {
        return;
      }
      pending := pending + {ev.path};
      armed := true;
    }

    /** Takes every pending path once, in no particular order, and disarms. */
    method OnTimer() returns (paths: seq<string>)
      modifies this
      ensures Lists(paths, old(pending)) && pending == {} && !armed
    {
      var left := pending;
      paths := [];
      while left != {}
        invariant left <= pending && Lists(paths, pending - left)
        invariant pending == old(pending)
        decreases left
      {
        var p :| p in left;
        ListsOneMore(paths, pending - left, p);
        assert pending - (left - {p}) == (pending - left) + {p};
        hide Lists;
        paths := paths + [p];
        left := left - {p};
      }
      assert pending - {} == pending;
      pending, armed := {}, false;
    }
  }
}
