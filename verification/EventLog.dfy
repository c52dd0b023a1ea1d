/** The two event logs: the in-memory reference (engine/eventlog.go), and the transaction protocol of the Postgres log
    (engine/eventlog_pg.go:26-71, engine/schema.sql:28-46), which refines it. */
module EventLogs {
  import opened Model

  /** An event as a log stores it. */
  datatype Record = Record(run: RunId, id: int, seqNo: int, at: Time, body: Body)

  // ---- the reference -----------------------------------------------------

  type Histories = map<RunId, seq<Record>>

  function HistoryOf(h: Histories, r: RunId): seq<Record> {
    if r in h then h[r] else []
  }

  /** The persisted copy of an event: the next number of its run, stamped if it carries no time or no identifier. */
  function Recorded(h: Histories, e: Record, now: Time): Record {
    var n := |HistoryOf(h, e.run)| + 1;
    e.(seqNo := n, at := if e.at == ZERO_TIME then now else e.at, id := if e.id == 0 then n else e.id)
  }

  function Appended(h: Histories, e: Record, now: Time): Histories {
    h[e.run := HistoryOf(h, e.run) + [Recorded(h, e, now)]]
  }

  /** Every known run has events, numbered 1, 2, ..., without gaps. */
  predicate Numbered(h: Histories) {
    forall r :: r in h ==> h[r] != [] && forall k :: 0 <= k < |h[r]| ==> h[r][k].seqNo == k + 1 && h[r][k].run == r
  }

  lemma AppendedNumbered(h: Histories, e: Record, now: Time)
    requires Numbered(h)
    ensures Numbered(Appended(h, e, now)) && Appended(h, e, now).Keys == h.Keys + {e.run}
    ensures forall r :: HistoryOf(h, r) <= HistoryOf(Appended(h, e, now), r)
  {
  }

  class InMemoryEventLog {
    var seqs: map<RunId, int>
    var events: Histories
    var runs: set<RunId>

    ghost predicate Valid()
      reads this
    {
      && Numbered(events) && runs == events.Keys && seqs.Keys == events.Keys
      && forall r :: r in events ==> seqs[r] == |events[r]|
    }

    constructor ()
      ensures Valid() && events == map[]
    {
      seqs, events, runs := map[], map[], {};
    }

    /** `Append`: `now` is the wall clock. */
    method Append(e: Record, now: Time) returns (stored: Record)
      requires Valid()
      modifies this
      ensures Valid() && stored == Recorded(old(events), e, now) && events == Appended(old(events), e, now)
    {
      hide Numbered;
      AppendedNumbered(events, e, now);
      var last := if e.run in seqs then seqs[e.run] else 0;
      stored := e.(seqNo := last + 1);
      seqs := seqs[e.run := last + 1];
      if stored.at == ZERO_TIME { stored := stored.(at := now); }
      if stored.id == 0 { stored := stored.(id := stored.seqNo); }
      events := events[e.run := (if e.run in events then events[e.run] else []) + [stored]];
      runs := runs + {e.run};
    }

    method History(r: RunId) returns (out: seq<Record>)
      requires Valid()
      ensures out == HistoryOf(events, r)
    {
      out := if r in events then events[r] else [];
    }

    /** `Runs`: the known runs, in any order, each once. */
    method Runs() returns (out: seq<RunId>)
      requires Valid()
      ensures forall r :: r in out <==> HistoryOf(events, r) != []
      ensures forall j, k :: 0 <= j < k < |out| ==> out[j] != out[k]
    {
      out := [];
      var todo := runs;
      while todo != {}
        invariant todo <= runs
        invariant forall r :: r in out <==> r in runs && r !in todo
        invariant forall j, k :: 0 <= j < k < |out| ==> out[j] != out[k]
        decreases todo
      {
        var r :| r in todo;
        out, todo := out + [r], todo - {r};
      }
    }
  }

  // ---- the transactions --------------------------------------------------

  /** An Append in progress. From its reservation on it holds the lock of the run's counter row. */
  datatype Tx = Open(e: Record) | Reserved(e: Record, n: int) | Inserted(e: Record, n: int)

  /** The committed rows of both tables, and the transactions under way. */
  datatype Db = Db(eventSeq: map<RunId, int>, rows: map<(RunId, int), Record>, txs: map<nat, Tx>)

  const EMPTY_DB := Db(map[], map[], map[])

  datatype PgStep = Begin(t: nat, e: Record) | Reserve(t: nat) | Insert(t: nat) | Commit(t: nat) | Rollback(t: nat)

  predicate Locks(tx: Tx, r: RunId) {
    !tx.Open? && tx.e.run == r
  }

  predicate Unlocked(db: Db, r: RunId) {
    forall t :: t in db.txs ==> !Locks(db.txs[t], r)
  }

  /** The next number of a run: its counter, or 1. */
  function NextSeq(db: Db, r: RunId): int {
    if r in db.eventSeq then db.eventSeq[r] else 1
  }

  /** The row an insertion writes; there is no column for the identifier. */
  function RowOf(e: Record, n: int): Record {
    e.(id := 0, seqNo := n)
  }

  /** One step of one transaction; a step that has to wait or makes no sense changes nothing, a clash of the primary
      key rolls the transaction back. */
  function PgDo(db: Db, s: PgStep): Db {
    if s.Begin? then (if s.t in db.txs then db else db.(txs := db.txs[s.t := Open(s.e)]))
    else if s.t !in db.txs then db
    else
      var tx := db.txs[s.t];
      match s
      case Reserve(t) =>
        if tx.Open? && Unlocked(db, tx.e.run) then db.(txs := db.txs[t := Reserved(tx.e, NextSeq(db, tx.e.run))])
        else db
      case Insert(t) =>
        if !tx.Reserved? then db
        else if (tx.e.run, tx.n) in db.rows then db.(txs := db.txs - {t})
        else db.(txs := db.txs[t := Inserted(tx.e, tx.n)])
      case Commit(t) =>
        if tx.Inserted?
        then Db(db.eventSeq[tx.e.run := tx.n + 1], db.rows[(tx.e.run, tx.n) := RowOf(tx.e, tx.n)], db.txs - {t})
        else db
      case Rollback(t) => db.(txs := db.txs - {t})
  }

  function PgAll(db: Db, steps: seq<PgStep>): Db
    decreases |steps|
  {
    if steps == [] then db else PgDo(PgAll(db, steps[..|steps| - 1]), steps[|steps| - 1])
  }

  // ---- what every interleaving keeps -------------------------------------

  /** The rows of a run are numbered 1 to its counter less one; whoever holds a lock holds it alone, with the number
      that comes next. */
  ghost predicate DbOk(db: Db) {
    && (forall r :: r in db.eventSeq ==> db.eventSeq[r] >= 2)
    && (forall r, n :: (r, n) in db.rows <==> 1 <= n < NextSeq(db, r))
    && (forall r, n :: (r, n) in db.rows ==> db.rows[(r, n)].seqNo == n && db.rows[(r, n)].run == r)
    && (forall t :: t in db.txs && !db.txs[t].Open? ==> db.txs[t].n == NextSeq(db, db.txs[t].e.run))
    && (forall t, u :: t in db.txs && u in db.txs && t != u && !db.txs[t].Open? ==> !Locks(db.txs[u], db.txs[t].e.run))
  }

  lemma DoKeeps(db: Db, s: PgStep)
    requires DbOk(db)
    ensures DbOk(PgDo(db, s))
  {
    if s.Commit? && s.t in db.txs && db.txs[s.t].Inserted? {
      var tx, db' := db.txs[s.t], PgDo(db, s);
      forall r, n ensures (r, n) in db'.rows <==> 1 <= n < NextSeq(db', r) {
        assert (r, n) in db.rows <==> 1 <= n < NextSeq(db, r);
      }
    }
  }

  lemma {:induction false} AlwaysOk(steps: seq<PgStep>)
    ensures DbOk(PgAll(EMPTY_DB, steps))
    decreases |steps|
  {
    if steps != [] {
      AlwaysOk(steps[..|steps| - 1]);
      DoKeeps(PgAll(EMPTY_DB, steps[..|steps| - 1]), steps[|steps| - 1]);
    }
  }

  /** What `History` reads, `SELECT ... WHERE run_id = r ORDER BY seq`: all committed rows of the run, ascending. */
  ghost predicate Selects(db: Db, r: RunId, h: seq<Record>) {
    && (forall k :: 0 <= k < |h| ==> (r, h[k].seqNo) in db.rows && db.rows[(r, h[k].seqNo)] == h[k])
    && (forall j, k :: 0 <= j < k < |h| ==> h[j].seqNo < h[k].seqNo)
    && (forall n :: (r, n) in db.rows ==> exists k :: 0 <= k < |h| && h[k].seqNo == n)
  }

  ghost function PgHistory(db: Db, r: RunId): (h: seq<Record>)
    requires DbOk(db)
    ensures |h| == NextSeq(db, r) - 1 && forall k :: 0 <= k < |h| ==> h[k] == db.rows[(r, k + 1)]
  {
    seq(NextSeq(db, r) - 1, k requires 0 <= k < NextSeq(db, r) - 1 => db.rows[(r, k + 1)])
  }

  lemma {:induction false} AscendingFrom(h: seq<Record>, k: nat)
    requires k < |h| && h[0].seqNo >= 1 && forall i, j :: 0 <= i < j < |h| ==> h[i].seqNo < h[j].seqNo
    ensures h[k].seqNo >= k + 1
    decreases k
  {
    if k > 0 { AscendingFrom(h, k - 1); }
  }

  lemma {:induction false} AscendingFull(db: Db, r: RunId, h: seq<Record>, k: nat)
    requires DbOk(db) && Selects(db, r, h) && k < |h|
    ensures h[k].seqNo == k + 1
    decreases k
  {
    AscendingFrom(h, k);
    if h[k].seqNo > k + 1 {
      assert (r, h[k].seqNo) in db.rows && (r, k + 1) in db.rows;
      var i :| 0 <= i < |h| && h[i].seqNo == k + 1;
      if i < k { AscendingFull(db, r, h, i); }
      assert false;
    }
  }

  /** In every interleaving the committed history of a run is unique, and numbered 1, 2, ..., next_seq - 1. */
  lemma HistoryNumbered(steps: seq<PgStep>, r: RunId, h: seq<Record>)
    requires Selects(PgAll(EMPTY_DB, steps), r, h)
    ensures DbOk(PgAll(EMPTY_DB, steps)) && h == PgHistory(PgAll(EMPTY_DB, steps), r)
    ensures |h| + 1 == NextSeq(PgAll(EMPTY_DB, steps), r) && forall k :: 0 <= k < |h| ==> h[k].seqNo == k + 1
  {
    var db := PgAll(EMPTY_DB, steps);
    AlwaysOk(steps);
    forall k | 0 <= k < |h| ensures h[k].seqNo == k + 1 { AscendingFull(db, r, h, k); }
    if NextSeq(db, r) > 1 { NotShort(db, r, h, NextSeq(db, r) - 1); }
    if h != [] { NotLong(db, r, h); }
  }

  lemma NotShort(db: Db, r: RunId, h: seq<Record>, n: int)
    requires Selects(db, r, h) && (r, n) in db.rows && forall k :: 0 <= k < |h| ==> h[k].seqNo == k + 1
    ensures n <= |h|
  {
    var k :| 0 <= k < |h| && h[k].seqNo == n;
  }

  lemma NotLong(db: Db, r: RunId, h: seq<Record>)
    requires DbOk(db) && Selects(db, r, h) && h != [] && forall k :: 0 <= k < |h| ==> h[k].seqNo == k + 1
    ensures |h| < NextSeq(db, r)
  {
    assert (r, h[|h| - 1].seqNo) in db.rows;
  }

  lemma StepGrows(db: Db, s: PgStep, r: RunId)
    requires DbOk(db)
    ensures DbOk(PgDo(db, s)) && PgHistory(db, r) <= PgHistory(PgDo(db, s), r)
  {
    DoKeeps(db, s);
  }

  /** A committed view is a prefix of every later one. */
  lemma {:induction false} ViewsGrow(a: seq<PgStep>, b: seq<PgStep>, r: RunId)
    ensures DbOk(PgAll(EMPTY_DB, a)) && DbOk(PgAll(EMPTY_DB, a + b))
    ensures PgHistory(PgAll(EMPTY_DB, a), r) <= PgHistory(PgAll(EMPTY_DB, a + b), r)
    decreases |b|
  {
    hide PgDo, DbOk;
    AlwaysOk(a);
    AlwaysOk(a + b);
    if b == [] {
      assert a + b == a;
    } else {
      ViewsGrow(a, b[..|b| - 1], r);
      assert (a + b)[..|a + b| - 1] == a + b[..|b| - 1];
      StepGrows(PgAll(EMPTY_DB, a + b[..|b| - 1]), b[|b| - 1], r);
    }
  }

  /** A rollback ends its transaction and its lock, and changes nothing else. */
  lemma RollbackReleases(db: Db, u: nat, r: RunId)
    requires DbOk(db) && (Unlocked(db, r) || (u in db.txs && Locks(db.txs[u], r)))
    ensures PgDo(db, Rollback(u)) == db.(txs := db.txs - {u}) && Unlocked(PgDo(db, Rollback(u)), r)
  {
  }

  /** A transaction that finds its run unlocked appends the next row. */
  lemma UnlockedAppends(db: Db, t: nat, e: Record)
    requires DbOk(db) && t !in db.txs && Unlocked(db, e.run)
    ensures PgDo(PgDo(PgDo(PgDo(db, Begin(t, e)), Reserve(t)), Insert(t)), Commit(t)) ==
              var n := NextSeq(db, e.run);
              Db(db.eventSeq[e.run := n + 1], db.rows[(e.run, n) := RowOf(e, n)], db.txs)
  {
    var n := NextSeq(db, e.run);
    assert PgDo(PgDo(db, Begin(t, e)), Reserve(t)) == db.(txs := db.txs[t := Reserved(e, n)]);
    assert (e.run, n) !in db.rows;
    assert db.txs[t := Reserved(e, n)][t := Inserted(e, n)] - {t} == db.txs;
  }

  lemma RowAdded(db: Db, r: RunId, row: Record)
    requires DbOk(db)
    ensures var n := NextSeq(db, r);
            var db' := Db(db.eventSeq[r := n + 1], db.rows[(r, n) := row], db.txs);
            DbOk(db') ==> PgHistory(db', r) == PgHistory(db, r) + [row]
  {
  }

  /** A lock is never lost: when the holder of a run's lock rolls back, the next transaction of the run can append. */
  lemma LockIsReleased(db: Db, u: nat, t: nat, e: Record)
    requires DbOk(db) && t !in db.txs && (Unlocked(db, e.run) || (u in db.txs && Locks(db.txs[u], e.run)))
    ensures var db' := PgDo(PgDo(PgDo(PgDo(PgDo(db, Rollback(u)), Begin(t, e)), Reserve(t)), Insert(t)), Commit(t));
            DbOk(db') && PgHistory(db', e.run) == PgHistory(db, e.run) + [RowOf(e, NextSeq(db, e.run))]
  {
    hide PgDo, DbOk, Unlocked, Locks, PgHistory;
    var db1 := PgDo(db, Rollback(u));
    RollbackReleases(db, u, e.run);
    DoKeeps(db, Rollback(u));
    DoKeeps(db1, Begin(t, e));
    DoKeeps(PgDo(db1, Begin(t, e)), Reserve(t));
    DoKeeps(PgDo(PgDo(db1, Begin(t, e)), Reserve(t)), Insert(t));
    DoKeeps(PgDo(PgDo(PgDo(db1, Begin(t, e)), Reserve(t)), Insert(t)), Commit(t));
    UnlockedAppends(db1, t, e);
    RowAdded(db1, e.run, RowOf(e, NextSeq(db, e.run)));
  }

  // ---- refinement --------------------------------------------------------

  /** A history as it reads without identifiers. */
  function NoIds(h: seq<Record>): seq<Record> {
    seq(|h|, k requires 0 <= k < |h| => h[k].(id := 0))
  }

  /** The database shows what the in-memory log holds, up to the identifiers. */
  ghost predicate Shows(db: Db, m: Histories) {
    DbOk(db) && forall r :: PgHistory(db, r) == NoIds(HistoryOf(m, r))
  }

  /** The events that were committed, in commit order. */
  function Commits(steps: seq<PgStep>): seq<Record>
    decreases |steps|
  {
    if steps == [] then []
    else
      var init, s := steps[..|steps| - 1], steps[|steps| - 1];
      var db := PgAll(EMPTY_DB, init);
      Commits(init) + if s.Commit? && s.t in db.txs && db.txs[s.t].Inserted? then [db.txs[s.t].e] else []
  }

  /** The reference log after Appends at the wall clock's times. */
  function AppendAll(es: seq<Record>, clock: nat -> Time): Histories
    decreases |es|
  {
    if es == [] then map[]
    else Appended(AppendAll(es[..|es| - 1], clock), es[|es| - 1], clock(|es| - 1))
  }

  /** An in-memory event always has a time: that of the row, unless the row has none. */
  predicate SameButStamp(row: Record, e: Record) {
    row == e.(id := 0, at := row.at) && e.at != ZERO_TIME && (row.at == e.at || row.at == ZERO_TIME)
  }

  predicate Alike(rows: seq<Record>, h: seq<Record>) {
    |rows| == |h| && forall k :: 0 <= k < |h| ==> SameButStamp(rows[k], h[k])
  }

  /** The database shows the in-memory log up to the identifiers, and up to the times of events without one. */
  ghost predicate Reflects(db: Db, m: Histories) {
    DbOk(db) && forall r :: Alike(PgHistory(db, r), HistoryOf(m, r))
  }

  predicate IsCommit(db: Db, s: PgStep) {
    s.Commit? && s.t in db.txs && db.txs[s.t].Inserted?
  }

  /** A commit adds the next row to the history of its run; every other step leaves the histories as they are. */
  lemma CommitExtends(db: Db, s: PgStep, r: RunId)
    requires DbOk(db)
    ensures DbOk(PgDo(db, s))
    ensures PgHistory(PgDo(db, s), r) == PgHistory(db, r) +
              if IsCommit(db, s) && db.txs[s.t].e.run == r then [RowOf(db.txs[s.t].e, |PgHistory(db, r)| + 1)] else []
  {
    DoKeeps(db, s);
  }

  lemma AppendAlike(rows: seq<Record>, m: Histories, e: Record, now: Time)
    requires Alike(rows, HistoryOf(m, e.run)) && now != ZERO_TIME
    ensures Alike(rows + [RowOf(e, |rows| + 1)], HistoryOf(Appended(m, e, now), e.run))
  {
    assert SameButStamp(RowOf(e, |rows| + 1), Recorded(m, e, now));
  }

  /** A commit is one Append of the reference log; every other step leaves the view as it is. */
  lemma CommitIsAppend(db: Db, m: Histories, s: PgStep, now: Time)
    requires Reflects(db, m) && now != ZERO_TIME
    ensures Reflects(PgDo(db, s), if IsCommit(db, s) then Appended(m, db.txs[s.t].e, now) else m)
  {
    DoKeeps(db, s);
    var m' := if IsCommit(db, s) then Appended(m, db.txs[s.t].e, now) else m;
    forall r ensures Alike(PgHistory(PgDo(db, s), r), HistoryOf(m', r)) {
      hide PgDo, DbOk, Alike, RowOf, Recorded;
      CommitExtends(db, s, r);
      assert Alike(PgHistory(db, r), HistoryOf(m, r));
      if IsCommit(db, s) && db.txs[s.t].e.run == r {
        AppendAlike(PgHistory(db, r), m, db.txs[s.t].e, now);
      } else {
        assert PgHistory(db, r) + [] == PgHistory(db, r);
      }
    }
  }

  /** For every interleaving of Append transactions the committed rows are those of the in-memory log after the same
      Appends in commit order, up to the identifiers and the times of events without one. */
  lemma {:induction false} Mirrors(steps: seq<PgStep>, clock: nat -> Time)
    requires forall n :: clock(n) != ZERO_TIME
    ensures Reflects(PgAll(EMPTY_DB, steps), AppendAll(Commits(steps), clock))
    decreases |steps|
  {
    hide PgDo, DbOk;
    if steps == [] {
      AlwaysOk([]);
    } else {
      var init, s := steps[..|steps| - 1], steps[|steps| - 1];
      var db, es := PgAll(EMPTY_DB, init), Commits(init);
      Mirrors(init, clock);
      CommitIsAppend(db, AppendAll(es, clock), s, clock(|es|));
      if IsCommit(db, s) {
        assert Commits(steps)[..|Commits(steps)| - 1] == es;
      } else {
        assert Commits(steps) == es;
      }
    }
  }

  ghost predicate RowsTimed(db: Db) {
    forall r, n :: (r, n) in db.rows ==> db.rows[(r, n)].at != ZERO_TIME
  }

  lemma CommitTimes(db: Db, s: PgStep)
    requires DbOk(db)
    ensures RowsTimed(PgDo(db, s)) <==> RowsTimed(db) && (IsCommit(db, s) ==> db.txs[s.t].e.at != ZERO_TIME)
  {
    if IsCommit(db, s) {
      var tx, db' := db.txs[s.t], PgDo(db, s);
      assert (tx.e.run, tx.n) !in db.rows && db'.rows[(tx.e.run, tx.n)].at == tx.e.at;
      forall r, n | (r, n) in db.rows ensures (r, n) in db'.rows && db'.rows[(r, n)] == db.rows[(r, n)] { }
    }
  }

  lemma {:induction false} RowsAreCommits(steps: seq<PgStep>)
    ensures RowsTimed(PgAll(EMPTY_DB, steps)) <==> forall e :: e in Commits(steps) ==> e.at != ZERO_TIME
    decreases |steps|
  {
    hide PgDo, RowsTimed, DbOk;
    if steps == [] {
      NoRowsTimed();
    } else {
      var init := steps[..|steps| - 1];
      AlwaysOk(init);
      RowsAreCommits(init);
      CommitTimes(PgAll(EMPTY_DB, init), steps[|steps| - 1]);
    }
  }

  lemma NoRowsTimed()
    ensures RowsTimed(EMPTY_DB)
  {
  }

  lemma ShowsIff(db: Db, m: Histories)
    requires Reflects(db, m)
    ensures Shows(db, m) <==> RowsTimed(db)
  {
    if Shows(db, m) {
      forall r, n | (r, n) in db.rows ensures db.rows[(r, n)].at != ZERO_TIME {
        var h, g := PgHistory(db, r), HistoryOf(m, r);
        assert h[n - 1] == db.rows[(r, n)] && h[n - 1] == NoIds(g)[n - 1] && SameButStamp(h[n - 1], g[n - 1]);
      }
    }
    if RowsTimed(db) {
      forall r ensures PgHistory(db, r) == NoIds(HistoryOf(m, r)) {
        var h, g := PgHistory(db, r), HistoryOf(m, r);
        forall k | 0 <= k < |h| ensures h[k] == NoIds(g)[k] {
          assert (r, k + 1) in db.rows && SameButStamp(h[k], g[k]);
        }
      }
    }
  }

  /** For every interleaving the Postgres log mirrors the in-memory log exactly when every committed event carried a
      time: one without is stored with the zero time by Postgres and with the wall clock in memory. */
  lemma RefinesIff(steps: seq<PgStep>, clock: nat -> Time)
    requires forall n :: clock(n) != ZERO_TIME
    ensures Shows(PgAll(EMPTY_DB, steps), AppendAll(Commits(steps), clock))
            <==> forall e :: e in Commits(steps) ==> e.at != ZERO_TIME
  {
    hide Shows, Reflects, RowsTimed;
    Mirrors(steps, clock);
    RowsAreCommits(steps);
    ShowsIff(PgAll(EMPTY_DB, steps), AppendAll(Commits(steps), clock));
  }

  /** Only stamped events are appended, as the engine does. */
  predicate Stamped(steps: seq<PgStep>) {
    forall s :: s in steps && s.Begin? ==> s.e.at != ZERO_TIME
  }

  lemma {:induction false} TxsStamped(steps: seq<PgStep>)
    requires Stamped(steps)
    ensures forall t :: t in PgAll(EMPTY_DB, steps).txs ==> PgAll(EMPTY_DB, steps).txs[t].e.at != ZERO_TIME
    ensures forall e :: e in Commits(steps) ==> e.at != ZERO_TIME
    decreases |steps|
  {
    if steps != [] {
      var s := steps[|steps| - 1];
      assert s in steps;
      TxsStamped(steps[..|steps| - 1]);
    }
  }

  /** So it does whatever the engine appends: the committed rows are those of the in-memory log after the same Appends
      in commit order, up to the identifiers. */
  lemma Refines(steps: seq<PgStep>, clock: nat -> Time)
    requires Stamped(steps) && forall n :: clock(n) != ZERO_TIME
    ensures Shows(PgAll(EMPTY_DB, steps), AppendAll(Commits(steps), clock))
  {
    TxsStamped(steps);
    RefinesIff(steps, clock);
  }

  /** One lone Append of an event without a time is a difference. */
  lemma ZeroTimeDiffers(r: RunId, b: Body, clock: nat -> Time)
    requires forall n :: clock(n) != ZERO_TIME
    ensures var e := Record(r, 0, 0, ZERO_TIME, b);
            var steps := [Begin(0, e), Reserve(0), Insert(0), Commit(0)];
            !Shows(PgAll(EMPTY_DB, steps), AppendAll(Commits(steps), clock))
  {
    var e := Record(r, 0, 0, ZERO_TIME, b);
    AloneCommits(e);
    assert e in [e];
    RefinesIff([Begin(0, e), Reserve(0), Insert(0), Commit(0)], clock);
  }

  lemma AloneCommits(e: Record)
    ensures var steps := [Begin(0, e), Reserve(0), Insert(0), Commit(0)];
            && PgAll(EMPTY_DB, steps) == Db(map[e.run := 2], map[(e.run, 1) := RowOf(e, 1)], map[])
            && Commits(steps) == [e]
  {
    var a, b := [Begin(0, e)], [Begin(0, e), Reserve(0)];
    var c, d := [Begin(0, e), Reserve(0), Insert(0)], [Begin(0, e), Reserve(0), Insert(0), Commit(0)];
    assert d[..3] == c && c[..2] == b && b[..1] == a && a[..0] == [];
    assert PgAll(EMPTY_DB, a) == Db(map[], map[], map[0 := Open(e)]);
    assert PgAll(EMPTY_DB, b) == Db(map[], map[], map[0 := Reserved(e, 1)]);
    assert PgAll(EMPTY_DB, c) == Db(map[], map[], map[0 := Inserted(e, 1)]);
    assert Commits(a) == Commits([]) + [];
    assert Commits(b) == Commits(a) + [];
    assert Commits(c) == Commits(b) + [];
  }

  /** The four steps of a transaction that runs alone. */
  lemma AloneAppends(db: Db, e: Record)
    requires db.txs == map[]
    ensures PgDo(PgDo(PgDo(PgDo(db, Begin(0, e)), Reserve(0)), Insert(0)), Commit(0)) ==
              var n := NextSeq(db, e.run);
              if (e.run, n) in db.rows then db
              else Db(db.eventSeq[e.run := n + 1], db.rows[(e.run, n) := RowOf(e, n)], map[])
  {
    var n := NextSeq(db, e.run);
    assert PgDo(PgDo(db, Begin(0, e)), Reserve(0)) == db.(txs := map[0 := Reserved(e, n)]);
    assert map[0 := Reserved(e, n)] - {0} == map[] && map[0 := Inserted(e, n)] - {0} == map[];
  }

  lemma AloneKeeps(db: Db, e: Record)
    requires db.txs == map[]
    ensures DbOk(db) ==> DbOk(PgDo(PgDo(PgDo(PgDo(db, Begin(0, e)), Reserve(0)), Insert(0)), Commit(0)))
    ensures DbOk(db) ==> (e.run, NextSeq(db, e.run)) !in db.rows
  {
    if DbOk(db) {
      DoKeeps(db, Begin(0, e));
      DoKeeps(PgDo(db, Begin(0, e)), Reserve(0));
      DoKeeps(PgDo(PgDo(db, Begin(0, e)), Reserve(0)), Insert(0));
      DoKeeps(PgDo(PgDo(PgDo(db, Begin(0, e)), Reserve(0)), Insert(0)), Commit(0));
    }
  }

  // ---- one transaction, as the method runs it ----------------------------

  class PostgresEventLog {
    var eventSeq: map<RunId, int>
    var rows: map<(RunId, int), Record>

    function Tables(): Db
      reads this
    {
      Db(eventSeq, rows, map[])
    }

    /** `Append` of a lone caller. It returns the event with its number and an identifier, and leaves the tables as its
        four steps do; when the insertion fails it leaves them alone. */
    method Append(e: Record) returns (stored: Option<Record>)
      modifies this
      ensures Tables() == PgDo(PgDo(PgDo(PgDo(old(Tables()), Begin(0, e)), Reserve(0)), Insert(0)), Commit(0))
      ensures old(DbOk(Tables())) ==> DbOk(Tables()) && stored.Some?
      ensures stored.Some? ==> stored.value == e.(seqNo := NextSeq(old(Tables()), e.run), id := stored.value.id)
                               && stored.value.id == if e.id == 0 then stored.value.seqNo else e.id
    {
      hide PgDo, DbOk;
      AloneAppends(Tables(), e);
      AloneKeeps(Tables(), e);
      var next := if e.run in eventSeq then eventSeq[e.run] + 1 else 2;
      var n := next - 1;
      if (e.run, n) in rows { return None; }
      eventSeq, rows := eventSeq[e.run := next], rows[(e.run, n) := RowOf(e, n)];
      stored := Some(e.(seqNo := n, id := if e.id == 0 then n else e.id));
    }
  }
}
