/**
 * Archiving and flushing as interleaved steps: sequence ranges are allocated, rows inserted, and any number of
 * flushes page through the buffer, committing and clearing row by row; anything may stop between any two steps.
 */
module ArchiveFlush {
  import opened Prelude
  import opened Archive

  const PAGE_SIZE := 500

  /** A batch whose sequence range is allocated and whose rows are being inserted in order. */
  datatype Writer = Writer(first: nat, batch: seq<Row>, inserted: nat)

  /** A flush in progress: rows up to `after` are done; `committed` rows of the page are applied, then cleared. */
  datatype Flusher = Flusher(after: int, page: seq<nat>, committed: nat)

  datatype State = State(
    committed: Folded,
    buffer: set<nat>,               // sequence numbers still buffered
    rows: map<nat, Row>,            // every row ever inserted, by sequence number
    sequence: nat,                  // the last number allocated
    maxEpoch: nat,
    writers: map<string, Writer>,
    flushers: map<string, Flusher>)

  datatype Step =
    | Allocate(w: string, batch: seq<Row>)
    | Insert(w: string)
    | StopWriter(w: string)
    | Begin(f: string)
    | ReadPage(f: string)
    | CommitNext(f: string)
    | ClearRow(f: string, s: nat)
    | Advance(f: string)
    | StopFlusher(f: string)

  const START := State(map[], {}, map[], 0, 0, map[], map[])

  /** The first `limit` buffered numbers from `from` up to `bound`, ascending. */
  function PageFrom(buffer: set<nat>, from: nat, bound: nat, limit: nat): (page: seq<nat>)
    decreases bound - from
  {
    if from >= bound || limit == 0 then []
    else if from in buffer then [from] + PageFrom(buffer, from + 1, bound, limit - 1)
    else PageFrom(buffer, from + 1, bound, limit)
  }

  function NextPage(s: State, after: int): seq<nat> {
    PageFrom(s.buffer, if after < 0 then 0 else after + 1, s.sequence + 1, PAGE_SIZE)
  }

  predicate Enabled(s: State, step: Step) {
    match step
    case Allocate(w, batch) => batch != []
    case Insert(w) => w in s.writers && s.writers[w].inserted < |s.writers[w].batch|
    case StopWriter(w) => w in s.writers
    case Begin(f) => f !in s.flushers
    case ReadPage(f) => f in s.flushers && s.flushers[f].page == []
    case CommitNext(f) => f in s.flushers && s.flushers[f].committed < |s.flushers[f].page| && s.flushers[f].page[s.flushers[f].committed] in s.rows
    case ClearRow(f, n) => f in s.flushers && s.flushers[f].committed == |s.flushers[f].page| && n in s.flushers[f].page
    case Advance(f) => f in s.flushers && s.flushers[f].page != [] && s.flushers[f].committed == |s.flushers[f].page|
                       && forall n :: n in s.flushers[f].page ==> n !in s.buffer
    case StopFlusher(f) => f in s.flushers
  }

  /** The flush is over when nothing is left past what it has done. */
  predicate Finishes(s: State, step: Step) {
    step.ReadPage? && step.f in s.flushers && NextPage(s, s.flushers[step.f].after) == []
  }

  function SequenceOf(w: Writer): nat {
    w.first + w.inserted
  }

  function Next(s: State, step: Step): State
    requires Enabled(s, step)
  {
    match step
    case Allocate(w, batch) =>
      if batch[0].epoch < s.maxEpoch then s
      else s.(sequence := s.sequence + |batch|, maxEpoch := batch[0].epoch, writers := s.writers[w := Writer(s.sequence + 1, batch, 0)])
    case Insert(w) =>
      var writer := s.writers[w];
      s.(rows := s.rows[SequenceOf(writer) := writer.batch[writer.inserted]], buffer := s.buffer + {SequenceOf(writer)},
         writers := s.writers[w := writer.(inserted := writer.inserted + 1)])
    case StopWriter(w) => s.(writers := s.writers - {w})
    case Begin(f) => s.(flushers := s.flushers[f := Flusher(-1, [], 0)])
    case ReadPage(f) =>
      var page := NextPage(s, s.flushers[f].after);
      if page == [] then s.(flushers := s.flushers - {f})
      else s.(flushers := s.flushers[f := s.flushers[f].(page := page, committed := 0)])
    case CommitNext(f) =>
      var flusher := s.flushers[f];
      s.(committed := FoldIn(s.committed, s.rows[flusher.page[flusher.committed]]),
         flushers := s.flushers[f := flusher.(committed := flusher.committed + 1)])
    case ClearRow(f, n) => s.(buffer := s.buffer - {n})
    case Advance(f) =>
      var flusher := s.flushers[f];
      s.(flushers := s.flushers[f := Flusher(flusher.page[|flusher.page| - 1], [], 0)])
    case StopFlusher(f) => s.(flushers := s.flushers - {f})
  }

  /** What a read returns: the committed rows with the buffer folded over them in sequence order. */
  function Read(s: State): Folded {
    FoldAll(s.committed, InOrder(s.rows, s.buffer, s.sequence + 1))
  }

  /** One uninterrupted fold of everything ever inserted, in sequence order. */
  function Uninterrupted(s: State): Folded {
    FoldAll(map[], InOrder(s.rows, s.rows.Keys, s.sequence + 1))
  }

  /** The row enters the buffer in sequence order: nothing allocated after it is there yet. */
  predicate InSequence(s: State, step: Step) {
    step.Insert? && step.w in s.writers ==> forall n :: n in s.rows ==> n < SequenceOf(s.writers[step.w])
  }

  ghost predicate StepsTo(v: State, step: Step, w: State) {
    Enabled(v, step) && w == Next(v, step)
  }

  ghost predicate IsRun(steps: seq<Step>, trace: seq<State>) {
    && |trace| == |steps| + 1 && trace[0] == START
    && forall i :: 0 <= i < |steps| ==> StepsTo(trace[i], steps[i], trace[i + 1])
  }

  // ----- what every run keeps, in whatever order rows arrive -----

  /** The row's time and epoch have reached the committed row of its key. */
  predicate Absorbed(committed: Folded, row: Row) {
    row.key in committed && row.lastRetrieved <= committed[row.key].lastRetrieved && row.epoch <= committed[row.key].epoch
  }

  /** The committed row has the time and the epoch of rows that were inserted. */
  ghost predicate Timed(row: Row, k: Key, rows: map<nat, Row>) {
    && row.key == k
    && (exists s :: s in rows && rows[s].key == k && rows[s].lastRetrieved == row.lastRetrieved)
    && (exists s :: s in rows && rows[s].key == k && rows[s].epoch == row.epoch)
  }

  ghost predicate Ascending(page: seq<nat>) {
    forall i, j :: 0 <= i < j < |page| ==> page[i] < page[j]
  }

  ghost predicate FlusherOk(f: Flusher, committed: Folded, rows: map<nat, Row>) {
    && f.committed <= |f.page| && Ascending(f.page) && (f.after >= 0 ==> f.after in rows)
    && (forall i :: 0 <= i < |f.page| ==> f.page[i] in rows && f.after < f.page[i])
    && (forall i :: 0 <= i < f.committed ==> Absorbed(committed, rows[f.page[i]]))
  }

  /** `n` is a number of this writer's range that it has not used yet. */
  predicate Pending(w: Writer, n: nat) {
    SequenceOf(w) <= n < w.first + |w.batch|
  }

  ghost predicate WriterOk(w: Writer, sequence: nat, rows: map<nat, Row>) {
    && 1 <= w.first && w.first + |w.batch| <= sequence + 1 && w.inserted <= |w.batch|
    && forall n :: Pending(w, n) ==> n !in rows
  }

  ghost predicate Shape(s: State) {
    && s.buffer <= s.rows.Keys
    && (forall n :: n in s.rows ==> n <= s.sequence)
    && (forall n :: n in s.rows && n !in s.buffer ==> Absorbed(s.committed, s.rows[n]))
    && (forall k :: k in s.committed ==> Timed(s.committed[k], k, s.rows))
    && (forall f :: f in s.flushers ==> FlusherOk(s.flushers[f], s.committed, s.rows))
    && (forall w :: w in s.writers ==> WriterOk(s.writers[w], s.sequence, s.rows))
    && (forall v, w, n :: v in s.writers && w in s.writers && v != w && Pending(s.writers[v], n) ==> !Pending(s.writers[w], n))
  }

  lemma {:induction false} PageFromOk(buffer: set<nat>, from: nat, bound: nat, limit: nat)
    ensures var page := PageFrom(buffer, from, bound, limit);
      && Ascending(page)
      && (forall n :: n in page ==> n in buffer && from <= n < bound)
      && (page != [] ==> forall n :: n in buffer && from <= n < page[|page| - 1] ==> n in page)
      && (page == [] && limit > 0 ==> forall n :: n in buffer && from <= n ==> n >= bound)
    decreases bound - from
  {
    if from < bound && limit > 0 {
      if from in buffer {
        PageFromOk(buffer, from + 1, bound, limit - 1);
        var rest := PageFrom(buffer, from + 1, bound, limit - 1);
        var page := [from] + rest;
        assert forall n :: n in page <==> n == from || n in rest;
        forall i, j | 0 <= i < j < |page| ensures page[i] < page[j] {
          assert page[j] == rest[j - 1] && rest[j - 1] in rest;
          if i > 0 { assert page[i] == rest[i - 1]; }
        }
      } else {
        PageFromOk(buffer, from + 1, bound, limit);
      }
    }
  }

  lemma NextPageOk(s: State, after: int)
    requires Shape(s)
    ensures var page := NextPage(s, after);
      && Ascending(page)
      && (forall n :: n in page ==> n in s.buffer && n in s.rows && after < n)
      && (page != [] ==> forall n :: n in s.buffer && after < n < page[|page| - 1] ==> n in page)
      && (page == [] ==> forall n :: n in s.buffer ==> n <= after)
  {
    hide Absorbed, Timed, FlusherOk, WriterOk, Pending;
    PageFromOk(s.buffer, if after < 0 then 0 else after + 1, s.sequence + 1, PAGE_SIZE);
  }

  /** Every step keeps the shape, an insert out of sequence included. */
  lemma StepKeepsShape(s: State, step: Step)
    requires Shape(s) && Enabled(s, step)
    ensures Shape(Next(s, step))
  {
    match step {
      case Allocate(w, batch) => AllocateKeepsShape(s, w, batch);
      case Insert(w) => InsertKeepsShape(s, w);
      case ReadPage(f) => ReadPageKeepsShape(s, f);
      case CommitNext(f) => CommitKeepsShape(s, f);
      case ClearRow(f, n) => ClearKeepsShape(s, f, n);
      case Advance(f) => AdvanceKeepsShape(s, f);
      case _ => FrameKeepsShape(s, Next(s, step));
    }
  }

  /** Stopping a writer, and starting or stopping a flush, touches no row. */
  lemma FrameKeepsShape(s: State, s': State)
    requires Shape(s)
    requires s'.committed == s.committed && s'.buffer == s.buffer && s'.rows == s.rows && s'.sequence == s.sequence
    requires forall f :: f in s'.flushers ==> s'.flushers[f] == Flusher(-1, [], 0) || (f in s.flushers && s'.flushers[f] == s.flushers[f])
    requires forall w :: w in s'.writers ==> w in s.writers && s'.writers[w] == s.writers[w]
    ensures Shape(s')
  {
    hide Timed, Absorbed, WriterOk, Pending;
  }

  lemma AllocateKeepsShape(s: State, w: string, batch: seq<Row>)
    requires Shape(s) && Enabled(s, Allocate(w, batch))
    ensures Shape(Next(s, Allocate(w, batch)))
  {
    hide Timed, Absorbed, FlusherOk;
  }

  lemma InsertKeepsShape(s: State, w: string)
    requires Shape(s) && Enabled(s, Insert(w))
    ensures Shape(Next(s, Insert(w)))
  {
    hide Absorbed, Timed, FlusherOk;
    var s', n := Next(s, Insert(w)), SequenceOf(s.writers[w]);
    assert WriterOk(s.writers[w], s.sequence, s.rows) && Pending(s.writers[w], n);
    assert n !in s.rows;
    forall k | k in s'.committed ensures Timed(s'.committed[k], k, s'.rows) { TimedGrows(s.committed[k], k, s.rows, n, s'.rows[n]); }
    forall f | f in s'.flushers ensures FlusherOk(s'.flushers[f], s'.committed, s'.rows) {
      FlusherKept(s.flushers[f], s.committed, s.rows, n, s'.rows[n]);
    }
    assert forall v :: v in s'.writers && v != w ==> s'.writers[v] == s.writers[v];
    assert forall m :: Pending(s'.writers[w], m) ==> Pending(s.writers[w], m) && m != n;
    forall v | v in s'.writers ensures WriterOk(s'.writers[v], s'.sequence, s'.rows) {
      assert WriterOk(s.writers[v], s.sequence, s.rows);
      if v != w { assert !Pending(s.writers[v], n); }
    }
  }

  lemma TimedGrows(row: Row, k: Key, rows: map<nat, Row>, n: nat, newest: Row)
    requires Timed(row, k, rows) && n !in rows
    ensures Timed(row, k, rows[n := newest])
  {
    var more := rows[n := newest];
    var t :| t in rows && rows[t].key == k && rows[t].lastRetrieved == row.lastRetrieved;
    assert more[t] == rows[t];
    var u :| u in rows && rows[u].key == k && rows[u].epoch == row.epoch;
    assert more[u] == rows[u];
  }

  lemma FlusherKept(f: Flusher, committed: Folded, rows: map<nat, Row>, n: nat, newest: Row)
    requires FlusherOk(f, committed, rows) && n !in rows
    ensures FlusherOk(f, committed, rows[n := newest])
  {
    hide Absorbed;
  }

  lemma ReadPageKeepsShape(s: State, f: string)
    requires Shape(s) && Enabled(s, ReadPage(f))
    ensures Shape(Next(s, ReadPage(f)))
  {
    hide Absorbed, Timed, NextPage, WriterOk, Pending;
    var s', after := Next(s, ReadPage(f)), s.flushers[f].after;
    NextPageOk(s, after);
    if f in s'.flushers {
      var page := NextPage(s, after);
      assert FlusherOk(s.flushers[f], s.committed, s.rows);
      forall i | 0 <= i < |page| ensures page[i] in s.rows && after < page[i] { assert page[i] in page; }
    }
    assert forall g :: g in s'.flushers && g != f ==> s'.flushers[g] == s.flushers[g];
  }

  lemma AbsorbedGrows(c: Folded, row: Row, other: Row)
    requires Absorbed(c, other)
    ensures Absorbed(FoldIn(c, row), other)
  {
  }

  lemma CommitKeepsShape(s: State, f: string)
    requires Shape(s) && Enabled(s, CommitNext(f))
    ensures Shape(Next(s, CommitNext(f)))
  {
    hide Timed, Absorbed, FlusherOk, WriterOk, Pending;
    var s', flusher := Next(s, CommitNext(f)), s.flushers[f];
    var row := s.rows[flusher.page[flusher.committed]];
    forall n | n in s'.rows && n !in s'.buffer ensures Absorbed(s'.committed, s'.rows[n]) {
      AbsorbedGrows(s.committed, row, s.rows[n]);
    }
    forall k | k in s'.committed ensures Timed(s'.committed[k], k, s'.rows) { CommitTimed(s, f, k); }
    forall g | g in s'.flushers ensures FlusherOk(s'.flushers[g], s'.committed, s'.rows) {
      CommitElsewhere(s, f, s.flushers[g]);
      if g == f { CommitMoves(s, f); }
    }
  }

  lemma CommitTimed(s: State, f: string, k: Key)
    requires Shape(s) && Enabled(s, CommitNext(f)) && k in Next(s, CommitNext(f)).committed
    ensures Timed(Next(s, CommitNext(f)).committed[k], k, s.rows)
  {
    hide Absorbed, FlusherOk, WriterOk, Pending;
    var n := s.flushers[f].page[s.flushers[f].committed];
    var now := Next(s, CommitNext(f)).committed[k];
    if k in s.committed {
      assert Timed(s.committed[k], k, s.rows);
      assert now.lastRetrieved in {s.rows[n].lastRetrieved, s.committed[k].lastRetrieved};
      assert now.epoch in {s.rows[n].epoch, s.committed[k].epoch};
    } else {
      assert now == s.rows[n];
    }
  }

  lemma CommitElsewhere(s: State, f: string, other: Flusher)
    requires Enabled(s, CommitNext(f)) && FlusherOk(other, s.committed, s.rows)
    ensures FlusherOk(other, Next(s, CommitNext(f)).committed, s.rows)
  {
    hide Absorbed;
    var row := s.rows[s.flushers[f].page[s.flushers[f].committed]];
    forall i | 0 <= i < other.committed ensures Absorbed(FoldIn(s.committed, row), s.rows[other.page[i]]) {
      AbsorbedGrows(s.committed, row, s.rows[other.page[i]]);
    }
  }

  lemma CommitMoves(s: State, f: string)
    requires Enabled(s, CommitNext(f)) && FlusherOk(s.flushers[f], Next(s, CommitNext(f)).committed, s.rows)
    ensures var s' := Next(s, CommitNext(f)); FlusherOk(s'.flushers[f], s'.committed, s'.rows)
  {
    var s', flusher := Next(s, CommitNext(f)), s.flushers[f];
    assert Absorbed(s'.committed, s.rows[flusher.page[flusher.committed]]);
    assert s'.flushers[f] == flusher.(committed := flusher.committed + 1);
  }

  lemma ClearKeepsShape(s: State, f: string, n: nat)
    requires Shape(s) && Enabled(s, ClearRow(f, n))
    ensures Shape(Next(s, ClearRow(f, n)))
  {
    hide Timed, Absorbed, WriterOk, Pending;
    var flusher := s.flushers[f];
    assert FlusherOk(flusher, s.committed, s.rows);
    var i :| 0 <= i < |flusher.page| && flusher.page[i] == n;
    assert Absorbed(s.committed, s.rows[flusher.page[i]]);
  }

  lemma AdvanceKeepsShape(s: State, f: string)
    requires Shape(s) && Enabled(s, Advance(f))
    ensures Shape(Next(s, Advance(f)))
  {
    hide Timed, Absorbed, WriterOk, Pending;
    assert FlusherOk(s.flushers[f], s.committed, s.rows);
    var s' := Next(s, Advance(f));
    assert forall g :: g in s'.flushers && g != f ==> s'.flushers[g] == s.flushers[g];
  }

  // ----- what makes reads right from here on -----

  predicate First(rows: map<nat, Row>, k: Key, s: nat)
    requires s in rows
  {
    rows[s].key == k && forall t :: t in rows && rows[t].key == k ==> s <= t
  }

  predicate HasRow(rows: map<nat, Row>, k: Key) {
    exists n :: n in rows && rows[n].key == k
  }

  /** These are the fixed fields of the key's first row. */
  ghost predicate FirstFixed(rows: map<nat, Row>, k: Key, fixed: string) {
    exists b :: b in rows && First(rows, k, b) && rows[b].fixed == fixed
  }

  /** The flush has still to commit this number, from its page or from one it has yet to read. */
  ghost predicate Ahead(f: Flusher, n: nat) {
    f.after < n && (f.page == [] || f.page[|f.page| - 1] < n || exists i :: f.committed <= i < |f.page| && f.page[i] == n)
  }

  /** The first row of the key that the flush has still to commit. */
  ghost predicate Meets(f: Flusher, rows: map<nat, Row>, k: Key, n: nat) {
    n in rows && rows[n].key == k && Ahead(f, n) && forall t :: t in rows && rows[t].key == k && Ahead(f, t) ==> n <= t
  }

  ghost predicate MeetsFixed(f: Flusher, rows: map<nat, Row>, k: Key) {
    exists n :: Meets(f, rows, k, n) && FirstFixed(rows, k, rows[n].fixed)
  }

  /**
   * A committed key has its first row's fixed fields; a key not committed yet will get them from whichever flush
   * in progress comes to it first.
   */
  ghost predicate KeySafe(s: State, k: Key) {
    if k in s.committed then FirstFixed(s.rows, k, s.committed[k].fixed)
    else HasRow(s.rows, k) ==> forall f :: f in s.flushers ==> MeetsFixed(s.flushers[f], s.rows, k)
  }

  ghost predicate Safe(s: State) {
    forall k :: KeySafe(s, k)
  }

  /** Flushing never makes a key unsafe, and neither does a row that comes in sequence. */
  lemma StepKeepsKey(s: State, step: Step, k: Key)
    requires Shape(s) && KeySafe(s, k) && Enabled(s, step) && InSequence(s, step)
    ensures KeySafe(Next(s, step), k)
  {
    match step {
      case Insert(w) => InsertKeepsKey(s, w, k);
      case ReadPage(f) => ReadPageKeepsKey(s, f, k);
      case CommitNext(f) => CommitKeepsKey(s, f, k);
      case ClearRow(f, n) => assert Next(s, step).flushers == s.flushers;
      case Advance(f) => AdvanceKeepsKey(s, f, k);
      case _ => FrameKeepsKey(s, Next(s, step), k);
    }
  }

  lemma {:induction false} LeastRow(rows: map<nat, Row>, k: Key, n: nat) returns (b: nat)
    requires n in rows && rows[n].key == k
    ensures b in rows && First(rows, k, b)
    decreases n
  {
    if t :| t in rows && rows[t].key == k && t < n { b := LeastRow(rows, k, t); } else { b := n; }
  }

  lemma FrameKeepsKey(s: State, s': State, k: Key)
    requires KeySafe(s, k) && s'.committed == s.committed && s'.rows == s.rows
    requires forall f :: f in s'.flushers ==> s'.flushers[f] == Flusher(-1, [], 0) || (f in s.flushers && s'.flushers[f] == s.flushers[f])
    ensures KeySafe(s', k)
  {
    if k !in s.committed && HasRow(s.rows, k) {
      var n :| n in s.rows && s.rows[n].key == k;
      var b := LeastRow(s.rows, k, n);
      assert Meets(Flusher(-1, [], 0), s.rows, k, b) && FirstFixed(s.rows, k, s.rows[b].fixed);
    }
  }

  lemma InsertKeepsKey(s: State, w: string, k: Key)
    requires Shape(s) && KeySafe(s, k) && Enabled(s, Insert(w)) && InSequence(s, Insert(w))
    ensures KeySafe(Next(s, Insert(w)), k)
  {
    hide Absorbed, Timed, WriterOk, Pending, FlusherOk, Ahead;
    var s', n := Next(s, Insert(w)), SequenceOf(s.writers[w]);
    if k in s.committed {
      LaterKeepsFirst(s.rows, k, s.committed[k].fixed, n, s'.rows[n]);
    } else if HasRow(s'.rows, k) {
      forall f | f in s'.flushers ensures MeetsFixed(s'.flushers[f], s'.rows, k) {
        if HasRow(s.rows, k) {
          var m :| Meets(s.flushers[f], s.rows, k, m) && FirstFixed(s.rows, k, s.rows[m].fixed);
          LaterKeepsFirst(s.rows, k, s.rows[m].fixed, n, s'.rows[n]);
          assert Meets(s.flushers[f], s'.rows, k, m);
        } else {
          assert Ahead(s.flushers[f], n) by { NewestAhead(s, s.flushers[f], n); }
          assert First(s'.rows, k, n) && Meets(s.flushers[f], s'.rows, k, n);
        }
      }
    }
  }

  lemma LaterKeepsFirst(rows: map<nat, Row>, k: Key, fixed: string, n: nat, row: Row)
    requires FirstFixed(rows, k, fixed) && forall t :: t in rows ==> t < n
    ensures FirstFixed(rows[n := row], k, fixed)
  {
    var b :| b in rows && First(rows, k, b) && rows[b].fixed == fixed;
    assert First(rows[n := row], k, b);
  }

  lemma NewestAhead(s: State, f: Flusher, n: nat)
    requires FlusherOk(f, s.committed, s.rows) && forall t :: t in s.rows ==> t < n
    ensures Ahead(f, n)
  {
    hide Absorbed;
  }

  /** What no flush has committed is still buffered. */
  lemma Buffered(s: State, k: Key)
    requires Shape(s) && k !in s.committed
    ensures forall t :: t in s.rows && s.rows[t].key == k ==> t in s.buffer
  {
    hide Timed, FlusherOk, WriterOk, Pending;
  }

  /** A flush that has the same numbers of the key ahead of it meets the same one. */
  lemma SameAhead(f: Flusher, g: Flusher, rows: map<nat, Row>, k: Key)
    requires MeetsFixed(f, rows, k)
    requires forall t :: t in rows && rows[t].key == k ==> (Ahead(f, t) <==> Ahead(g, t))
    ensures MeetsFixed(g, rows, k)
  {
    var n :| Meets(f, rows, k, n) && FirstFixed(rows, k, rows[n].fixed);
    assert Meets(g, rows, k, n);
  }

  lemma PageAhead(s: State, f: string, t: nat)
    requires Shape(s) && Enabled(s, ReadPage(f)) && t in s.buffer && NextPage(s, s.flushers[f].after) != []
    ensures Ahead(s.flushers[f], t) <==> Ahead(Next(s, ReadPage(f)).flushers[f], t)
  {
    hide Absorbed, Timed, NextPage, FlusherOk, WriterOk, Pending;
    var after := s.flushers[f].after;
    NextPageOk(s, after);
    var page := NextPage(s, after);
    assert page[|page| - 1] in page;
  }

  lemma ReadPageKeepsKey(s: State, f: string, k: Key)
    requires Shape(s) && KeySafe(s, k) && Enabled(s, ReadPage(f))
    ensures KeySafe(Next(s, ReadPage(f)), k)
  {
    hide Ahead, NextPage, FirstFixed, Shape;
    var s' := Next(s, ReadPage(f));
    if k !in s.committed && HasRow(s.rows, k) {
      Buffered(s, k);
      forall g | g in s'.flushers ensures MeetsFixed(s'.flushers[g], s.rows, k) {
        if g == f {
          forall t | t in s.rows && s.rows[t].key == k ensures Ahead(s.flushers[f], t) <==> Ahead(s'.flushers[f], t) {
            PageAhead(s, f, t);
          }
          SameAhead(s.flushers[f], s'.flushers[f], s.rows, k);
        } else {
          assert s'.flushers[g] == s.flushers[g];
        }
      }
    }
  }

  /** The row a flush commits next is the first of its key that it meets. */
  lemma CommitMeets(s: State, f: string)
    requires Shape(s) && Enabled(s, CommitNext(f))
    ensures var n := s.flushers[f].page[s.flushers[f].committed]; Meets(s.flushers[f], s.rows, s.rows[n].key, n)
  {
    hide Absorbed, Timed, WriterOk, Pending;
    var flusher := s.flushers[f];
    assert FlusherOk(flusher, s.committed, s.rows);
    var n := flusher.page[flusher.committed];
    assert n <= flusher.page[|flusher.page| - 1];
  }

  lemma CommitAhead(s: State, f: string, t: nat)
    requires Shape(s) && Enabled(s, CommitNext(f)) && t != s.flushers[f].page[s.flushers[f].committed]
    ensures Ahead(s.flushers[f], t) <==> Ahead(Next(s, CommitNext(f)).flushers[f], t)
  {
    hide Shape;
    var flusher := s.flushers[f];
    if i :| flusher.committed <= i < |flusher.page| && flusher.page[i] == t { assert i >= flusher.committed + 1; }
  }

  lemma CommitKeepsKey(s: State, f: string, k: Key)
    requires Shape(s) && KeySafe(s, k) && Enabled(s, CommitNext(f))
    ensures KeySafe(Next(s, CommitNext(f)), k)
  {
    hide Ahead, FirstFixed, Shape;
    var s', flusher := Next(s, CommitNext(f)), s.flushers[f];
    var n := flusher.page[flusher.committed];
    if k !in s.committed && k == s.rows[n].key {
      CommitMeets(s, f);
      var m :| Meets(flusher, s.rows, k, m) && FirstFixed(s.rows, k, s.rows[m].fixed);
      assert m == n;
    } else if k !in s.committed && HasRow(s.rows, k) {
      forall g | g in s'.flushers ensures MeetsFixed(s'.flushers[g], s.rows, k) {
        if g == f {
          forall t | t in s.rows && s.rows[t].key == k ensures Ahead(flusher, t) <==> Ahead(s'.flushers[f], t) { CommitAhead(s, f, t); }
          SameAhead(flusher, s'.flushers[f], s.rows, k);
        } else {
          assert s'.flushers[g] == s.flushers[g];
        }
      }
    }
  }

  lemma AdvanceAhead(s: State, f: string, t: nat)
    requires Shape(s) && Enabled(s, Advance(f))
    ensures Ahead(s.flushers[f], t) <==> Ahead(Next(s, Advance(f)).flushers[f], t)
  {
    hide Absorbed, Timed, WriterOk, Pending;
    assert FlusherOk(s.flushers[f], s.committed, s.rows);
  }

  lemma AdvanceKeepsKey(s: State, f: string, k: Key)
    requires Shape(s) && KeySafe(s, k) && Enabled(s, Advance(f))
    ensures KeySafe(Next(s, Advance(f)), k)
  {
    hide Ahead, FirstFixed, Shape;
    var s' := Next(s, Advance(f));
    if k !in s.committed && HasRow(s.rows, k) {
      forall g | g in s'.flushers ensures MeetsFixed(s'.flushers[g], s.rows, k) {
        if g == f {
          forall t | t in s.rows && s.rows[t].key == k ensures Ahead(s.flushers[f], t) <==> Ahead(s'.flushers[f], t) { AdvanceAhead(s, f, t); }
          SameAhead(s.flushers[f], s'.flushers[f], s.rows, k);
        } else {
          assert s'.flushers[g] == s.flushers[g];
        }
      }
    }
  }

  // ----- what rows in sequence add: no flush leaves a buffered row behind -----

  ghost predicate LeftBehind(f: Flusher, n: nat) {
    n <= f.after || (f.page != [] && n < f.page[|f.page| - 1] && n !in f.page)
  }

  ghost predicate NothingBehind(s: State) {
    forall f, n :: f in s.flushers && n in s.buffer ==> !LeftBehind(s.flushers[f], n)
  }

  ghost predicate Inv(s: State) {
    Shape(s) && Safe(s) && NothingBehind(s)
  }

  lemma StepKeepsInv(s: State, step: Step)
    requires Inv(s) && Enabled(s, step) && InSequence(s, step)
    ensures Inv(Next(s, step))
  {
    hide Shape, KeySafe, Next, Enabled, InSequence, NothingBehind;
    StepKeepsShape(s, step);
    forall k ensures KeySafe(Next(s, step), k) { StepKeepsKey(s, step, k); }
    StepLeavesNothing(s, step);
  }

  lemma StepLeavesNothing(s: State, step: Step)
    requires Shape(s) && NothingBehind(s) && Enabled(s, step) && InSequence(s, step)
    ensures NothingBehind(Next(s, step))
  {
    hide Absorbed, Timed, WriterOk, Pending, FlusherOk, NextPage, PageFrom;
    var s' := Next(s, step);
    forall f, n | f in s'.flushers && n in s'.buffer ensures !LeftBehind(s'.flushers[f], n) {
      if step.ReadPage? && step.f == f {
        NextPageOk(s, s.flushers[f].after);
        assert !LeftBehind(s.flushers[f], n);
      } else if step.Insert? && n !in s.buffer {
        NewestAhead(s, s.flushers[f], n);
      } else if f in s.flushers && n in s.buffer {
        assert !LeftBehind(s.flushers[f], n);
      }
    }
  }

  /** With nothing left behind, a flush has every buffered number it did not commit ahead of it. */
  lemma BufferedAhead(s: State, f: string, n: nat)
    requires Shape(s) && NothingBehind(s) && f in s.flushers && n in s.buffer && s.rows[n].key !in s.committed
    ensures Ahead(s.flushers[f], n)
  {
    hide Timed, WriterOk, Pending;
    assert FlusherOk(s.flushers[f], s.committed, s.rows) && !LeftBehind(s.flushers[f], n);
    if n in s.flushers[f].page {
      var i :| 0 <= i < |s.flushers[f].page| && s.flushers[f].page[i] == n;
      assert i < s.flushers[f].committed ==> Absorbed(s.committed, s.rows[n]);
    }
  }

  /** When a page's row is committed first for its key, it is the first row of that key. */
  lemma CommittedIsFirst(s: State, f: string)
    requires Inv(s) && Enabled(s, CommitNext(f))
    ensures var n := s.flushers[f].page[s.flushers[f].committed];
      s.rows[n].key !in s.committed ==> First(s.rows, s.rows[n].key, n)
  {
    hide Ahead, Shape, KeySafe, NothingBehind;
    var n := s.flushers[f].page[s.flushers[f].committed];
    var k := s.rows[n].key;
    if k !in s.committed {
      CommitMeets(s, f);
      Buffered(s, k);
      var b := LeastRow(s.rows, k, n);
      BufferedAhead(s, f, b);
    }
  }
}
