/** What archiving and flushing guarantee, and when a late row breaks it. */
module ArchiveFlushTheorems {
  import opened Prelude
  import opened Archive
  import opened ArchiveFlush

  // ----- what every run guarantees -----

  lemma {:induction false} RunKeepsInv(steps: seq<Step>, trace: seq<State>, n: nat)
    requires IsRun(steps, trace) && n < |trace|
    requires forall i :: 0 <= i < n ==> InSequence(trace[i], steps[i])
    ensures Inv(trace[n])
  {
    hide Next, Enabled, InSequence;
    if n == 0 {
      assert Inv(START);
    } else {
      RunKeepsInv(steps, trace, n - 1);
      assert StepsTo(trace[n - 1], steps[n - 1], trace[n]);
      StepKeepsInv(trace[n - 1], steps[n - 1]);
    }
  }

  lemma {:induction false} RunKeepsShape(steps: seq<Step>, trace: seq<State>, n: nat)
    requires IsRun(steps, trace) && n < |trace|
    ensures Shape(trace[n])
  {
    hide Next, Enabled, Shape;
    if n == 0 {
      assert Shape(START) by { StartShape(); }
    } else {
      RunKeepsShape(steps, trace, n - 1);
      assert StepsTo(trace[n - 1], steps[n - 1], trace[n]);
      StepKeepsShape(trace[n - 1], steps[n - 1]);
    }
  }

  lemma StartShape()
    ensures Shape(START)
  {
  }

  /** What the fold needs at one key: its unbuffered rows are absorbed, and its committed row stands for rows there were. */
  ghost predicate KeyOk(s: State, k: Key) {
    && (forall n :: n in s.rows ==> n <= s.sequence)
    && (forall n :: n in s.rows && n !in s.buffer && s.rows[n].key == k ==> Absorbed(s.committed, s.rows[n]))
    && (forall x :: x in s.committed ==> s.committed[x].key == x)
    && (k in s.committed ==> Timed(s.committed[k], k, s.rows) && FirstFixed(s.rows, k, s.committed[k].fixed))
  }

  lemma ReadAmounts(s: State, k: Key)
    requires KeyOk(s, k)
    ensures At(Read(s), k) == At(Uninterrupted(s), k)
  {
    var n := s.sequence + 1;
    FoldMeaning(s.committed, s.rows, s.buffer, n, k);
    FoldMeaning(map[], s.rows, s.rows.Keys, n, k);
    WholeAmounts(s, At(Read(s), k), k);
    AmountsUnique(At(Read(s), k), At(Uninterrupted(s), k), None, s.rows, s.rows.Keys, n, k);
  }

  /** The committed row and the buffered rows together stand for every row of the key. */
  lemma WholeAmounts(s: State, r: Option<Row>, k: Key)
    requires KeyOk(s, k) && Amounts(r, At(s.committed, k), s.rows, s.buffer, s.sequence + 1, k)
    ensures Amounts(r, None, s.rows, s.rows.Keys, s.sequence + 1, k)
  {
    var n := s.sequence + 1;
    var about := set t | t in s.buffer && t in s.rows && t < n && s.rows[t].key == k;
    var all := set t | t in s.rows.Keys && t in s.rows && t < n && s.rows[t].key == k;
    forall t | t in all && t !in about ensures Absorbed(s.committed, s.rows[t]) {
    }
    if k in s.committed {
      var f :| f in s.rows && First(s.rows, k, f) && s.rows[f].fixed == s.committed[k].fixed;
      assert f in all && IsFirst(all, f);
      var t :| t in s.rows && s.rows[t].key == k && s.rows[t].lastRetrieved == s.committed[k].lastRetrieved;
      var u :| u in s.rows && s.rows[u].key == k && s.rows[u].epoch == s.committed[k].epoch;
      assert t in all && u in all;
    } else {
      assert all == about;
    }
  }

  /** In a safe state a read is the one uninterrupted fold of everything inserted, in sequence order. */
  lemma SafeReads(s: State)
    requires Shape(s) && Safe(s)
    ensures Read(s) == Uninterrupted(s)
  {
    hide Shape, Safe, Read, Uninterrupted;
    forall k ensures At(Read(s), k) == At(Uninterrupted(s), k) {
      SafeKeyOk(s, k);
      ReadAmounts(s, k);
    }
    SameMap(Read(s), Uninterrupted(s));
  }

  lemma SafeKeyOk(s: State, k: Key)
    requires Shape(s) && Safe(s)
    ensures KeyOk(s, k)
  {
    hide Absorbed, FlusherOk, WriterOk, Pending, MeetsFixed, HasRow;
    assert KeySafe(s, k);
    forall x | x in s.committed ensures s.committed[x].key == x { assert Timed(s.committed[x], x, s.rows); }
  }

  /**
   * However flushes are interrupted and whatever is archived between, a read always returns one uninterrupted
   * fold of everything inserted, in sequence order; so a read before a flush equals a read after it.
   */
  lemma ReadsAreUninterrupted(steps: seq<Step>, trace: seq<State>, n: nat)
    requires IsRun(steps, trace) && n < |trace|
    requires forall i :: 0 <= i < n ==> InSequence(trace[i], steps[i])
    ensures Read(trace[n]) == Uninterrupted(trace[n])
  {
    hide Shape, Safe, NothingBehind, Read, Uninterrupted, Next, Enabled, InSequence;
    RunKeepsInv(steps, trace, n);
    SafeReads(trace[n]);
  }

  /** A flush that runs to its end, after any number that did not, has emptied the buffer into exactly that fold. */
  lemma FullFlushCommitsAll(steps: seq<Step>, trace: seq<State>, n: nat)
    requires IsRun(steps, trace) && n < |steps| && Finishes(trace[n], steps[n])
    requires forall i :: 0 <= i < n ==> InSequence(trace[i], steps[i])
    ensures trace[n].buffer == {} && trace[n].committed == Uninterrupted(trace[n])
  {
    hide Next, Enabled, Uninterrupted, InSequence, Inv, Read, Finishes;
    ReadsAreUninterrupted(steps, trace, n);
    RunKeepsInv(steps, trace, n);
    FinishedIsEmpty(trace[n], steps[n]);
    ReadOfEmpty(trace[n]);
  }

  /** With nothing left past what it has done, a flush has cleared the whole buffer. */
  lemma FinishedIsEmpty(s: State, step: Step)
    requires Inv(s) && Finishes(s, step)
    ensures s.buffer == {}
  {
    hide Shape, Safe, NextPage;
    NextPageOk(s, s.flushers[step.f].after);
    assert forall n :: n in s.buffer ==> !LeftBehind(s.flushers[step.f], n);
  }

  lemma ReadOfEmpty(s: State)
    requires s.buffer == {}
    ensures Read(s) == s.committed
  {
    NothingBuffered(s.rows, s.sequence + 1);
  }

  lemma {:induction false} NothingBuffered(rows: map<nat, Row>, n: nat)
    ensures InOrder(rows, {}, n) == []
  {
    if n > 0 { NothingBuffered(rows, n - 1); }
  }

  // ----- rows that come late: exactly which states stay right -----

  /** What can still happen when every row from here on comes in sequence. */
  ghost predicate Continues(s: State, steps: seq<Step>, trace: seq<State>) {
    && |trace| == |steps| + 1 && trace[0] == s
    && forall i :: 0 <= i < |steps| ==> StepsTo(trace[i], steps[i], trace[i + 1]) && InSequence(trace[i], steps[i])
  }

  /** Every read from here on is the uninterrupted fold, however the flushes in progress go on. */
  ghost predicate StaysRight(s: State) {
    forall steps, trace, n :: Continues(s, steps, trace) && 0 <= n < |trace| ==> Read(trace[n]) == Uninterrupted(trace[n])
  }

  /** The key has been given the fixed fields of a row that is not its first. */
  ghost predicate Wrong(s: State, k: Key) {
    k in s.committed && !FirstFixed(s.rows, k, s.committed[k].fixed)
  }

  lemma {:induction false} SafeContinues(s: State, steps: seq<Step>, trace: seq<State>, n: nat)
    requires Shape(s) && Safe(s) && Continues(s, steps, trace) && n < |trace|
    ensures Shape(trace[n]) && Safe(trace[n])
  {
    hide Shape, KeySafe, Next, Enabled, InSequence;
    if n > 0 {
      SafeContinues(s, steps, trace, n - 1);
      assert StepsTo(trace[n - 1], steps[n - 1], trace[n]);
      StepKeepsShape(trace[n - 1], steps[n - 1]);
      forall k ensures KeySafe(trace[n], k) { StepKeepsKey(trace[n - 1], steps[n - 1], k); }
    }
  }

  lemma WrongReads(s: State, k: Key)
    requires Shape(s) && Wrong(s, k)
    ensures Read(s) != Uninterrupted(s)
  {
    hide Absorbed, FlusherOk, WriterOk, Pending, FoldAll, InOrder;
    var n := s.sequence + 1;
    forall x | x in s.committed ensures s.committed[x].key == x { assert Timed(s.committed[x], x, s.rows); }
    FoldMeaning(s.committed, s.rows, s.buffer, n, k);
    FoldMeaning(map[], s.rows, s.rows.Keys, n, k);
    assert Timed(s.committed[k], k, s.rows);
    var t :| t in s.rows && s.rows[t].key == k;
    var b := LeastRow(s.rows, k, t);
    FixedOfFirst(At(Uninterrupted(s), k), s.rows, n, k, b);
  }

  lemma FixedOfFirst(r: Option<Row>, rows: map<nat, Row>, n: nat, k: Key, b: nat)
    requires Amounts(r, None, rows, rows.Keys, n, k) && b in rows && b < n && First(rows, k, b)
    ensures r.Some? && FirstFixed(rows, k, r.value.fixed)
  {
    var about := set s | s in rows.Keys && s in rows && s < n && rows[s].key == k;
    assert b in about;
    var s :| s in about && IsFirst(about, s) && r.value.fixed == rows[s].fixed;
    assert s == b;
  }

  /** The flush goes on: it reads a page, commits, clears or advances. */
  predicate Flushes(step: Step, f: string) {
    (step.ReadPage? || step.CommitNext? || step.ClearRow? || step.Advance?) && step.f == f
  }

  /** The step a flush takes next on its way to the rows ahead of it. */
  lemma FlushOn(s: State, f: string, n: nat) returns (step: Step)
    requires Shape(s) && f in s.flushers && n in s.buffer && Ahead(s.flushers[f], n)
    ensures Enabled(s, step) && Flushes(step, f)
    ensures step.ReadPage? ==> s.flushers[f].page == [] && f in Next(s, step).flushers && Next(s, step).flushers[f].page != []
    ensures step.ClearRow? ==> step.s in s.buffer
  {
    hide Absorbed, Timed, WriterOk, Pending, NextPage;
    var flusher := s.flushers[f];
    assert FlusherOk(flusher, s.committed, s.rows);
    if flusher.page == [] {
      NextPageOk(s, flusher.after);
      step := ReadPage(f);
    } else if flusher.committed < |flusher.page| {
      step := CommitNext(f);
    } else if m :| m in flusher.page && m in s.buffer {
      step := ClearRow(f, m);
    } else {
      step := Advance(f);
    }
  }

  /** How far a flush is from having committed everything. */
  function Left(s: State, f: string): (int, nat, int, nat)
    requires f in s.flushers
  {
    var flusher := s.flushers[f];
    (s.sequence - flusher.after, if flusher.page == [] then 1 else 0, |flusher.page| - flusher.committed, |s.buffer|)
  }

  /**
   * A flush that will first meet, for a key nothing has committed yet, a row with other fixed fields than the
   * key's first row: left to go on, it commits them.
   */
  lemma {:induction false} DriveWrong(s: State, f: string, k: Key, n: nat) returns (steps: seq<Step>, trace: seq<State>)
    requires Shape(s) && f in s.flushers && k !in s.committed
    requires Meets(s.flushers[f], s.rows, k, n) && !FirstFixed(s.rows, k, s.rows[n].fixed)
    ensures Continues(s, steps, trace) && Shape(trace[|steps|]) && Wrong(trace[|steps|], k)
    decreases Left(s, f).0, Left(s, f).1, Left(s, f).2, Left(s, f).3
  {
    hide Shape, Ahead, FirstFixed;
    Buffered(s, k);
    var step := FlushOn(s, f, n);
    var s' := Next(s, step);
    StepKeepsShape(s, step);
    LeftShrinks(s, f, step);
    if step.CommitNext? && s.rows[s.flushers[f].page[s.flushers[f].committed]].key == k {
      CommitMeets(s, f);
      steps, trace := [step], [s, s'];
      assert StepsTo(s, step, s');
    } else {
      MeetsOn(s, f, step, k, n);
      var more, states := DriveWrong(s', f, k, n);
      steps, trace := Prepend(s, step, more, states);
    }
  }

  lemma LeftShrinks(s: State, f: string, step: Step)
    requires Shape(s) && Enabled(s, step) && f in s.flushers && Flushes(step, f)
    requires step.ReadPage? ==> s.flushers[f].page == [] && f in Next(s, step).flushers && Next(s, step).flushers[f].page != []
    requires step.ClearRow? ==> step.s in s.buffer
    ensures var s' := Next(s, step);
      && f in s'.flushers && Left(s', f).0 >= 0
      && (Left(s', f).0 < Left(s, f).0
          || (Left(s', f).0 == Left(s, f).0
              && (Left(s', f).1 < Left(s, f).1
                  || (Left(s', f).1 == Left(s, f).1
                      && (0 <= Left(s', f).2 < Left(s, f).2
                          || (Left(s', f).2 == Left(s, f).2 && Left(s', f).3 < Left(s, f).3))))))
  {
    hide Shape, NextPage;
    FlusherBounds(s, f);
    var s' := Next(s, step);
    if step.ClearRow? { SmallerSet(s'.buffer, s.buffer); }
  }

  lemma FlusherBounds(s: State, f: string)
    requires Shape(s) && f in s.flushers
    ensures var flusher := s.flushers[f];
      && flusher.after <= s.sequence && flusher.committed <= |flusher.page|
      && (flusher.page != [] ==> flusher.after < flusher.page[|flusher.page| - 1] <= s.sequence)
  {
    hide Absorbed, Timed, WriterOk, Pending;
    assert FlusherOk(s.flushers[f], s.committed, s.rows);
  }

  lemma MeetsOn(s: State, f: string, step: Step, k: Key, n: nat)
    requires Shape(s) && Enabled(s, step) && f in s.flushers && Flushes(step, f) && k !in s.committed && Meets(s.flushers[f], s.rows, k, n)
    requires step.CommitNext? ==> s.rows[s.flushers[f].page[s.flushers[f].committed]].key != k
    requires step.ReadPage? ==> f in Next(s, step).flushers && Next(s, step).flushers[f].page != []
    ensures var s' := Next(s, step);
      f in s'.flushers && k !in s'.committed && s'.rows == s.rows && Meets(s'.flushers[f], s.rows, k, n)
  {
    hide Shape, Ahead, NextPage;
    var s' := Next(s, step);
    Buffered(s, k);
    forall t | t in s.rows && s.rows[t].key == k ensures Ahead(s.flushers[f], t) <==> Ahead(s'.flushers[f], t) {
      match step {
        case ReadPage(_) => PageAhead(s, f, t);
        case CommitNext(_) => CommitAhead(s, f, t);
        case Advance(_) => AdvanceAhead(s, f, t);
        case _ =>
      }
    }
  }

  lemma Prepend(s: State, step: Step, more: seq<Step>, states: seq<State>) returns (steps: seq<Step>, trace: seq<State>)
    requires Enabled(s, step) && InSequence(s, step) && Continues(Next(s, step), more, states)
    ensures Continues(s, steps, trace) && trace[|steps|] == states[|more|]
  {
    hide Next, Enabled, InSequence;
    steps, trace := [step] + more, [s] + states;
    forall i | 0 <= i < |steps| ensures StepsTo(trace[i], steps[i], trace[i + 1]) && InSequence(trace[i], steps[i]) {
      if i > 0 { assert StepsTo(states[i - 1], more[i - 1], states[i]) && InSequence(states[i - 1], more[i - 1]); }
    }
  }

  /** A flush with no row of the key ahead: the next row archived for the key, coming in sequence, is what it meets. */
  lemma ArchiveAnother(s: State, f: string, k: Key) returns (s': State, first: Step, second: Step, n: nat)
    requires Shape(s) && f in s.flushers && k !in s.committed && HasRow(s.rows, k)
    requires forall t :: t in s.rows && s.rows[t].key == k ==> !Ahead(s.flushers[f], t)
    ensures Enabled(s, first) && InSequence(s, first)
    ensures Enabled(Next(s, first), second) && InSequence(Next(s, first), second) && s' == Next(Next(s, first), second)
    ensures Shape(s') && f in s'.flushers && k !in s'.committed
    ensures Meets(s'.flushers[f], s'.rows, k, n) && !FirstFixed(s'.rows, k, s'.rows[n].fixed)
  {
    hide Shape, Ahead, FirstFixed;
    var t :| t in s.rows && s.rows[t].key == k;
    var b := LeastRow(s.rows, k, t);
    var row := Row(k, s.rows[b].fixed + "'", 0, s.maxEpoch);
    n, first, second := s.sequence + 1, Allocate("", [row]), Insert("");
    NumbersBelow(s, f, n);
    var s1 := Next(s, first);
    StepKeepsShape(s, first);
    AllocatedNext(s, row);
    StepKeepsShape(s1, second);
    s' := Next(s1, second);
    assert First(s'.rows, k, b);
    OnlyFirst(s'.rows, k, b);
  }

  lemma NumbersBelow(s: State, f: string, n: nat)
    requires Shape(s) && f in s.flushers && n == s.sequence + 1
    ensures Ahead(s.flushers[f], n) && forall t :: t in s.rows ==> t < n
  {
    hide Absorbed, Timed, WriterOk, Pending, FlusherOk, Ahead;
    NewestAhead(s, s.flushers[f], n);
  }

  lemma AllocatedNext(s: State, row: Row)
    requires row.epoch == s.maxEpoch && forall t :: t in s.rows ==> t <= s.sequence
    ensures var s1 := Next(s, Allocate("", [row]));
      && Enabled(s1, Insert("")) && InSequence(s1, Insert(""))
      && s1.rows == s.rows && s1.flushers == s.flushers && s1.committed == s.committed
      && Next(s1, Insert("")) == s1.(rows := s.rows[s.sequence + 1 := row], buffer := s.buffer + {s.sequence + 1},
                                     writers := s1.writers["" := Writer(s.sequence + 1, [row], 1)])
  {
  }

  lemma UnsafeGoesWrong(s: State, k: Key) returns (steps: seq<Step>, trace: seq<State>)
    requires Shape(s) && !KeySafe(s, k)
    ensures Continues(s, steps, trace) && Shape(trace[|steps|]) && Wrong(trace[|steps|], k)
  {
    hide Shape, FirstFixed, Ahead;
    if k in s.committed {
      steps, trace := [], [s];
    } else {
      var f :| f in s.flushers && !MeetsFixed(s.flushers[f], s.rows, k);
      if t :| t in s.rows && s.rows[t].key == k && Ahead(s.flushers[f], t) {
        var n := LeastAhead(s.flushers[f], s.rows, k, t);
        steps, trace := DriveWrong(s, f, k, n);
      } else {
        var s', first, second, n := ArchiveAnother(s, f, k);
        var more, states := DriveWrong(s', f, k, n);
        steps, trace := Prepend(Next(s, first), second, more, states);
        steps, trace := Prepend(s, first, steps, trace);
      }
    }
  }

  lemma {:induction false} LeastAhead(f: Flusher, rows: map<nat, Row>, k: Key, n: nat) returns (b: nat)
    requires n in rows && rows[n].key == k && Ahead(f, n)
    ensures Meets(f, rows, k, b)
    decreases n
  {
    hide Ahead;
    if t :| t in rows && rows[t].key == k && Ahead(f, t) && t < n { b := LeastAhead(f, rows, k, t); } else { b := n; }
  }

  /**
   * Exactly which states stay right, in every run, whatever order its rows came in: every read from here on is the
   * uninterrupted fold iff each committed key has its first row's fixed fields, and each flush in progress will
   * come first to a row with those fields for every key still uncommitted.
   */
  lemma StaysRightIffSafe(steps: seq<Step>, trace: seq<State>, n: nat)
    requires IsRun(steps, trace) && n < |trace|
    ensures StaysRight(trace[n]) <==> Safe(trace[n])
  {
    RunKeepsShape(steps, trace, n);
    RightIffSafe(trace[n]);
  }

  lemma RightIffSafe(s: State)
    requires Shape(s)
    ensures StaysRight(s) <==> Safe(s)
  {
    hide Shape, KeySafe, Read, Uninterrupted, Wrong, Continues;
    if Safe(s) {
      forall steps, trace, n | Continues(s, steps, trace) && 0 <= n < |trace| ensures Read(trace[n]) == Uninterrupted(trace[n]) {
        SafeContinues(s, steps, trace, n);
        SafeReads(trace[n]);
      }
    } else {
      var k :| !KeySafe(s, k);
      var steps, trace := UnsafeGoesWrong(s, k);
      ContinuesLength(s, steps, trace);
      WrongReads(trace[|steps|], k);
    }
  }

  lemma ContinuesLength(s: State, steps: seq<Step>, trace: seq<State>)
    requires Continues(s, steps, trace)
    ensures |trace| == |steps| + 1
  {
  }

  // ----- the first row that comes late -----

  /**
   * A row that comes late does no harm when the first row of its key stays first or has the same fixed fields,
   * or when nothing of the key is committed and no flush in progress has gone past the row's number.
   */
  predicate HarmlessInsert(s: State, n: nat, row: Row) {
    || (exists t :: t in s.rows && First(s.rows, row.key, t) && (t < n || s.rows[t].fixed == row.fixed))
    || (row.key !in s.committed && forall f :: f in s.flushers ==> !Passed(s.flushers[f], n))
  }

  /** The flush has done, or has read a page reaching, a greater number. */
  predicate Passed(f: Flusher, n: nat) {
    n < f.after || (f.page != [] && n < f.page[|f.page| - 1])
  }

  /**
   * Without the ordering hypothesis, over whole runs: after the first row that comes late, every read from then on
   * is still the uninterrupted fold, however the flushes in progress go on, iff that insert was harmless.
   */
  lemma LateInsertIff(steps: seq<Step>, trace: seq<State>, w: string)
    requires IsRun(steps, trace) && forall i :: 0 <= i < |steps| ==> InSequence(trace[i], steps[i])
    requires Enabled(trace[|steps|], Insert(w))
    ensures var s := trace[|steps|];
      var writer := s.writers[w];
      StaysRight(Next(s, Insert(w))) <==> HarmlessInsert(s, SequenceOf(writer), writer.batch[writer.inserted])
  {
    hide Shape, Safe, NothingBehind, HarmlessInsert, StaysRight, InSequence;
    var s := trace[|steps|];
    var writer := s.writers[w];
    var n, row := SequenceOf(writer), writer.batch[writer.inserted];
    RunKeepsInv(steps, trace, |steps|);
    StepKeepsShape(s, Insert(w));
    RightIffSafe(Next(s, Insert(w)));
    InsertFresh(s, w);
    InsertSafeIff(s, w, n, row);
  }

  lemma InsertFresh(s: State, w: string)
    requires Shape(s) && Enabled(s, Insert(w))
    ensures SequenceOf(s.writers[w]) !in s.rows
  {
    hide Absorbed, Timed, FlusherOk;
    assert WriterOk(s.writers[w], s.sequence, s.rows) && Pending(s.writers[w], SequenceOf(s.writers[w]));
  }

  lemma InsertSafeIff(s: State, w: string, n: nat, row: Row)
    requires Inv(s) && Enabled(s, Insert(w)) && n !in s.rows && n == SequenceOf(s.writers[w]) && row == s.writers[w].batch[s.writers[w].inserted]
    ensures Safe(Next(s, Insert(w))) <==> HarmlessInsert(s, n, row)
  {
    hide Shape, NothingBehind, KeySafe, HarmlessInsert;
    var s' := Next(s, Insert(w));
    assert s'.rows == s.rows[n := row] && s'.committed == s.committed && s'.flushers == s.flushers;
    forall k | k != row.key ensures KeySafe(s', k) {
      assert KeySafe(s, k);
      InsertElsewhere(s, s', n, row, k);
    }
    assert KeySafe(s, row.key);
    if HarmlessInsert(s, n, row) { HarmlessKeepsKey(s, s', n, row); } else { HarmfulBreaksKey(s, s', n, row); }
  }

  lemma InsertElsewhere(s: State, s': State, n: nat, row: Row, k: Key)
    requires KeySafe(s, k) && k != row.key && n !in s.rows
    requires s'.rows == s.rows[n := row] && s'.committed == s.committed && s'.flushers == s.flushers
    ensures KeySafe(s', k)
  {
    hide Ahead;
    forall fixed | FirstFixed(s.rows, k, fixed) ensures FirstFixed(s'.rows, k, fixed) {
      var b :| b in s.rows && First(s.rows, k, b) && s.rows[b].fixed == fixed;
      assert First(s'.rows, k, b);
    }
    if k !in s.committed && HasRow(s'.rows, k) {
      var t :| t in s'.rows && s'.rows[t].key == k;
      assert HasRow(s.rows, k) by { assert t in s.rows; }
      forall f | f in s'.flushers ensures MeetsFixed(s'.flushers[f], s'.rows, k) {
        var m :| Meets(s.flushers[f], s.rows, k, m) && FirstFixed(s.rows, k, s.rows[m].fixed);
        assert Meets(s'.flushers[f], s'.rows, k, m);
      }
    }
  }

  /** In a state with nothing left behind, every flush has the first row of an uncommitted key ahead. */
  lemma FirstIsMet(s: State, f: string, k: Key, t: nat)
    requires Shape(s) && NothingBehind(s) && f in s.flushers && k !in s.committed && t in s.rows && First(s.rows, k, t)
    ensures Meets(s.flushers[f], s.rows, k, t)
  {
    hide Shape, NothingBehind, Ahead;
    Buffered(s, k);
    BufferedAhead(s, f, t);
  }

  lemma NewAhead(s: State, f: string, n: nat)
    requires Shape(s) && f in s.flushers && n !in s.rows
    ensures Ahead(s.flushers[f], n) <==> !Passed(s.flushers[f], n)
  {
    hide Absorbed, Timed, WriterOk, Pending;
    assert FlusherOk(s.flushers[f], s.committed, s.rows);
  }

  lemma HarmlessKeepsKey(s: State, s': State, n: nat, row: Row)
    requires Shape(s) && NothingBehind(s) && KeySafe(s, row.key) && n !in s.rows && HarmlessInsert(s, n, row)
    requires s'.rows == s.rows[n := row] && s'.committed == s.committed && s'.flushers == s.flushers
    ensures KeySafe(s', row.key)
  {
    hide Shape, NothingBehind, Ahead, Passed;
    var k := row.key;
    if t :| t in s.rows && First(s.rows, k, t) && (t < n || s.rows[t].fixed == row.fixed) {
      assert if t < n then First(s'.rows, k, t) else First(s'.rows, k, n);
      assert FirstFixed(s'.rows, k, s.rows[t].fixed);
      if k !in s.committed {
        forall f | f in s'.flushers ensures MeetsFixed(s'.flushers[f], s'.rows, k) {
          FirstIsMet(s, f, k, t);
          assert Meets(s'.flushers[f], s'.rows, k, if n < t && Ahead(s'.flushers[f], n) then n else t);
        }
      }
    } else {
      forall f | f in s'.flushers ensures MeetsFixed(s'.flushers[f], s'.rows, k) {
        NewAhead(s, f, n);
        NoneBefore(s, n, k);
        assert First(s'.rows, k, n) && Meets(s'.flushers[f], s'.rows, k, n);
      }
    }
  }

  /** When no first row of the key comes before `n`, no row of it does. */
  lemma NoneBefore(s: State, n: nat, k: Key)
    requires n !in s.rows && !exists t :: t in s.rows && First(s.rows, k, t) && t < n
    ensures forall t :: t in s.rows && s.rows[t].key == k ==> n < t
  {
    forall t | t in s.rows && s.rows[t].key == k ensures n < t {
      var b := LeastRow(s.rows, k, t);
    }
  }

  lemma HarmfulBreaksKey(s: State, s': State, n: nat, row: Row)
    requires Shape(s) && NothingBehind(s) && KeySafe(s, row.key) && n !in s.rows && !HarmlessInsert(s, n, row)
    requires s'.rows == s.rows[n := row] && s'.committed == s.committed && s'.flushers == s.flushers
    ensures !KeySafe(s', row.key)
  {
    hide Shape, NothingBehind, Ahead, Passed;
    var k := row.key;
    NoneBefore(s, n, k);
    assert First(s'.rows, k, n);
    OnlyFirst(s'.rows, k, n);
    if k in s.committed {
      var t :| t in s.rows && First(s.rows, k, t) && s.rows[t].fixed == s.committed[k].fixed;
    } else {
      var f :| f in s.flushers && Passed(s.flushers[f], n);
      NewAhead(s, f, n);
      forall m | Meets(s'.flushers[f], s'.rows, k, m) ensures !FirstFixed(s'.rows, k, s'.rows[m].fixed) {
        var t := LeastRow(s.rows, k, m);
        FirstIsMet(s, f, k, t);
        assert m == t;
      }
      assert HasRow(s'.rows, k);
    }
  }

  lemma OnlyFirst(rows: map<nat, Row>, k: Key, n: nat)
    requires n in rows && First(rows, k, n)
    ensures forall fixed :: FirstFixed(rows, k, fixed) <==> fixed == rows[n].fixed
  {
  }

  const VALUE := Key("t", "v")
  const FIRST := Row(VALUE, "first", 1, 1)
  const SECOND := Row(VALUE, "second", 2, 2)

  /** Both writers hold a range; only the newer one has inserted its row. */
  const TAKEN_OVER := State(map[], {2}, map[2 := SECOND], 2, 2,
                            map["old" := Writer(1, [FIRST], 0), "new" := Writer(2, [SECOND], 1)], map[])

  /** ... a flush has read the page of that row, ... */
  const PAGE_READ := TAKEN_OVER.(flushers := map["f" := Flusher(-1, [2], 0)])

  /** ... and has committed it. */
  const FLUSHED := TAKEN_OVER.(committed := map[VALUE := SECOND], flushers := map["f" := Flusher(-1, [2], 1)])

  lemma FlushedRun() returns (steps: seq<Step>, trace: seq<State>)
    ensures IsRun(steps, trace) && |steps| == 6 && trace[5] == PAGE_READ && trace[6] == FLUSHED
    ensures forall i :: 0 <= i < 6 ==> InSequence(trace[i], steps[i])
  {
    steps := [Allocate("old", [FIRST]), Allocate("new", [SECOND]), Insert("new"), Begin("f"), ReadPage("f"), CommitNext("f")];
    var s1 := Next(START, steps[0]);
    var s2 := Next(s1, steps[1]);
    var s4 := Next(TAKEN_OVER, steps[3]);
    trace := [START, s1, s2, TAKEN_OVER, s4, PAGE_READ, FLUSHED];
    assert StepsTo(START, steps[0], s1) && StepsTo(s1, steps[1], s2);
    assert StepsTo(s2, steps[2], TAKEN_OVER) && StepsTo(TAKEN_OVER, steps[3], s4);
    PageOfTwo();
    assert NextPage(s4, -1) == [2];
    assert StepsTo(s4, steps[4], PAGE_READ);
    assert StepsTo(PAGE_READ, steps[5], FLUSHED);
  }

  lemma RunUpTo(steps: seq<Step>, trace: seq<State>, n: nat)
    requires IsRun(steps, trace) && n <= |steps|
    ensures IsRun(steps[..n], trace[..n + 1])
  {
    hide Next, Enabled;
    forall i | 0 <= i < n ensures StepsTo(trace[..n + 1][i], steps[..n][i], trace[..n + 1][i + 1]) {
      assert StepsTo(trace[i], steps[i], trace[i + 1]);
    }
  }

  /**
   * Both kinds of harm happen: a superseded writer inserts its row after its successor's row for the same value was
   * flushed, and what is read is wrong at once; or it does so after a flush has merely read the page of that row,
   * and what is read is right until the flush goes on.
   */
  lemma LateInsertHappens() returns (steps: seq<Step>, trace: seq<State>)
    ensures IsRun(steps, trace) && |steps| == 6 && forall i :: 0 <= i < 6 ==> InSequence(trace[i], steps[i])
    ensures Enabled(trace[6], Insert("old")) && Read(Next(trace[6], Insert("old"))) != Uninterrupted(Next(trace[6], Insert("old")))
    ensures Enabled(trace[5], Insert("old")) && VALUE !in trace[5].committed && !StaysRight(Next(trace[5], Insert("old")))
  {
    steps, trace := FlushedRun();
    hide Read, Uninterrupted, Safe, NothingBehind, StaysRight, HarmlessInsert, IsRun;
    NeitherHarmless();
    RunKeepsInv(steps, trace, 6);
    StepKeepsShape(FLUSHED, Insert("old"));
    WrongAtOnce();
    WrongReads(Next(FLUSHED, Insert("old")), VALUE);
    RunUpTo(steps, trace, 5);
    LateInsertIff(steps[..5], trace[..6], "old");
  }

  lemma NeitherHarmless()
    ensures !HarmlessInsert(PAGE_READ, 1, FIRST)
  {
    assert Passed(PAGE_READ.flushers["f"], 1);
  }

  lemma WrongAtOnce()
    ensures Wrong(Next(FLUSHED, Insert("old")), VALUE)
  {
    var rows := Next(FLUSHED, Insert("old")).rows;
    assert First(rows, VALUE, 1);
    OnlyFirst(rows, VALUE, 1);
  }

  lemma PageOfTwo()
    ensures PageFrom({2}, 0, 3, PAGE_SIZE) == [2]
  {
    assert PageFrom({2}, 3, 3, PAGE_SIZE - 1) == [];
    assert PageFrom({2}, 2, 3, PAGE_SIZE) == [2];
    assert PageFrom({2}, 1, 3, PAGE_SIZE) == [2];
  }
}
