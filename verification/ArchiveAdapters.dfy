/**
 * The two archives in their in-place form: Mongo's paged flush and allocated ranges, and the in-memory buffer, each
 * proved to do what the fold and the steps say.
 */
module ArchiveAdapters {
  import opened Prelude
  import opened Archive
  import ArchiveFlush

  class InMemoryArchive {
    var buffer: seq<Row>
    var committed: Folded
    var maxEpoch: nat

    constructor ()
      ensures buffer == [] && committed == map[] && maxEpoch == 0
    {
      buffer, committed, maxEpoch := [], map[], 0;
    }

    /** False for a stale epoch, which leaves everything as it was. */
    method Archive(row: Row) returns (accepted: bool)
      modifies this`buffer, this`maxEpoch
      ensures accepted == (row.epoch >= old(maxEpoch))
      ensures buffer == if accepted then old(buffer) + [row] else old(buffer)
      ensures maxEpoch == if accepted then row.epoch else old(maxEpoch)
    {
      if row.epoch < maxEpoch {
        return false;
      }
      maxEpoch := row.epoch;
      buffer := buffer + [row];
      return true;
    }

    method Flush() returns (flushed: nat)
      modifies this`buffer, this`committed
      ensures committed == FoldAll(old(committed), old(buffer)) && buffer == [] && flushed == |old(buffer)|
    {
      flushed := |buffer|;
      for i := 0 to |buffer|
        invariant buffer == old(buffer) && committed == FoldAll(old(committed), buffer[..i])
      {
        assert buffer[..i + 1][..i] == buffer[..i];
        committed := FoldIn(committed, buffer[i]);
      }
      assert buffer[..|buffer|] == buffer;
      buffer := [];
    }

    /** A read folds over a copy: what a flush followed by a read would return, with nothing written. */
    method Read() returns (folded: Folded)
      ensures folded == FoldAll(committed, buffer)
    {
      folded := committed;
      for i := 0 to |buffer|
        invariant folded == FoldAll(committed, buffer[..i])
      {
        assert buffer[..i + 1][..i] == buffer[..i];
        folded := FoldIn(folded, buffer[i]);
      }
      assert buffer[..|buffer|] == buffer;
    }
  }

  function PageRows(rows: map<nat, Row>, page: seq<nat>): seq<Row>
    requires forall n :: n in page ==> n in rows
  {
    seq(|page|, i requires 0 <= i < |page| => rows[page[i]])
  }

  /** A page is the next stretch of the buffer in sequence order. */
  lemma {:induction false} PageIsNext(rows: map<nat, Row>, from: nat, bound: nat, limit: nat)
    requires from <= bound
    ensures var page := ArchiveFlush.PageFrom(rows.Keys, from, bound, limit);
      && (forall n :: n in page ==> n in rows)
      && InOrder(rows, rows.Keys, if page == [] then if limit > 0 then bound else from else page[|page| - 1] + 1)
         == InOrder(rows, rows.Keys, from) + PageRows(rows, page)
    decreases bound - from
  {
    ArchiveFlush.PageFromOk(rows.Keys, from, bound, limit);
    if from < bound && limit > 0 {
      if from in rows {
        PageIsNext(rows, from + 1, bound, limit - 1);
        var page, rest := ArchiveFlush.PageFrom(rows.Keys, from, bound, limit), ArchiveFlush.PageFrom(rows.Keys, from + 1, bound, limit - 1);
        assert page == [from] + rest;
        assert PageRows(rows, page) == [rows[from]] + PageRows(rows, rest);
        assert InOrder(rows, rows.Keys, from + 1) == InOrder(rows, rows.Keys, from) + [rows[from]];
        if rest != [] {
          assert page[|page| - 1] == rest[|rest| - 1];
        }
      } else {
        PageIsNext(rows, from + 1, bound, limit);
        assert InOrder(rows, rows.Keys, from + 1) == InOrder(rows, rows.Keys, from);
      }
    }
  }

  lemma {:induction false} FoldAppend(c: Folded, a: seq<Row>, b: seq<Row>)
    ensures FoldAll(c, a + b) == FoldAll(FoldAll(c, a), b)
  {
    if b == [] {
      assert a + b == a;
    } else {
      FoldAppend(c, a, b[..|b| - 1]);
      assert (a + b)[..|a + b| - 1] == a + b[..|b| - 1];
    }
  }

  /** Numbers below `from` and from `bound` up hold nothing. */
  lemma {:induction false} EmptyStretch(rows: map<nat, Row>, from: nat, bound: nat)
    requires from <= bound && forall n :: from <= n < bound ==> n !in rows
    ensures InOrder(rows, rows.Keys, bound) == InOrder(rows, rows.Keys, from)
  {
    if from < bound { EmptyStretch(rows, from, bound - 1); }
  }

  lemma {:induction false} SameBelow(a: map<nat, Row>, b: map<nat, Row>, n: nat)
    requires forall m: nat :: m < n ==> At(a, m) == At(b, m)
    ensures InOrder(a, a.Keys, n) == InOrder(b, b.Keys, n)
  {
    if n > 0 {
      var m: nat := n - 1;
      assert At(a, m) == At(b, m);
      SameBelow(a, b, n - 1);
    }
  }

  /** One session's collections: a numbered buffer, the committed rows, and the meta document. */
  class MongoArchive {
    var buffer: map<nat, Row>
    var committed: Folded
    var sequence: nat
    var maxEpoch: nat

    constructor ()
      ensures Valid() && Buffered() == [] && committed == map[] && maxEpoch == 0
    {
      buffer, committed, sequence, maxEpoch := map[], map[], 0, 0;
      new;
      EmptyStretch(buffer, 0, 1);
    }

    ghost predicate Valid()
      reads this
    {
      forall n :: n in buffer ==> n <= sequence
    }

    /** The buffered rows in sequence order: what the in-memory adapter keeps as a list. */
    ghost function Buffered(): seq<Row>
      reads this
    {
      InOrder(buffer, buffer.Keys, sequence + 1)
    }

    /** The whole batch is fenced by its first row's epoch and numbered as one contiguous range. */
    method ArchiveMany(batch: seq<Row>) returns (accepted: bool)
      requires Valid()
      modifies this`buffer, this`sequence, this`maxEpoch
      ensures Valid()
      ensures accepted == (batch == [] || batch[0].epoch >= old(maxEpoch))
      ensures Buffered() == if accepted then old(Buffered()) + batch else old(Buffered())
      ensures maxEpoch == if accepted && batch != [] then batch[0].epoch else old(maxEpoch)
    {
      if batch == [] {
        assert Buffered() + batch == Buffered();
        return true;
      }
      if batch[0].epoch < maxEpoch {
        return false;
      }
      sequence, maxEpoch := sequence + |batch|, batch[0].epoch;
      var first := sequence - |batch| + 1;
      for i := 0 to |batch|
        invariant sequence == old(sequence) + |batch| && first == old(sequence) + 1 && maxEpoch == batch[0].epoch
        invariant forall n :: n in buffer ==> n < first + i
        invariant InOrder(buffer, buffer.Keys, first + i) == old(Buffered()) + batch[..i]
      {
        ghost var before := buffer;
        buffer := buffer[first + i := batch[i]];
        SameBelow(before, buffer, first + i);
        assert batch[..i + 1] == batch[..i] + [batch[i]];
      }
      assert batch[..|batch|] == batch;
      return true;
    }

    /** Drains the buffer a page at a time: commit the page, clear it, move past its last number. */
    method Flush() returns (flushed: nat)
      requires Valid()
      modifies this`buffer, this`committed
      ensures Valid() && buffer == map[] && Buffered() == []
      ensures committed == FoldAll(old(committed), old(Buffered()))
      ensures flushed == |old(Buffered())|
    {
      hide FoldAll, InOrder;
      ghost var rows := buffer;
      flushed := 0;
      var from, more := 0, true;
      NothingFolded(rows, committed);
      while more
        invariant 0 <= from <= sequence + 1
        invariant forall n: nat :: At(buffer, n) == if n < from then None else At(rows, n)
        invariant committed == FoldAll(old(committed), InOrder(rows, rows.Keys, from))
        invariant flushed == |InOrder(rows, rows.Keys, from)|
        invariant !more ==> from == sequence + 1
        decreases sequence + 1 - from, more
      {
        var count;
        from, count := FlushPage(from, rows, old(committed));
        flushed, more := flushed + count, count > 0;
      }
      forall n: nat ensures n !in buffer { assert At(buffer, n) == None; }
      assert buffer == map[];
      EmptyStretch(buffer, 0, sequence + 1);
      NothingFolded(buffer, committed);
    }

    /** One turn of the loop: read a page past `from`, commit it, clear it. An empty page ends the flush. */
    method FlushPage(from: nat, ghost rows: map<nat, Row>, ghost start: Folded) returns (next: nat, count: nat)
      requires from <= sequence + 1
      requires forall n: nat :: At(buffer, n) == if n < from then None else At(rows, n)
      requires committed == FoldAll(start, InOrder(rows, rows.Keys, from))
      modifies this`buffer, this`committed
      ensures from <= next <= sequence + 1 && (count > 0 ==> from < next) && (count == 0 ==> next == sequence + 1)
      ensures forall n: nat :: At(buffer, n) == if n < next then None else At(rows, n)
      ensures committed == FoldAll(start, InOrder(rows, rows.Keys, next))
      ensures |InOrder(rows, rows.Keys, next)| == |InOrder(rows, rows.Keys, from)| + count
    {
      hide FoldAll, InOrder, ArchiveFlush.PageFrom;
      var page := ArchiveFlush.PageFrom(buffer.Keys, from, sequence + 1, ArchiveFlush.PAGE_SIZE);
      PageIsNext(rows, from, sequence + 1, ArchiveFlush.PAGE_SIZE);
      ArchiveFlush.PageFromOk(buffer.Keys, from, sequence + 1, ArchiveFlush.PAGE_SIZE);
      SamePage(buffer, rows, from, sequence + 1, ArchiveFlush.PAGE_SIZE);
      FoldAppend(start, InOrder(rows, rows.Keys, from), PageRows(rows, page));
      if page == [] {
        ClearedUpTo(buffer, buffer, rows, from, sequence + 1, page);
        assert InOrder(rows, rows.Keys, from) + PageRows(rows, page) == InOrder(rows, rows.Keys, from);
        return sequence + 1, 0;
      }
      ghost var before := buffer;
      CommitPage(page);
      forall n | n in page ensures before[n] == rows[n] { assert At(before, n) == At(rows, n); }
      forall i | 0 <= i < |page| ensures before[page[i]] == rows[page[i]] { assert page[i] in page; }
      assert PageRows(before, page) == PageRows(rows, page);
      buffer := buffer - set n | n in page;
      assert page[|page| - 1] in page;
      next, count := page[|page| - 1] + 1, |page|;
      ClearedUpTo(before, buffer, rows, from, next, page);
    }

    method CommitPage(page: seq<nat>)
      requires forall n :: n in page ==> n in buffer
      modifies this`committed
      ensures committed == FoldAll(old(committed), PageRows(buffer, page))
    {
      ghost var rows := PageRows(buffer, page);
      for i := 0 to |page|
        invariant committed == FoldAll(old(committed), rows[..i])
      {
        assert rows[..i + 1][..i] == rows[..i];
        committed := FoldIn(committed, buffer[page[i]]);
      }
      assert rows[..|page|] == rows;
    }
  }

  lemma NothingFolded(rows: map<nat, Row>, c: Folded)
    ensures InOrder(rows, rows.Keys, 0) == [] && FoldAll(c, []) == c
  {
  }

  lemma {:induction false} SamePage(a: map<nat, Row>, b: map<nat, Row>, from: nat, bound: nat, limit: nat)
    requires forall n: nat :: n >= from ==> At(a, n) == At(b, n)
    ensures ArchiveFlush.PageFrom(a.Keys, from, bound, limit) == ArchiveFlush.PageFrom(b.Keys, from, bound, limit)
    decreases bound - from
  {
    if from < bound && limit > 0 {
      assert At(a, from) == At(b, from);
      SamePage(a, b, from + 1, bound, limit);
      SamePage(a, b, from + 1, bound, limit - 1);
    }
  }

  /** Once a page is cleared, nothing is buffered below the number after it. */
  lemma ClearedUpTo(before: map<nat, Row>, after: map<nat, Row>, rows: map<nat, Row>, from: nat, next: nat, page: seq<nat>)
    requires from <= next && after == before - set n | n in page
    requires forall n: nat :: At(before, n) == if n < from then None else At(rows, n)
    requires forall n: nat :: n in before && from <= n < next ==> n in page
    requires forall n: nat :: n in page ==> n < next
    ensures forall n: nat :: At(after, n) == if n < next then None else At(rows, n)
  {
    forall n: nat ensures At(after, n) == if n < next then None else At(rows, n) {
      assert At(before, n) == if n < from then None else At(rows, n);
    }
  }
}
