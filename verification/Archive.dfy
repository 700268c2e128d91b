/** The archive's fold: what a pile of observations amounts to. */
module Archive {
  import opened Prelude

  datatype Key = Key(kind: string, valueHash: string)

  /** A sealed observation; `fixed` stands for every field only the first sighting supplies. */
  datatype Row = Row(key: Key, fixed: string, lastRetrieved: int, epoch: nat)

  type Folded = map<Key, Row>

  /** The first observation inserts; a later one only advances the time and the epoch. */
  function FoldOne(c: Option<Row>, row: Row): Row {
    match c
    case None => row
    case Some(existing) => existing.(lastRetrieved := Max(existing.lastRetrieved, row.lastRetrieved),
                                     epoch := if existing.epoch < row.epoch then row.epoch else existing.epoch)
  }

  function FoldIn(c: Folded, row: Row): Folded {
    c[row.key := FoldOne(At(c, row.key), row)]
  }

  function FoldAll(c: Folded, rows: seq<Row>): Folded {
    if rows == [] then c else FoldIn(FoldAll(c, rows[..|rows| - 1]), rows[|rows| - 1])
  }

  /** The buffered rows below `n`, in sequence order. */
  function InOrder(rows: map<nat, Row>, buffer: set<nat>, n: nat): seq<Row> {
    if n == 0 then []
    else InOrder(rows, buffer, n - 1) + if n - 1 in buffer && n - 1 in rows then [rows[n - 1]] else []
  }

  /** One key's row is what the committed row and these rows amount to. */
  ghost predicate Amounts(r: Option<Row>, c: Option<Row>, rows: map<nat, Row>, within: set<nat>, n: nat, k: Key) {
    var about := set s | s in within && s in rows && s < n && rows[s].key == k;
    if r.None? then c.None? && about == {}
    else
      && (c.Some? ==> r.value.key == c.value.key && r.value.fixed == c.value.fixed
                      && c.value.lastRetrieved <= r.value.lastRetrieved && c.value.epoch <= r.value.epoch)
      && (c.None? ==> exists s :: s in about && IsFirst(about, s) && r.value.key == k && r.value.fixed == rows[s].fixed)
      && (forall s :: s in about ==> rows[s].lastRetrieved <= r.value.lastRetrieved && rows[s].epoch <= r.value.epoch)
      && ((c.Some? && r.value.lastRetrieved == c.value.lastRetrieved)
          || exists s :: s in about && r.value.lastRetrieved == rows[s].lastRetrieved)
      && ((c.Some? && r.value.epoch == c.value.epoch) || exists s :: s in about && r.value.epoch == rows[s].epoch)
  }

  predicate IsFirst(about: set<nat>, s: nat) {
    forall t :: t in about ==> s <= t
  }

  lemma {:induction false} FoldKeyed(c: Folded, rows: seq<Row>)
    requires forall x :: x in c ==> c[x].key == x
    ensures forall x :: x in FoldAll(c, rows) ==> FoldAll(c, rows)[x].key == x
  {
    if rows != [] { FoldKeyed(c, rows[..|rows| - 1]); }
  }

  /** Folding in sequence order gives, at each key, the first row's fixed fields and the largest time and epoch. */
  lemma {:induction false} FoldMeaning(c: Folded, rows: map<nat, Row>, within: set<nat>, n: nat, k: Key)
    requires forall x :: x in c ==> c[x].key == x
    ensures Amounts(At(FoldAll(c, InOrder(rows, within, n)), k), At(c, k), rows, within, n, k)
  {
    hide Amounts, FoldOne, FoldAll;
    if n == 0 {
      FoldNothing(c, rows, within, k);
    } else {
      FoldMeaning(c, rows, within, n - 1, k);
      var before := InOrder(rows, within, n - 1);
      if n - 1 in within && n - 1 in rows {
        FoldNext(c, before, rows[n - 1], k);
        AmountsNext(At(FoldAll(c, before), k), At(c, k), rows, within, n - 1, k);
      } else {
        assert before + [] == before;
        AmountsSkip(At(FoldAll(c, before), k), At(c, k), rows, within, n - 1, k);
      }
    }
  }

  lemma FoldNothing(c: Folded, rows: map<nat, Row>, within: set<nat>, k: Key)
    requires k in c ==> c[k].key == k
    ensures Amounts(At(FoldAll(c, InOrder(rows, within, 0)), k), At(c, k), rows, within, 0, k)
  {
  }

  lemma FoldNext(c: Folded, before: seq<Row>, row: Row, k: Key)
    ensures At(FoldAll(c, before + [row]), k) ==
      if row.key == k then Some(FoldOne(At(FoldAll(c, before), k), row)) else At(FoldAll(c, before), k)
  {
    assert (before + [row])[..|before|] == before;
  }

  lemma AmountsSkip(r: Option<Row>, c: Option<Row>, rows: map<nat, Row>, within: set<nat>, n: nat, k: Key)
    requires Amounts(r, c, rows, within, n, k) && !(n in within && n in rows)
    ensures Amounts(r, c, rows, within, n + 1, k)
  {
    var before := set s | s in within && s in rows && s < n && rows[s].key == k;
    var after := set s | s in within && s in rows && s < n + 1 && rows[s].key == k;
    assert before == after;
  }

  lemma AmountsNext(r: Option<Row>, c: Option<Row>, rows: map<nat, Row>, within: set<nat>, n: nat, k: Key)
    requires Amounts(r, c, rows, within, n, k) && n in within && n in rows
    ensures Amounts(if rows[n].key == k then Some(FoldOne(r, rows[n])) else r, c, rows, within, n + 1, k)
  {
    var before := set s | s in within && s in rows && s < n && rows[s].key == k;
    var after := set s | s in within && s in rows && s < n + 1 && rows[s].key == k;
    if rows[n].key == k {
      assert after == before + {n};
      if r.None? { assert IsFirst(after, n); }
      if r.Some? && c.None? {
        var s :| s in before && IsFirst(before, s) && r.value.key == k && r.value.fixed == rows[s].fixed;
        assert IsFirst(after, s);
      }
    } else {
      assert after == before;
    }
  }

  /** At most one row is what they amount to. */
  lemma AmountsUnique(r: Option<Row>, q: Option<Row>, c: Option<Row>, rows: map<nat, Row>, within: set<nat>, n: nat, k: Key)
    requires Amounts(r, c, rows, within, n, k) && Amounts(q, c, rows, within, n, k)
    ensures r == q
  {
    if r.Some? && q.Some? && c.None? {
      var about := set s | s in within && s in rows && s < n && rows[s].key == k;
      var s :| s in about && IsFirst(about, s) && r.value.fixed == rows[s].fixed && r.value.key == k;
      var t :| t in about && IsFirst(about, t) && q.value.fixed == rows[t].fixed && q.value.key == k;
      assert s == t;
    }
  }
}
