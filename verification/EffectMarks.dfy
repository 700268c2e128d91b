/** Side-effect marks: what any interleaving of fenced claims, commits and reverts can do to them. */
module EffectMarks {
  import opened Prelude
  import opened DataPointStore

  /** One fenced store call; `Other` is any guarded call that leaves the marks alone. */
  datatype EffectOp =
    | Claim(key: string, epoch: nat, reclaimStale: bool)
    | Commit(key: string, epoch: nat)
    | Revert(key: string, epoch: nat)
    | Other(epoch: nat)

  function Do(st: Store, op: EffectOp): Store {
    match op
    case Claim(key, epoch, reclaimStale) => ClaimEffect(st, key, epoch, reclaimStale).0
    case Commit(key, epoch) => CommitEffect(st, key, epoch).0
    case Revert(key, epoch) => RevertEffect(st, key, epoch).0
    case Other(epoch) => if Accepts(st, epoch) then st.(maxEpoch := epoch) else st
  }

  function RunOps(st: Store, ops: seq<EffectOp>): Store {
    if ops == [] then st else Do(RunOps(st, ops[..|ops| - 1]), ops[|ops| - 1])
  }

  predicate Acquires(st: Store, op: EffectOp, key: string) {
    op.Claim? && op.key == key && ClaimEffect(st, key, op.epoch, op.reclaimStale).1 == Ok(Acquired)
  }

  /** How one key's mark was moved by a run. */
  datatype Tally = Tally(acquired: nat, committed: nat, reverted: nat, reclaimed: nat)

  function Tallied(st: Store, ops: seq<EffectOp>, key: string): Tally {
    if ops == [] then Tally(0, 0, 0, 0)
    else
      var t, before, op := Tallied(st, ops[..|ops| - 1], key), RunOps(st, ops[..|ops| - 1]), ops[|ops| - 1];
      var was, now := At(before.effects, key), At(Do(before, op).effects, key);
      Tally(t.acquired + (if Acquires(before, op, key) then 1 else 0),
            t.committed + (if was != Some(Committed) && now == Some(Committed) then 1 else 0),
            t.reverted + (if was.Some? && now.None? then 1 else 0),
            t.reclaimed + (if Acquires(before, op, key) && was.Some? then 1 else 0))
  }

  /** Acquisitions and reverts made under one epoch. */
  function UnderEpoch(st: Store, ops: seq<EffectOp>, key: string, epoch: nat): (nat, nat) {
    if ops == [] then (0, 0)
    else
      var (acquired, reverted) := UnderEpoch(st, ops[..|ops| - 1], key, epoch);
      var before, op := RunOps(st, ops[..|ops| - 1]), ops[|ops| - 1];
      var was, now := At(before.effects, key), At(Do(before, op).effects, key);
      (acquired + (if Acquires(before, op, key) && op.epoch == epoch then 1 else 0),
       reverted + (if was.Some? && now.None? && op.epoch == epoch then 1 else 0))
  }

  /** A pending mark never names an epoch past the fence. */
  ghost predicate OwnersFenced(st: Store) {
    forall key :: key in st.effects && st.effects[key].Pending? ==> st.effects[key].epoch <= st.maxEpoch
  }

  lemma DoKeepsOwnersFenced(st: Store, op: EffectOp)
    requires OwnersFenced(st)
    ensures OwnersFenced(Do(st, op)) && Do(st, op).maxEpoch >= st.maxEpoch
  {
  }

  lemma {:induction false} RunKeepsOwnersFenced(st: Store, ops: seq<EffectOp>)
    requires OwnersFenced(st)
    ensures OwnersFenced(RunOps(st, ops)) && RunOps(st, ops).maxEpoch >= st.maxEpoch
  {
    if ops != [] {
      RunKeepsOwnersFenced(st, ops[..|ops| - 1]);
      DoKeepsOwnersFenced(RunOps(st, ops[..|ops| - 1]), ops[|ops| - 1]);
    }
  }

  /** After any run: a mark reported stale names a strictly older epoch, and reclaiming it raises its owner. */
  lemma StaleIsOlder(st: Store, ops: seq<EffectOp>, key: string, epoch: nat)
    requires OwnersFenced(st)
    ensures var now := RunOps(st, ops);
      && (ClaimEffect(now, key, epoch, false).1 == Ok(PendingStaleEpoch) ==>
            key in now.effects && now.effects[key].Pending? && now.effects[key].epoch < epoch)
      && (ClaimEffect(now, key, epoch, true).1 == Ok(Acquired) ==>
            && (key in now.effects ==> now.effects[key].Pending? && now.effects[key].epoch < epoch)
            && ClaimEffect(now, key, epoch, true).0.effects[key] == Pending(epoch))
  {
    RunKeepsOwnersFenced(st, ops);
  }

  /** Committed is for good: nothing moves the mark again and nothing acquires it. */
  lemma {:induction false} CommittedIsAbsorbing(st: Store, ops: seq<EffectOp>, key: string)
    requires At(st.effects, key) == Some(Committed)
    ensures At(RunOps(st, ops).effects, key) == Some(Committed)
    ensures Tallied(st, ops, key) == Tally(0, 0, 0, 0)
  {
    if ops != [] { CommittedIsAbsorbing(st, ops[..|ops| - 1], key); }
  }

  /** What one call does to one key's mark. */
  function MarkAfter(mark: Option<Mark>, maxEpoch: nat, op: EffectOp, key: string): Option<Mark> {
    if op.Other? || op.key != key || op.epoch < maxEpoch then mark
    else match op
      case Claim(_, epoch, reclaimStale) =>
        if mark.None? || (mark.value.Pending? && mark.value.epoch != epoch && reclaimStale) then Some(Pending(epoch)) else mark
      case Commit(_, epoch) => if mark == Some(Pending(epoch)) then Some(Committed) else mark
      case Revert(_, epoch) => if mark == Some(Pending(epoch)) then None else mark
  }

  lemma DoAtKey(st: Store, op: EffectOp, key: string)
    ensures At(Do(st, op).effects, key) == MarkAfter(At(st.effects, key), st.maxEpoch, op, key)
    ensures Do(st, op).maxEpoch == if op.epoch >= st.maxEpoch then op.epoch else st.maxEpoch
    ensures Acquires(st, op, key) <==>
      && op.Claim? && op.key == key && op.epoch >= st.maxEpoch
      && var mark := At(st.effects, key);
         mark.None? || (mark.value.Pending? && mark.value.epoch != op.epoch && op.reclaimStale)
  {
  }

  predicate Balanced(t: Tally, mark: Option<Mark>, maxEpoch: nat) {
    && t.acquired == t.committed + t.reverted + t.reclaimed + (if mark.Some? && mark.value.Pending? then 1 else 0)
    && t.committed == (if mark == Some(Committed) then 1 else 0)
    && t.reclaimed <= maxEpoch
    && (mark.Some? && mark.value.Pending? ==> t.reclaimed <= mark.value.epoch)
  }

  /**
   * Conservation, over every interleaving: each acquisition is committed, reverted, taken over, or still
   * pending; a key commits at most once; take-overs number at most the newest epoch, since each raises the
   * owner.
   */
  lemma {:induction false} MarksConserved(st: Store, ops: seq<EffectOp>, key: string)
    requires OwnersFenced(st) && key !in st.effects
    ensures var now := RunOps(st, ops); Balanced(Tallied(st, ops, key), At(now.effects, key), now.maxEpoch)
  {
    hide Do, Acquires;
    if ops != [] {
      var init := ops[..|ops| - 1];
      MarksConserved(st, init, key);
      RunKeepsOwnersFenced(st, init);
      DoAtKey(RunOps(st, init), ops[|ops| - 1], key);
    }
  }

  /** The body runs once per acquisition: never reclaiming, at most once more than its claims were reverted. */
  lemma {:induction false} SkipRunsAtMostOncePlusReverts(st: Store, ops: seq<EffectOp>, key: string)
    requires OwnersFenced(st) && key !in st.effects
    requires forall op :: op in ops && op.Claim? && op.key == key ==> !op.reclaimStale
    ensures var t := Tallied(st, ops, key); t.reclaimed == 0 && t.acquired <= 1 + t.reverted
  {
    MarksConserved(st, ops, key);
    if ops != [] {
      SkipRunsAtMostOncePlusReverts(st, ops[..|ops| - 1], key);
      assert ops[|ops| - 1] in ops;
    }
  }

  /** Reclaiming runs may run it again, but at most once more for each epoch that took the mark over. */
  lemma RerunBound(st: Store, ops: seq<EffectOp>, key: string)
    requires OwnersFenced(st) && key !in st.effects
    ensures var t := Tallied(st, ops, key); t.acquired <= 1 + t.reverted + t.reclaimed <= 1 + t.reverted + RunOps(st, ops).maxEpoch
  {
    MarksConserved(st, ops, key);
  }

  predicate EpochBalanced(acquired: nat, reverted: nat, mark: Option<Mark>, maxEpoch: nat, epoch: nat) {
    && reverted <= acquired <= reverted + 1
    && (epoch > maxEpoch ==> acquired == 0)
    && (epoch >= maxEpoch && mark != Some(Committed) ==> acquired == reverted + (if mark == Some(Pending(epoch)) then 1 else 0))
    && (mark == Some(Pending(epoch)) ==> acquired == reverted + 1)
  }

  /** Within one epoch the body never runs twice without a revert between, whatever the recovery policy. */
  lemma {:induction false} OncePerEpoch(st: Store, ops: seq<EffectOp>, key: string, epoch: nat)
    requires OwnersFenced(st) && key !in st.effects
    ensures var (acquired, reverted) := UnderEpoch(st, ops, key, epoch); acquired <= 1 + reverted
    ensures var (acquired, reverted) := UnderEpoch(st, ops, key, epoch); var now := RunOps(st, ops);
      EpochBalanced(acquired, reverted, At(now.effects, key), now.maxEpoch, epoch)
  {
    hide Do, Acquires;
    if ops != [] {
      var init := ops[..|ops| - 1];
      OncePerEpoch(st, init, key, epoch);
      RunKeepsOwnersFenced(st, init);
      DoAtKey(RunOps(st, init), ops[|ops| - 1], key);
    }
  }

  /**
   * What a claim is told, by the key's history alone: committed if a commit ever landed, pending in this epoch if the
   * epoch's own acquisition was not reverted, acquired if nothing is pending or it may reclaim what another epoch left.
   */
  lemma AnsweredByHistory(st: Store, ops: seq<EffectOp>, key: string, epoch: nat, reclaimStale: bool)
    requires OwnersFenced(st) && key !in st.effects && epoch >= RunOps(st, ops).maxEpoch
    ensures var reply, t := ClaimEffect(RunOps(st, ops), key, epoch, reclaimStale).1, Tallied(st, ops, key);
      var (acquired, reverted) := UnderEpoch(st, ops, key, epoch);
      var pending, mine := t.acquired == t.committed + t.reverted + t.reclaimed + 1, acquired == reverted + 1;
      reply == Ok(if t.committed > 0 then AlreadyCommitted
                  else if !pending then Acquired
                  else if mine then PendingSameEpoch
                  else if reclaimStale then Acquired
                  else PendingStaleEpoch)
  {
    hide Do, Acquires;
    MarksConserved(st, ops, key);
    OncePerEpoch(st, ops, key, epoch);
  }
}
