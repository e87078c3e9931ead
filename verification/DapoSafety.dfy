/** Whole runs of the DAPO loop: what every update gets, and how the counters move
    (recipe/dapo/dapo_ray_trainer_for_tar.py:94-148, 354-409, 513-530). */
module DapoSafety {
  import opened RowTable
  import opened ConcatBatches
  import opened DapoRun

  /** The loop is over: an error was raised or the last step was done. */
  predicate Stopped(outs: seq<Outcome>) {
    outs != [] && (outs[|outs| - 1].Failed? || (outs[|outs| - 1].Updated? && outs[|outs| - 1].last))
  }

  ghost predicate AllOk(cfg: Config, rs: seq<Rollout>) {
    forall i :: 0 <= i < |rs| ==> RolloutOk(cfg, rs[i])
  }

  /** The outcomes of the generation batches in order, until the loop is over. */
  ghost function Run(cfg: Config, c: Carry, rs: seq<Rollout>): (res: (seq<Outcome>, Carry))
    requires cfg.n > 0 && AllOk(cfg, rs) && PoolOk(c.pool)
    ensures PoolOk(res.1.pool)
  {
    if rs == [] then ([], c)
    else
      var before := Run(cfg, c, rs[..|rs| - 1]);
      if Stopped(before.0) then before
      else
        var step := StepSpec(cfg, before.1, rs[|rs| - 1]);
        (before.0 + [step.0], step.1)
  }

  ghost function UsedBy(rs: seq<Rollout>): set<nat> {
    if rs == [] then {} else UsedBy(rs[..|rs| - 1]) + SetOf(rs[|rs| - 1].uids)
  }

  /** No two generation batches share a uid. */
  ghost predicate AllFresh(rs: seq<Rollout>) {
    forall i, j, u: nat :: 0 <= i < j < |rs| && u in rs[j].uids ==> u !in rs[i].uids
  }

  lemma {:induction false} LastIsFresh(rs: seq<Rollout>, u: nat)
    requires AllFresh(rs) && rs != [] && u in rs[|rs| - 1].uids
    ensures AllFresh(rs[..|rs| - 1]) && u !in UsedBy(rs[..|rs| - 1])
  {
    NotUsed(rs[..|rs| - 1], u);
  }

  lemma {:induction false} NotUsed(rs: seq<Rollout>, u: nat)
    requires forall i :: 0 <= i < |rs| ==> u !in rs[i].uids
    ensures u !in UsedBy(rs)
  {
    if rs != [] {
      NotUsed(rs[..|rs| - 1], u);
    }
  }

  // ---------- counting outcomes ----------

  function Continues(outs: seq<Outcome>): nat {
    if outs == [] then 0
    else Continues(outs[..|outs| - 1]) + if outs[|outs| - 1].Continued? then 1 else 0
  }

  function Updates(outs: seq<Outcome>): nat {
    if outs == [] then 0
    else Updates(outs[..|outs| - 1]) + if outs[|outs| - 1].Updated? then 1 else 0
  }

  /** How many generation batches in a row went by without an update. */
  function Trailing(outs: seq<Outcome>): nat {
    if outs == [] || !outs[|outs| - 1].Continued? then 0 else Trailing(outs[..|outs| - 1]) + 1
  }

  // ---------- the filtered batches of a stretch of the run ----------

  /** What a generation batch leaves after filtering. */
  ghost function Left(cfg: Config, r: Rollout): DataProto
    requires cfg.n > 0 && cfg.filtering && RolloutOk(cfg, r)
  {
    if Gen(cfg, r).Ok? then Gen(cfg, r).value.0 else r.prompts
  }

  ghost function LeftAll(cfg: Config, rs: seq<Rollout>): (s: seq<DataProto>)
    requires cfg.n > 0 && cfg.filtering && AllOk(cfg, rs)
    ensures |s| == |rs| && forall i :: 0 <= i < |s| ==> s[i] == Left(cfg, rs[i])
  {
    seq(|rs|, i requires 0 <= i < |rs| => Left(cfg, rs[i]))
  }

  /** An update joins what was left of the generation batches since the one before it, in order. */
  ghost predicate UpdateRows(cfg: Config, left: seq<DataProto>, outs: seq<Outcome>, j: nat)
    requires j < |outs| <= |left| && outs[j].Updated?
  {
    var gens := outs[j].gens;
    gens == Trailing(outs[..j]) + 1 <= j + 1 && TakesAll(cfg, left[j + 1 - gens..j + 1], outs[j])
  }

  ghost predicate TakesAll(cfg: Config, left: seq<DataProto>, o: Outcome) {
    && left != [] && o.Updated? && FoldConcat(left).Ok? && Valid(FoldConcat(left).value)
    && o.batch == Take(FoldConcat(left).value, cfg.trainBatch * cfg.n)
  }

  /** The carried pool is what was left of the batches since the last update. */
  ghost predicate PoolIsLeft(left: seq<DataProto>, outs: seq<Outcome>, pool: seq<DataProto>) {
    |outs| == |left| && Trailing(outs) == |pool| <= |left| && pool == left[|left| - |pool|..]
  }

  /** A new batch joins the pool, or joins it for the update. */
  ghost predicate Takes(cfg: Config, c: Carry, d: DataProto, o: Outcome, next: Carry) {
    && (o.Continued? ==> next.pool == c.pool + [d])
    && (o.Updated? ==> TakesAll(cfg, c.pool + [d], o))
  }

  lemma {:induction false} AccumulateRows(cfg: Config, c: Carry, d: DataProto, prompts: nat)
    requires PoolOk(c.pool) && Valid(d)
    ensures var (o, next) := Accumulate(cfg, c, d, prompts); Takes(cfg, c, d, o, next)
  {
    PoolGrows(c.pool, d);
    hide FoldConcat;
  }

  lemma {:induction false} StepRows(cfg: Config, c: Carry, r: Rollout)
    requires cfg.n > 0 && cfg.filtering && RolloutOk(cfg, r) && PoolOk(c.pool)
    ensures var (o, next) := StepSpec(cfg, c, r); Takes(cfg, c, Left(cfg, r), o, next)
  {
    hide Gen, RolloutOk, Takes, Accumulate;
    if Gen(cfg, r).Ok? {
      GenValid(cfg, r);
      AccumulateRows(cfg, c, Gen(cfg, r).value.0, c.numPrompt + Gen(cfg, r).value.1);
    } else {
      FailedTakes(cfg, c, Left(cfg, r), Gen(cfg, r).error);
    }
  }

  lemma {:induction false} FailedTakes(cfg: Config, c: Carry, d: DataProto, e: Failure)
    ensures Takes(cfg, c, d, Failed(e), c)
  {}

  /** A fresh start: nothing carried over. */
  ghost predicate Fresh(cfg: Config, c: Carry) {
    cfg.n > 0 && c.pool == [] && c.numPrompt == 0 && c.numGen == 0
  }

  /** At every loop head the carried batch holds numPrompt * n rows in complete groups (nothing after a
      reset), and every update so far got exactly trainBatch complete groups of n side-by-side rollouts of
      one prompt, with differing metric values unless n is 1, from at most maxGen generation batches. */
  lemma {:induction false} RunSafe(cfg: Config, c: Carry, rs: seq<Rollout>)
    requires Fresh(cfg, c) && AllOk(cfg, rs) && AllFresh(rs)
    ensures var (outs, head) := Run(cfg, c, rs);
            && (forall j :: 0 <= j < |outs| ==> UpdateOk(cfg, outs[j]))
            && (!Stopped(outs) ==> CarryOk(cfg, head, UsedBy(rs)))
  {
    FreshCarry(cfg, c);
    hide RolloutOk, StepSpec, UpdateOk, CarryOk, PoolOk;
    if rs != [] {
      var init, r := rs[..|rs| - 1], rs[|rs| - 1];
      RunSafe(cfg, c, init);
      var before := Run(cfg, c, init);
      if !Stopped(before.0) {
        forall u | u in r.uids
          ensures u !in UsedBy(init)
        {
          LastIsFresh(rs, u);
        }
        StepKeeps(cfg, before.1, r, UsedBy(init));
        var (outs, head) := Run(cfg, c, rs);
        assert outs[|outs| - 1] == StepSpec(cfg, before.1, r).0;
      }
    }
  }

  lemma {:induction false} FreshCarry(cfg: Config, c: Carry)
    requires Fresh(cfg, c)
    ensures CarryOk(cfg, c, {}) && PoolOk(c.pool)
  {}

  /** How one iteration moves the counters. */
  lemma {:induction false} StepCounts(cfg: Config, c: Carry, r: Rollout)
    requires cfg.n > 0 && RolloutOk(cfg, r) && PoolOk(c.pool)
    ensures var (o, next) := StepSpec(cfg, c, r);
            && (o.Continued? ==> next.genSteps == c.genSteps + 1 && next.globalSteps == c.globalSteps && next.numGen == c.numGen + 1)
            && (o.Failed? ==> next == c)
            && (o.Updated? ==>
                  && (o.last <==> c.globalSteps >= cfg.totalSteps)
                  && next.globalSteps - c.globalSteps == next.genSteps - c.genSteps == (if o.last then 0 else 1)
                  && next.pool == [] && next.numGen == 0 && next.numPrompt == 0 && o.gens == c.numGen + 1)
  {
    hide Gen, RolloutOk, Gathered, NewBatch;
  }

  ghost predicate RowsOk(cfg: Config, left: seq<DataProto>, outs: seq<Outcome>) {
    |outs| <= |left| && forall j :: 0 <= j < |outs| && outs[j].Updated? ==> UpdateRows(cfg, left, outs, j)
  }

  lemma {:induction false} RowsStay(cfg: Config, left: seq<DataProto>, d: DataProto, prior: seq<Outcome>)
    requires RowsOk(cfg, left, prior)
    ensures RowsOk(cfg, left + [d], prior)
  {
    hide TakesAll;
    forall j | 0 <= j < |prior| && prior[j].Updated?
      ensures UpdateRows(cfg, left + [d], prior, j)
    {
      assert UpdateRows(cfg, left, prior, j);
      var gens := prior[j].gens;
      assert (left + [d])[j + 1 - gens..j + 1] == left[j + 1 - gens..j + 1];
    }
  }

  lemma {:induction false} RowsMore(cfg: Config, left: seq<DataProto>, prior: seq<Outcome>, o: Outcome)
    requires RowsOk(cfg, left, prior) && |prior| + 1 == |left|
    requires o.Updated? ==> UpdateRows(cfg, left, prior + [o], |prior|)
    ensures RowsOk(cfg, left, prior + [o])
  {
    hide TakesAll;
    var outs := prior + [o];
    forall j | 0 <= j < |outs| && outs[j].Updated?
      ensures UpdateRows(cfg, left, outs, j)
    {
      if j < |prior| {
        assert UpdateRows(cfg, left, prior, j);
        assert outs[..j] == prior[..j];
      }
    }
  }

  lemma {:induction false} AfterContinue(left: seq<DataProto>, d: DataProto, prior: seq<Outcome>, pool: seq<DataProto>)
    requires PoolIsLeft(left, prior, pool)
    ensures PoolIsLeft(left + [d], prior + [Continued], pool + [d])
  {
    assert (prior + [Continued])[..|prior|] == prior;
  }

  lemma {:induction false} AfterUpdate(cfg: Config, left: seq<DataProto>, d: DataProto, prior: seq<Outcome>, pool: seq<DataProto>, o: Outcome)
    requires PoolIsLeft(left, prior, pool) && o.Updated? && TakesAll(cfg, pool + [d], o) && o.gens == |pool| + 1
    ensures PoolIsLeft(left + [d], prior + [o], []) && UpdateRows(cfg, left + [d], prior + [o], |prior|)
  {
    hide TakesAll;
    var more, outs := left + [d], prior + [o];
    assert outs[..|prior|] == prior && outs[|prior|] == o;
    assert more[|prior| + 1 - o.gens..|prior| + 1] == pool + [d];
    assert more[|more| - 0..] == [];
  }

  /** Every update joins exactly the generation batches since the previous update, in generation order. */
  lemma {:induction false} RunRows(cfg: Config, c: Carry, rs: seq<Rollout>)
    requires Fresh(cfg, c) && cfg.filtering && AllOk(cfg, rs)
    ensures var (outs, head) := Run(cfg, c, rs);
            && RowsOk(cfg, LeftAll(cfg, rs), outs)
            && (!Stopped(outs) ==> PoolIsLeft(LeftAll(cfg, rs), outs, head.pool) && head.numGen == |head.pool|)
  {
    FreshCarry(cfg, c);
    hide RolloutOk, StepSpec, FoldConcat, PoolOk, PoolIsLeft, RowsOk, Takes, Left, LeftAll;
    if rs == [] {
      NothingLeft(cfg);
    } else {
      var m := |rs| - 1;
      RunRows(cfg, c, rs[..m]);
      LeftMore(cfg, rs);
      var before := Run(cfg, c, rs[..m]);
      RowsStay(cfg, LeftAll(cfg, rs[..m]), Left(cfg, rs[m]), before.0);
      if !Stopped(before.0) {
        NextRows(cfg, before.1, rs[m], LeftAll(cfg, rs[..m]), before.0);
      }
    }
  }

  lemma {:induction false} LeftMore(cfg: Config, rs: seq<Rollout>)
    requires cfg.n > 0 && cfg.filtering && AllOk(cfg, rs) && rs != []
    ensures AllOk(cfg, rs[..|rs| - 1])
    ensures LeftAll(cfg, rs) == LeftAll(cfg, rs[..|rs| - 1]) + [Left(cfg, rs[|rs| - 1])]
  {
    hide RolloutOk, Left;
  }

  lemma {:induction false} NextRows(cfg: Config, c: Carry, r: Rollout, left: seq<DataProto>, prior: seq<Outcome>)
    requires cfg.n > 0 && cfg.filtering && RolloutOk(cfg, r) && PoolOk(c.pool)
    requires PoolIsLeft(left, prior, c.pool) && c.numGen == |c.pool| && RowsOk(cfg, left + [Left(cfg, r)], prior)
    ensures var step, more := StepSpec(cfg, c, r), left + [Left(cfg, r)];
            && RowsOk(cfg, more, prior + [step.0])
            && (!step.0.Failed? ==> PoolIsLeft(more, prior + [step.0], step.1.pool) && step.1.numGen == |step.1.pool|)
  {
    var (o, next) := StepSpec(cfg, c, r);
    var d := Left(cfg, r);
    StepRows(cfg, c, r);
    StepCounts(cfg, c, r);
    assert |prior| == |left|;
    hide RolloutOk, StepSpec, FoldConcat, PoolOk, PoolIsLeft, UpdateRows, RowsOk, TakesAll, Left;
    if o.Continued? {
      AfterContinue(left, d, prior, c.pool);
    } else if o.Updated? {
      AfterUpdate(cfg, left, d, prior, c.pool, o);
    }
    RowsMore(cfg, left + [d], prior, o);
  }

  lemma {:induction false} NothingLeft(cfg: Config)
    ensures PoolIsLeft([], [], []) && RowsOk(cfg, [], [])
  {}

  /** `gen_steps - global_steps` grows by one per `continue` and by nothing else; every update but the last
      one is one global step, and the counter never passes the configured total unless it started behind it. */
  lemma {:induction false} RunCounts(cfg: Config, c: Carry, rs: seq<Rollout>)
    requires Fresh(cfg, c) && AllOk(cfg, rs)
    ensures var (outs, head) := Run(cfg, c, rs);
            var done := if Stopped(outs) && outs[|outs| - 1].Updated? then 1 else 0;
            && (head.genSteps - head.globalSteps) - (c.genSteps - c.globalSteps) == Continues(outs)
            && head.globalSteps == c.globalSteps + Updates(outs) - done
            && (c.globalSteps <= head.globalSteps && (head.globalSteps <= cfg.totalSteps || head.globalSteps == c.globalSteps))
            && (done == 1 ==> head.globalSteps >= cfg.totalSteps)
  {
    FreshCarry(cfg, c);
    hide RolloutOk, StepSpec, PoolOk;
    if rs != [] {
      var init, r := rs[..|rs| - 1], rs[|rs| - 1];
      RunCounts(cfg, c, init);
      var before := Run(cfg, c, init);
      if !Stopped(before.0) {
        StepCounts(cfg, before.1, r);
        var outs := Run(cfg, c, rs).0;
        assert outs[..|outs| - 1] == before.0;
      }
    }
  }

  /** Once stopped, the rest of the data is not looked at. */
  lemma {:induction false} RunStopped(cfg: Config, c: Carry, a: seq<Rollout>, b: seq<Rollout>)
    requires cfg.n > 0 && AllOk(cfg, a + b) && PoolOk(c.pool)
    requires AllOk(cfg, a) && Stopped(Run(cfg, c, a).0)
    ensures Run(cfg, c, a + b) == Run(cfg, c, a)
    decreases |b|
  {
    hide RolloutOk, StepSpec, PoolOk;
    if b == [] {
      assert a + b == a;
    } else {
      var m := |b| - 1;
      assert (a + b)[..|a + b| - 1] == a + b[..m];
      RunStopped(cfg, c, a, b[..m]);
    }
  }
}
