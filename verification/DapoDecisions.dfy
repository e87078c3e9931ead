/** When the DAPO loop updates, goes on and gives up
    (recipe/dapo/dapo_ray_trainer_for_tar.py:176, 320-321, 349-353, 389-409, 521-530). */
module DapoDecisions {
  import opened Wrappers
  import opened Arith
  import opened RowTable
  import opened ConcatBatches
  import opened GroupedRows
  import opened DapoRun
  import opened DapoSafety

  // ---------- one outcome after the other ----------

  /** The outcomes of a prefix of the data are a prefix of the outcomes, and the loop is not over before the
      last of them. */
  lemma {:induction false} RunPrefix(cfg: Config, c: Carry, rs: seq<Rollout>, j: nat)
    requires cfg.n > 0 && AllOk(cfg, rs) && PoolOk(c.pool) && j < |Run(cfg, c, rs).0|
    ensures |Run(cfg, c, rs).0| <= |rs| && AllOk(cfg, rs[..j])
    ensures var outs, before := Run(cfg, c, rs).0, Run(cfg, c, rs[..j]);
            before.0 == outs[..j] && !Stopped(before.0) && outs[j] == StepSpec(cfg, before.1, rs[j]).0
    decreases |rs|
  {
    hide RolloutOk, StepSpec, PoolOk, Stopped;
    var m := |rs| - 1;
    var prior := Run(cfg, c, rs[..m]);
    RunLength(cfg, c, rs);
    RunLength(cfg, c, rs[..m]);
    if j < |prior.0| {
      RunPrefix(cfg, c, rs[..m], j);
      assert rs[..m][..j] == rs[..j];
    }
  }

  /** Every generation batch has an outcome until the loop is over. */
  lemma {:induction false} RunLength(cfg: Config, c: Carry, rs: seq<Rollout>)
    requires cfg.n > 0 && AllOk(cfg, rs) && PoolOk(c.pool)
    ensures var outs := Run(cfg, c, rs).0; |outs| <= |rs| && (!Stopped(outs) ==> |outs| == |rs|)
  {
    hide RolloutOk, StepSpec, PoolOk, Stopped;
    if rs != [] {
      RunLength(cfg, c, rs[..|rs| - 1]);
    }
  }

  // ---------- with group filtering ----------

  /** Update with enough rows, go on with fewer while the limit allows another generation batch, otherwise
      raise; `gens` counts the generation batches joined. */
  ghost predicate Decision(cfg: Config, joined: Result<DataProto, ConcatError>, gens: nat, o: Outcome) {
    && (o == Failed(ConcatFailed) <==> joined.Err?)
    && (joined.Ok? ==>
          var enough := joined.value.size >= cfg.trainBatch * cfg.n;
          && (o.Updated? <==> enough)
          && (o == Continued <==> !enough && (cfg.maxGen <= 0 || gens < cfg.maxGen))
          && (o == Failed(GeneratedTooMany) <==> !enough && cfg.maxGen > 0 && gens >= cfg.maxGen))
  }

  /** The counters speak about the carried batch. */
  ghost predicate Counted(cfg: Config, c: Carry) {
    && PoolOk(c.pool) && c.numGen == |c.pool|
    && (if c.pool == [] then c.numPrompt == 0 else FoldConcat(c.pool).value.size == c.numPrompt * cfg.n)
  }

  lemma {:induction false} JoinedSize(cfg: Config, c: Carry, d: DataProto, kept: nat)
    requires cfg.n > 0 && Counted(cfg, c) && Valid(d) && d.size == kept * cfg.n && FoldConcat(c.pool + [d]).Ok?
    ensures PoolOk(c.pool + [d]) && FoldConcat(c.pool + [d]).value.size == (c.numPrompt + kept) * cfg.n
  {
    hide FoldConcat, ConcatAll;
    PoolGrows(c.pool, d);
    Distribute(c.numPrompt, kept, cfg.n);
    if c.pool != [] {
      var acc := FoldConcat(c.pool).value;
      ConcatAligned([acc, d]);
      TwoKeys(acc, d);
    }
  }

  lemma {:induction false} EnoughRows(prompts: nat, needed: nat, n: nat)
    requires n > 0
    ensures prompts >= needed <==> prompts * n >= needed * n
  {
    if prompts >= needed {
      MulMono(needed, prompts, n);
    } else {
      MulMono(prompts + 1, needed, n);
      MulOne(prompts, n);
    }
  }

  lemma {:induction false} AccumulateDecides(cfg: Config, c: Carry, d: DataProto, kept: nat)
    requires cfg.n > 0 && Counted(cfg, c) && Valid(d) && d.size == kept * cfg.n
    ensures var (o, next) := Accumulate(cfg, c, d, c.numPrompt + kept);
            Decision(cfg, FoldConcat(c.pool + [d]), |c.pool| + 1, o) && (!o.Failed? ==> Counted(cfg, next))
  {
    hide FoldConcat;
    PoolGrows(c.pool, d);
    EnoughRows(c.numPrompt + kept, cfg.trainBatch, cfg.n);
    if FoldConcat(c.pool + [d]).Ok? {
      JoinedSize(cfg, c, d, kept);
    }
  }

  lemma {:induction false} StepDecides(cfg: Config, c: Carry, r: Rollout)
    requires cfg.n > 0 && cfg.filtering && RolloutOk(cfg, r) && Counted(cfg, c)
    ensures var (o, next) := StepSpec(cfg, c, r);
            && (Gen(cfg, r).Err? ==> o == Failed(Gen(cfg, r).error))
            && (Gen(cfg, r).Ok? ==> Decision(cfg, FoldConcat(c.pool + [Left(cfg, r)]), |c.pool| + 1, o))
            && (!o.Failed? ==> Counted(cfg, next))
  {
    hide Gen, RolloutOk, Accumulate, Decision, Counted, CompleteGroups;
    CountedPool(cfg, c);
    if Gen(cfg, r).Ok? {
      GenValid(cfg, r);
      GenComplete(cfg, r);
      AccumulateDecides(cfg, c, Gen(cfg, r).value.0, Gen(cfg, r).value.1);
    }
  }

  lemma {:induction false} CountedPool(cfg: Config, c: Carry)
    requires Counted(cfg, c)
    ensures PoolOk(c.pool)
  {}

  lemma {:induction false} RunCounted(cfg: Config, c: Carry, rs: seq<Rollout>)
    requires Fresh(cfg, c) && cfg.filtering && AllOk(cfg, rs)
    ensures !Stopped(Run(cfg, c, rs).0) ==> Counted(cfg, Run(cfg, c, rs).1)
  {
    FreshCarry(cfg, c);
    if rs == [] {
      assert Counted(cfg, c);
    } else {
      hide RolloutOk, StepSpec, PoolOk, Counted, Decision, FoldConcat, Gen;
      var m := |rs| - 1;
      RunCounted(cfg, c, rs[..m]);
      var before := Run(cfg, c, rs[..m]);
      if !Stopped(before.0) {
        StepDecides(cfg, before.1, rs[m]);
      }
    }
  }

  /** What decides an outcome: the new batch, and the join of `left`, the filtered batches since the last
      update with the new one; `before` are the outcomes so far. */
  ghost predicate Decided(cfg: Config, c: Carry, before: seq<Outcome>, left: seq<DataProto>, r: Rollout, o: Outcome)
    requires cfg.n > 0 && cfg.filtering && RolloutOk(cfg, r) && left != []
  {
    && (Gen(cfg, r).Err? ==> o == Failed(Gen(cfg, r).error))
    && (Gen(cfg, r).Ok? ==> Decision(cfg, FoldConcat(left), |left|, o))
    && (o.Updated? ==> (o.last <==> c.globalSteps + Updates(before) >= cfg.totalSteps))
  }

  ghost predicate DecidedAt(cfg: Config, c: Carry, rs: seq<Rollout>, outs: seq<Outcome>, j: nat)
    requires cfg.n > 0 && cfg.filtering && AllOk(cfg, rs)
  {
    j < |outs| && j < |rs| &&
    var waiting := Trailing(outs[..j]);
    waiting <= j && Decided(cfg, c, outs[..j], LeftAll(cfg, rs)[j - waiting..j + 1], rs[j], outs[j])
  }

  lemma {:induction false} OutcomeDecided(cfg: Config, c: Carry, rs: seq<Rollout>, j: nat)
    requires cfg.n > 0 && Fresh(cfg, c) && cfg.filtering && AllOk(cfg, rs) && PoolOk(c.pool)
    requires j < |Run(cfg, c, rs).0|
    ensures DecidedAt(cfg, c, rs, Run(cfg, c, rs).0, j)
  {
    hide RolloutOk, AllOk, Fresh, StepSpec, PoolOk, Decided, DecidedAt, Left, LeftAll, Run, Stopped, Trailing;
    RunPrefix(cfg, c, rs, j);
    OkAt(cfg, rs, j);
    PoolBefore(cfg, c, rs, j);
    DecidedByHead(cfg, c, rs, j);
    var outs, head := Run(cfg, c, rs).0, Run(cfg, c, rs[..j]).1;
    Assemble(cfg, c, rs, outs, j, head.pool + [Left(cfg, rs[j])]);
  }

  /** Every outcome of every run is decided by what the generation batches since the last update leave: an
      error of the new batch is passed on; otherwise these batches are joined, and the loop updates if and only
      if they have at least trainBatch * n rows, goes on if and only if they have fewer and the limit is not
      reached, and gives up otherwise. An update is the last if and only if the total number of steps is
      reached. */
  lemma {:induction false} RunDecides(cfg: Config, c: Carry, rs: seq<Rollout>, j: nat)
    requires Fresh(cfg, c) && cfg.filtering && AllOk(cfg, rs) && j < |Run(cfg, c, rs).0|
    ensures DecidedAt(cfg, c, rs, Run(cfg, c, rs).0, j)
  {
    FreshCarry(cfg, c);
    hide RolloutOk, AllOk, PoolOk, DecidedAt, Run;
    OutcomeDecided(cfg, c, rs, j);
  }

  lemma {:induction false} OkAt(cfg: Config, rs: seq<Rollout>, j: nat)
    requires AllOk(cfg, rs) && j < |rs|
    ensures RolloutOk(cfg, rs[j])
  {}

  lemma {:induction false} Assemble(cfg: Config, c: Carry, rs: seq<Rollout>, outs: seq<Outcome>, j: nat, left: seq<DataProto>)
    requires cfg.n > 0 && cfg.filtering && AllOk(cfg, rs) && j < |outs| && j < |rs|
    requires Trailing(outs[..j]) <= j && left == LeftAll(cfg, rs)[j - Trailing(outs[..j])..j + 1]
    requires Decided(cfg, c, outs[..j], left, rs[j], outs[j])
    ensures DecidedAt(cfg, c, rs, outs, j)
  {
    hide RolloutOk, Decided, LeftAll;
  }

  /** What is carried into iteration j is what was left since the last update. */
  lemma {:induction false} PoolBefore(cfg: Config, c: Carry, rs: seq<Rollout>, j: nat)
    requires Fresh(cfg, c) && cfg.filtering && AllOk(cfg, rs) && j < |rs| && AllOk(cfg, rs[..j]) && PoolOk(c.pool)
    requires !Stopped(Run(cfg, c, rs[..j]).0)
    ensures var (outs, head) := Run(cfg, c, rs[..j]);
            && Trailing(outs) == |head.pool| <= j
            && LeftAll(cfg, rs)[j - |head.pool|..j + 1] == head.pool + [Left(cfg, rs[j])]
  {
    hide RolloutOk, PoolOk, Left, Run, RowsOk, Stopped;
    RunRows(cfg, c, rs[..j]);
    var left, pool := LeftAll(cfg, rs), Run(cfg, c, rs[..j]).1.pool;
    assert LeftAll(cfg, rs[..j]) == left[..j];
    assert left[j - |pool|..j + 1] == pool + [Left(cfg, rs[j])];
  }

  lemma {:induction false} DecidedByHead(cfg: Config, c: Carry, rs: seq<Rollout>, j: nat)
    requires Fresh(cfg, c) && cfg.filtering && AllOk(cfg, rs) && j < |rs| && AllOk(cfg, rs[..j]) && PoolOk(c.pool)
    requires !Stopped(Run(cfg, c, rs[..j]).0)
    ensures var (outs, head) := Run(cfg, c, rs[..j]);
            Decided(cfg, c, outs, head.pool + [Left(cfg, rs[j])], rs[j], StepSpec(cfg, head, rs[j]).0)
  {
    hide RolloutOk, StepSpec, PoolOk, Counted, Decision, FoldConcat, Gen, Left, Run;
    RunCounted(cfg, c, rs[..j]);
    RunCounts(cfg, c, rs[..j]);
    StepDecides(cfg, Run(cfg, c, rs[..j]).1, rs[j]);
    StepCounts(cfg, Run(cfg, c, rs[..j]).1, rs[j]);
  }

  // ---------- without ----------

  lemma {:induction false} StepUnfiltered(cfg: Config, c: Carry, r: Rollout)
    requires cfg.n > 0 && !cfg.filtering && RolloutOk(cfg, r) && PoolOk(c.pool)
    ensures var (o, next) := StepSpec(cfg, c, r);
            && (NewBatch(cfg, r).Err? ==> o == Failed(NewBatch(cfg, r).error))
            && (NewBatch(cfg, r).Ok? ==>
                  o == Updated(NewBatch(cfg, r).value, c.numGen + 1, c.globalSteps >= cfg.totalSteps) && next.numGen == 0)
  {
    hide NewBatch, RolloutOk;
  }

  lemma {:induction false} UnfilteredFresh(cfg: Config, c: Carry, rs: seq<Rollout>)
    requires Fresh(cfg, c) && !cfg.filtering && AllOk(cfg, rs)
    ensures !Stopped(Run(cfg, c, rs).0) ==> Run(cfg, c, rs).1.numGen == 0
  {
    FreshCarry(cfg, c);
    hide RolloutOk, StepSpec, PoolOk, NewBatch;
    if rs != [] {
      var m := |rs| - 1;
      UnfilteredFresh(cfg, c, rs[..m]);
      var before := Run(cfg, c, rs[..m]);
      if !Stopped(before.0) {
        StepUnfiltered(cfg, before.1, rs[m]);
      }
    }
  }

  ghost predicate Whole(cfg: Config, c: Carry, before: seq<Outcome>, r: Rollout, o: Outcome) {
    var b := NewBatch(cfg, r);
    if b.Err? then o == Failed(b.error)
    else o == Updated(b.value, 1, c.globalSteps + Updates(before) >= cfg.totalSteps)
  }

  lemma {:induction false} WholeByHead(cfg: Config, c: Carry, rs: seq<Rollout>, j: nat)
    requires Fresh(cfg, c) && !cfg.filtering && AllOk(cfg, rs) && j < |rs| && AllOk(cfg, rs[..j]) && PoolOk(c.pool)
    requires !Stopped(Run(cfg, c, rs[..j]).0)
    ensures var (outs, head) := Run(cfg, c, rs[..j]); Whole(cfg, c, outs, rs[j], StepSpec(cfg, head, rs[j]).0)
  {
    hide RolloutOk, StepSpec, PoolOk, NewBatch, Run;
    UnfilteredFresh(cfg, c, rs[..j]);
    RunCounts(cfg, c, rs[..j]);
    StepUnfiltered(cfg, Run(cfg, c, rs[..j]).1, rs[j]);
  }

  /** With filtering off every generation batch is an update of its own, whole, or raises its error. */
  lemma {:induction false} RunUnfiltered(cfg: Config, c: Carry, rs: seq<Rollout>, j: nat)
    requires Fresh(cfg, c) && !cfg.filtering && AllOk(cfg, rs) && j < |Run(cfg, c, rs).0|
    ensures var outs := Run(cfg, c, rs).0; j < |rs| && Whole(cfg, c, outs[..j], rs[j], outs[j])
  {
    FreshCarry(cfg, c);
    hide RolloutOk, StepSpec, PoolOk, Whole, Run, Stopped;
    RunPrefix(cfg, c, rs, j);
    WholeByHead(cfg, c, rs, j);
  }
}
