/** `RayDAPOTrainer.fit` (recipe/dapo/dapo_ray_trainer_for_tar.py:94-148, 320-409, 513-530) as the loops run
    it, reduced to sampling, counters and the batch handed to the update. */
module DapoTrainer {
  import opened Wrappers
  import opened RowTable
  import opened ConcatBatches
  import opened GroupFilter
  import opened GroupedRows
  import opened DapoRun
  import opened DapoSafety
  import Dispatch

  /** Filter one generation batch: the kept rows and the number of kept prompts. */
  method FilterBatch(d: DataProto, metric: string) returns (left: DataProto, kept: nat)
    requires Labelled(d, metric)
    ensures left == FilteredBatch(d, metric) && kept == |KeptOf(d, metric)|
  {
    hide KeptPrompts, Prompts;
    var uids, vals := IdsOf(d.nonTensor["uid"].cells), NumsOf(d.nonTensor[metric].cells);
    var prompts, rows := FilterGroups(uids, vals);
    KeptRowsBelow(uids, prompts);
    left, kept := Select(d, rows), |prompts|;
  }

  function Flat(loader: seq<seq<Rollout>>): seq<Rollout> {
    if loader == [] then [] else Flat(loader[..|loader| - 1]) + loader[|loader| - 1]
  }

  ghost predicate LoaderOk(cfg: Config, loader: seq<seq<Rollout>>) {
    forall e :: 0 <= e < |loader| ==> AllOk(cfg, loader[e])
  }

  lemma {:induction false} FlatOk(cfg: Config, loader: seq<seq<Rollout>>)
    requires LoaderOk(cfg, loader)
    ensures AllOk(cfg, Flat(loader))
  {
    hide RolloutOk;
    if loader != [] {
      FlatOk(cfg, loader[..|loader| - 1]);
    }
  }

  lemma {:induction false} FlatSplit(loader: seq<seq<Rollout>>, e: nat) returns (rest: seq<Rollout>)
    requires e <= |loader|
    ensures Flat(loader) == Flat(loader[..e]) + rest
    decreases |loader|
  {
    var m := |loader| - 1;
    if e == |loader| {
      rest := [];
      assert loader[..e] == loader;
    } else {
      rest := FlatSplit(loader[..m], e);
      assert loader[..m][..e] == loader[..e];
      rest := rest + loader[m];
    }
  }

  lemma {:induction false} RunMore(cfg: Config, c: Carry, rs: seq<Rollout>, r: Rollout)
    requires cfg.n > 0 && AllOk(cfg, rs) && RolloutOk(cfg, r) && PoolOk(c.pool) && !Stopped(Run(cfg, c, rs).0)
    ensures AllOk(cfg, rs + [r])
    ensures var step := StepSpec(cfg, Run(cfg, c, rs).1, r);
            Run(cfg, c, rs + [r]) == (Run(cfg, c, rs).0 + [step.0], step.1)
  {
    hide RolloutOk, StepSpec, PoolOk;
    assert (rs + [r])[..|rs|] == rs;
  }

  class Trainer {
    const cfg: Config
    var globalSteps: int
    var genSteps: int
    var batch: Option<DataProto>
    var numPrompt: nat
    var numGen: nat
    ghost var pool: seq<DataProto>

    /** The carried batch is the pairwise concatenation of the filtered batches in the pool. */
    ghost predicate Holds()
      reads this
    {
      && cfg.n > 0 && PoolOk(pool)
      && (batch.None? <==> pool == [])
      && (pool != [] ==> FoldConcat(pool) == Ok(batch.value))
    }

    ghost function Head(): Carry
      reads this
    {
      Carry(globalSteps, genSteps, numPrompt, numGen, pool)
    }

    constructor (cfg: Config)
      requires cfg.n > 0
      ensures this.cfg == cfg && Holds() && pool == [] && numPrompt == 0 && numGen == 0
    {
      this.cfg := cfg;
      globalSteps, genSteps, batch, numPrompt, numGen, pool := 0, 0, None, 0, 0, [];
    }

    /** The update takes the batch; then the round starts anew and, unless it was the last, a new step. */
    method Finish(b: DataProto) returns (o: Outcome)
      requires cfg.n > 0 && numGen > 0
      modifies this
      ensures Holds()
      ensures var was := Carry(old(globalSteps), old(genSteps), old(numPrompt), old(numGen) - 1, old(pool));
              (o, Head()) == Update(cfg, was, b)
    {
      var last := globalSteps >= cfg.totalSteps;
      o := Updated(b, numGen, last);
      Reset();
      if !last {
        globalSteps, genSteps := globalSteps + 1, genSteps + 1;
      }
    }

    /** One generation batch. */
    method Step(r: Rollout) returns (o: Outcome)
      requires Holds() && RolloutOk(cfg, r)
      modifies this
      ensures o == StepSpec(cfg, old(Head()), r).0
      ensures !o.Failed? ==> Holds() && Head() == StepSpec(cfg, old(Head()), r).1
      ensures o.Failed? ==> globalSteps == old(globalSteps) && genSteps == old(genSteps)
    {
      hide NewBatch, RolloutOk, FoldConcat, FilteredBatch, KeptOf, WithMetric;
      numGen := numGen + 1;
      var b := NewBatch(cfg, r);
      if b.Err? {
        return Failed(b.error);
      }
      if !cfg.filtering {
        o := Finish(b.value);
        return;
      }
      MetricBatch(cfg, r);
      var m := WithMetric(b.value, cfg.metric);
      if m.Err? {
        return Failed(m.error);
      }
      var left, kept := FilterBatch(m.value, cfg.metric);
      GenValid(cfg, r);
      o := Gather(left, kept);
    }

    /** Join the filtered batch to the carried one. */
    method Join(left: DataProto) returns (joined: bool)
      requires Holds() && Valid(left)
      modifies this`batch, this`pool
      ensures joined <==> Gathered(old(pool), left).Ok?
      ensures joined ==> Holds() && pool == old(pool) + [left] && batch == Some(Gathered(old(pool), left).value)
    {
      PoolGrows(pool, left);
      hide FoldConcat, PoolOk, ConcatAll;
      ghost var all := Gathered(pool, left);
      if batch.None? {
        batch := Some(left);
      } else {
        var r := Dispatch.Concat([batch.value, left]);
        if r.Err? {
          return false;
        }
        batch := Some(r.value);
      }
      pool := pool + [left];
      return true;
    }

    /** Join, then update, continue or give up. */
    method Gather(left: DataProto, kept: nat) returns (o: Outcome)
      requires Holds() && Valid(left) && numGen > 0
      modifies this
      ensures var was := Carry(old(globalSteps), old(genSteps), old(numPrompt), old(numGen) - 1, old(pool));
              && o == Accumulate(cfg, was, left, old(numPrompt) + kept).0
              && (!o.Failed? ==> Holds() && Head() == Accumulate(cfg, was, left, old(numPrompt) + kept).1)
      ensures o.Failed? ==> globalSteps == old(globalSteps) && genSteps == old(genSteps)
    {
      hide PoolOk, Gathered, FoldConcat;
      numPrompt := numPrompt + kept;
      var joined := Join(left);
      if !joined {
        return Failed(ConcatFailed);
      }
      if numPrompt < cfg.trainBatch {
        if cfg.maxGen <= 0 || numGen < cfg.maxGen {
          genSteps := genSteps + 1;
          o := Continued;
        } else {
          o := Failed(GeneratedTooMany);
        }
      } else {
        o := Finish(Take(batch.value, cfg.trainBatch * cfg.n));
      }
    }

    method Reset()
      requires cfg.n > 0
      modifies this
      ensures Holds() && Head() == Carry(old(globalSteps), old(genSteps), 0, 0, [])
    {
      batch, numPrompt, numGen, pool := None, 0, 0, [];
    }

    /** One pass over the data, starting behind the generation batches `seen`. */
    method Epoch(epoch: seq<Rollout>, done: seq<Outcome>, ghost start: Carry, ghost seen: seq<Rollout>)
      returns (outs: seq<Outcome>)
      requires cfg.n > 0 && Holds() && AllOk(cfg, seen) && AllOk(cfg, epoch) && PoolOk(start.pool)
      requires (done, Head()) == Run(cfg, start, seen) && !Stopped(done)
      modifies this
      ensures AllOk(cfg, seen + epoch)
      ensures var run := Run(cfg, start, seen + epoch);
              && outs == run.0 && globalSteps == run.1.globalSteps && genSteps == run.1.genSteps
              && (!Stopped(outs) ==> Holds() && Head() == run.1)
    {
      hide RolloutOk, StepSpec, FoldConcat, PoolOk, Run, Stopped, Holds;
      outs := done;
      assert seen + epoch[..0] == seen;
      for i := 0 to |epoch|
        invariant AllOk(cfg, seen + epoch[..i]) && Holds() && !Stopped(outs)
        invariant (outs, Head()) == Run(cfg, start, seen + epoch[..i])
      {
        ghost var before := seen + epoch[..i];
        RunMore(cfg, start, before, epoch[i]);
        assert before + [epoch[i]] == seen + epoch[..i + 1];
        var o := Step(epoch[i]);
        outs := outs + [o];
        if Stopped(outs) {
          assert seen + epoch == seen + epoch[..i + 1] + epoch[i + 1..];
          RunStopped(cfg, start, seen + epoch[..i + 1], epoch[i + 1..]);
          StoppedCounts(cfg, Run(cfg, start, before).1, epoch[i]);
          return;
        }
        FailureStops(outs);
      }
      assert epoch[..|epoch|] == epoch;
    }

    /** All epochs; `loaded` is the global step of the checkpoint. The carried batch survives the end of
        an epoch. */
    method Fit(loaded: int, loader: seq<seq<Rollout>>) returns (outs: seq<Outcome>)
      requires cfg.n > 0 && LoaderOk(cfg, loader)
      modifies this
      ensures AllOk(cfg, Flat(loader))
      ensures var run := Run(cfg, Carry(loaded + 1, 1, 0, 0, []), Flat(loader));
              outs == run.0 && globalSteps == run.1.globalSteps && genSteps == run.1.genSteps
    {
      hide RolloutOk, AllOk, StepSpec, FoldConcat, Run, Stopped, Flat, LoaderOk;
      globalSteps, genSteps := loaded, 0;
      globalSteps, genSteps := globalSteps + 1, genSteps + 1;
      Reset();
      outs := [];
      ghost var start := Head();
      StartOk(cfg, start, loader);
      assert loader[..|loader|] == loader;
      hide PoolOk, Holds;
      for e := 0 to |loader|
        invariant AllOk(cfg, Flat(loader[..e])) && Holds() && !Stopped(outs)
        invariant (outs, Head()) == Run(cfg, start, Flat(loader[..e]))
      {
        FlatStep(cfg, loader, e);
        outs := Epoch(loader[e], outs, start, Flat(loader[..e]));
        if Stopped(outs) {
          StopEarly(cfg, start, loader, e + 1);
          return;
        }
      }
    }
  }

  lemma {:induction false} StartOk(cfg: Config, start: Carry, loader: seq<seq<Rollout>>)
    requires cfg.n > 0 && start.pool == [] && LoaderOk(cfg, loader)
    ensures AllOk(cfg, Flat(loader)) && AllOk(cfg, Flat(loader[..0])) && PoolOk(start.pool)
    ensures Run(cfg, start, Flat(loader[..0])) == ([], start) && !Stopped([])
  {
    FlatOk(cfg, loader);
    assert loader[..0] == [];
  }

  lemma {:induction false} FlatStep(cfg: Config, loader: seq<seq<Rollout>>, e: nat)
    requires LoaderOk(cfg, loader) && e < |loader|
    ensures AllOk(cfg, loader[e]) && Flat(loader[..e + 1]) == Flat(loader[..e]) + loader[e]
  {
    assert loader[..e + 1][..e] == loader[..e];
  }

  /** Once stopped, later epochs are not looked at. */
  lemma {:induction false} StopEarly(cfg: Config, start: Carry, loader: seq<seq<Rollout>>, e: nat)
    requires cfg.n > 0 && PoolOk(start.pool) && e <= |loader| && AllOk(cfg, Flat(loader)) && AllOk(cfg, Flat(loader[..e]))
    requires Stopped(Run(cfg, start, Flat(loader[..e])).0)
    ensures Run(cfg, start, Flat(loader)) == Run(cfg, start, Flat(loader[..e]))
  {
    hide AllOk, Run, Stopped, Flat;
    var rest := FlatSplit(loader, e);
    RunStopped(cfg, start, Flat(loader[..e]), rest);
  }

  lemma {:induction false} FailureStops(outs: seq<Outcome>)
    requires outs != [] && !Stopped(outs)
    ensures !outs[|outs| - 1].Failed?
  {}

  lemma {:induction false} StoppedCounts(cfg: Config, c: Carry, r: Rollout)
    requires cfg.n > 0 && RolloutOk(cfg, r) && PoolOk(c.pool)
    ensures StepSpec(cfg, c, r).0.Failed? ==> StepSpec(cfg, c, r).1 == c
  {
    StepCounts(cfg, c, r);
  }
}
