/** The dynamic-sampling loop of DAPO as a state machine (recipe/dapo/dapo_ray_trainer_for_tar.py:94-148,
    220-225, 320-409, 513-530): filter prompt groups, accumulate over generation batches, truncate, reset. */
module DapoRun {
  import opened Wrappers
  import opened Arith
  import opened RowTable
  import opened ConcatBatches
  import opened GroupFilter
  import opened GroupedRows

  /** `maxGen <= 0` means no limit on the generation batches of one update. */
  datatype Config = Config(n: nat, trainBatch: nat, maxGen: int, totalSteps: int, filtering: bool, metric: string)

  /** One generation batch: prompts, their fresh uids, what the rollout adds and what the reward code writes. */
  datatype Rollout = Rollout(prompts: DataProto, uids: seq<nat>, outputs: DataProto, rewards: DataProto)

  datatype Failure = UnionConflict | MissingMetric | ConcatFailed | GeneratedTooMany

  datatype Outcome = Continued | Updated(batch: DataProto, gens: nat, last: bool) | Failed(failure: Failure)

  // ---------- the batch of one generation ----------

  function Ids(uids: seq<nat>): (r: seq<Cell>)
    ensures |r| == |uids| && forall i :: 0 <= i < |r| ==> r[i] == Id(uids[i])
  {
    seq(|uids|, i requires 0 <= i < |uids| => Id(uids[i]))
  }

  function WithUids(d: DataProto, uids: seq<nat>): DataProto {
    d.(nonTensor := d.nonTensor["uid" := ArrayCol(Object, Ids(uids))])
  }

  predicate Agree<T(==)>(a: map<string, T>, b: map<string, T>) {
    forall k :: k in a && k in b ==> a[k] == b[k]
  }

  /** `union`: equal sizes, and equal columns wherever both have one. */
  function Union(a: DataProto, b: DataProto): Result<DataProto, Failure> {
    if a.size != b.size || !Agree(a.batch, b.batch) || !Agree(a.nonTensor, b.nonTensor) then Err(UnionConflict)
    else Ok(DataProto(a.size, a.batch + b.batch, a.nonTensor + b.nonTensor))
  }

  function Scored(d: DataProto, rewards: DataProto): DataProto {
    DataProto(d.size, d.batch + rewards.batch, d.nonTensor + rewards.nonTensor)
  }

  function NewBatch(cfg: Config, r: Rollout): Result<DataProto, Failure> {
    var u := Union(Repeat(WithUids(r.prompts, r.uids), cfg.n), r.outputs);
    if u.Err? then u else Ok(Scored(u.value, r.rewards))
  }

  function Sum(row: seq<int>): int {
    if row == [] then 0 else Sum(row[..|row| - 1]) + row[|row| - 1]
  }

  function RowSums(rows: seq<seq<int>>): (r: seq<Cell>)
    ensures |r| == |rows| && AllNums(r)
  {
    seq(|rows|, i requires 0 <= i < |rows| => Num(Sum(rows[i]) as real))
  }

  predicate HasScores(d: DataProto) {
    "token_level_scores" in d.batch && "token_level_rewards" in d.batch
  }

  /** The metric column: three names can be computed, any other must be there. */
  function WithMetric(d: DataProto, metric: string): Result<DataProto, Failure>
    requires HasScores(d)
  {
    if metric == "seq_final_reward" then
      Ok(d.(nonTensor := d.nonTensor[metric := ArrayCol(Floating, RowSums(d.batch["token_level_rewards"].rows))]))
    else if metric == "seq_reward" then
      Ok(d.(nonTensor := d.nonTensor[metric := ArrayCol(Floating, RowSums(d.batch["token_level_scores"].rows))]))
    else if metric in d.nonTensor then Ok(d)
    else if metric == "acc" then
      Ok(d.(nonTensor := d.nonTensor[metric := if "score" in d.nonTensor then d.nonTensor["score"]
                                               else ArrayCol(Floating, RowSums(d.batch["token_level_scores"].rows))]))
    else Err(MissingMetric)
  }

  /** What the loop is given: aligned batches, a score for every rollout row, uids left alone by the reward
      code, and metric values that are numbers. */
  ghost predicate RolloutOk(cfg: Config, r: Rollout) {
    && Valid(r.prompts) && Valid(r.outputs) && Valid(r.rewards)
    && |r.uids| == r.prompts.size && r.rewards.size == r.prompts.size * cfg.n
    && "uid" !in r.rewards.nonTensor && HasScores(r.rewards) && cfg.metric != "uid"
    && (forall i, j :: 0 <= i < j < |r.uids| ==> r.uids[i] != r.uids[j])
    && (cfg.filtering && NewBatch(cfg, r).Ok? ==> NumericMetric(NewBatch(cfg, r).value, cfg.metric))
  }

  /** The metric values, where there are any, are numbers. */
  ghost predicate NumericMetric(d: DataProto, metric: string) {
    HasScores(d) ==>
      var m := WithMetric(d, metric);
      m.Ok? && metric in m.value.nonTensor ==> AllNums(m.value.nonTensor[metric].cells)
  }

  lemma {:induction false} RepeatedValid(d: DataProto, uids: seq<nat>, n: nat)
    requires Valid(d) && |uids| == d.size && n > 0
    ensures var p := Repeat(WithUids(d, uids), n);
            && Valid(p) && p.size == d.size * n
            && "uid" in p.nonTensor && p.nonTensor["uid"].cells == RepeatEach(Ids(uids), n)
  {
    var p := WithUids(d, uids);
    assert Valid(p);
    RepeatIsSelect(p, n);
  }

  lemma {:induction false} UnionValid(a: DataProto, b: DataProto)
    requires Valid(a) && Valid(b) && Union(a, b).Ok?
    ensures Valid(Union(a, b).value) && Union(a, b).value.size == a.size
    ensures forall k :: k in a.nonTensor ==> k in Union(a, b).value.nonTensor && Union(a, b).value.nonTensor[k] == a.nonTensor[k]
  {}

  lemma {:induction false} NewBatchValid(cfg: Config, r: Rollout)
    requires cfg.n > 0 && RolloutOk(cfg, r) && NewBatch(cfg, r).Ok?
    ensures var d := NewBatch(cfg, r).value;
            && Valid(d) && HasScores(d) && d.size == r.prompts.size * cfg.n
            && "uid" in d.nonTensor && d.nonTensor["uid"].cells == RepeatEach(Ids(r.uids), cfg.n)
  {
    hide WithMetric, Union, Repeat, WithUids, RepeatEach;
    var p := Repeat(WithUids(r.prompts, r.uids), cfg.n);
    RepeatedValid(r.prompts, r.uids, cfg.n);
    UnionValid(p, r.outputs);
  }

  /** Row j belongs to prompt j div n, so the rows come in groups. */
  lemma {:induction false} RepeatedUids(uids: seq<nat>, n: nat)
    requires n > 0 && forall i, j :: 0 <= i < j < |uids| ==> uids[i] != uids[j]
    ensures AllIds(RepeatEach(Ids(uids), n)) && InGroups(IdsOf(RepeatEach(Ids(uids), n)), n)
    ensures |RepeatEach(Ids(uids), n)| == |uids| * n
    ensures forall u :: u in IdsOf(RepeatEach(Ids(uids), n)) ==> u in uids
  {
    hide RepeatEach;
    RepeatIsPick(Ids(uids), n);
    var cells := RepeatEach(Ids(uids), n);
    DivUnique(|uids| * n, |uids|, 0, n);
    forall j | 0 <= j < |cells|
      ensures cells[j].Id? && j / n < |uids| && cells[j].id == uids[j / n]
    {
      DivBelow(j, |uids|, n);
    }
  }

  /** The labelled batch: metric resolved, rows in groups of n. */
  lemma {:induction false} MetricBatch(cfg: Config, r: Rollout)
    requires cfg.n > 0 && cfg.filtering && RolloutOk(cfg, r) && NewBatch(cfg, r).Ok?
    ensures HasScores(NewBatch(cfg, r).value)
    ensures var m := WithMetric(NewBatch(cfg, r).value, cfg.metric);
            m.Ok? ==>
              && Labelled(m.value, cfg.metric) && m.value.size == r.prompts.size * cfg.n
              && InGroups(UidsOf(m.value, cfg.metric), cfg.n)
              && forall u :: u in UidsOf(m.value, cfg.metric) ==> u in r.uids
  {
    hide NewBatch, RepeatEach, InGroups;
    NewBatchValid(cfg, r);
    RepeatedUids(r.uids, cfg.n);
    var d := NewBatch(cfg, r).value;
    var m := WithMetric(d, cfg.metric);
    if m.Ok? {
      assert m.value.nonTensor["uid"] == d.nonTensor["uid"];
      assert Valid(m.value);
    }
  }

  // ---------- filtering ----------

  lemma {:induction false} KeptRowsBelow(uids: seq<nat>, kept: seq<nat>)
    ensures Below(KeptRows(uids, kept), |uids|)
  {
    if uids != [] {
      KeptRowsBelow(uids[..|uids| - 1], kept);
    }
  }

  ghost function KeptOf(d: DataProto, metric: string): seq<nat>
    requires Labelled(d, metric)
  {
    KeptPrompts(Prompts(UidsOf(d, metric)), UidsOf(d, metric), MetricOf(d, metric))
  }

  ghost function FilteredBatch(d: DataProto, metric: string): DataProto
    requires Labelled(d, metric)
  {
    KeptRowsBelow(UidsOf(d, metric), KeptOf(d, metric));
    Select(d, KeptRows(UidsOf(d, metric), KeptOf(d, metric)))
  }

  /** What filtering leaves: exactly the groups of n rows whose own metric values pass, whole and in order. */
  lemma {:induction false} FilterKeepsWholeGroups(d: DataProto, metric: string, n: nat)
    requires Labelled(d, metric) && InGroups(UidsOf(d, metric), n)
    ensures (d.size / n) * n == d.size
    ensures var groups := KeptGroups(MetricOf(d, metric), d.size / n, n);
            && Ascending(groups, d.size / n) && |groups| == |KeptOf(d, metric)|
            && Below(RowsOfGroups(groups, n), d.size) && FilteredBatch(d, metric) == Select(d, RowsOfGroups(groups, n))
    ensures CompleteGroups(FilteredBatch(d, metric), metric, n)
    ensures FilteredBatch(d, metric).size == |KeptOf(d, metric)| * n
    ensures forall u :: u in UidsOf(FilteredBatch(d, metric), metric) ==> u in UidsOf(d, metric)
  {
    hide InGroups, Grouped, KeptGroups, RowsOfGroups, KeptRows, KeptPrompts, Prompts, Labelled;
    var uids, vals := UidsOf(d, metric), MetricOf(d, metric);
    LabelledSize(d, metric);
    GroupsPositive(uids, n);
    FilterKeepsGroups(uids, vals, n);
    var groups := KeptGroups(vals, d.size / n, n);
    KeptGroupsAscend(vals, d.size / n, n);
    FilterGrouped(uids, vals, n, d.size / n);
    SelectLabelled(d, metric, RowsOfGroups(groups, n));
    RowsOfGroupsLength(groups, n);
  }

  lemma {:induction false} LabelledSize(d: DataProto, metric: string)
    requires Labelled(d, metric)
    ensures |UidsOf(d, metric)| == |MetricOf(d, metric)| == d.size && Valid(d)
  {}

  /** The filtered batch of one generation and the number of prompts it keeps. */
  ghost function Gen(cfg: Config, r: Rollout): Result<(DataProto, nat), Failure>
    requires cfg.n > 0 && cfg.filtering && RolloutOk(cfg, r)
  {
    var b := NewBatch(cfg, r);
    if b.Err? then Err(b.error)
    else
      MetricBatch(cfg, r);
      var m := WithMetric(b.value, cfg.metric);
      if m.Err? then Err(m.error)
      else Ok((FilteredBatch(m.value, cfg.metric), |KeptOf(m.value, cfg.metric)|))
  }

  lemma {:induction false} GenComplete(cfg: Config, r: Rollout)
    requires cfg.n > 0 && cfg.filtering && RolloutOk(cfg, r) && Gen(cfg, r).Ok?
    ensures var (d, prompts) := Gen(cfg, r).value;
            && CompleteGroups(d, cfg.metric, cfg.n) && d.size == prompts * cfg.n
            && forall u :: u in UidsOf(d, cfg.metric) ==> u in r.uids
  {
    hide CompleteGroups, FilteredBatch, KeptOf, InGroups, NewBatch, WithMetric;
    MetricBatch(cfg, r);
    var m := WithMetric(NewBatch(cfg, r).value, cfg.metric).value;
    FilterKeepsWholeGroups(m, cfg.metric, cfg.n);
  }

  // ---------- one iteration ----------

  /** What the loop carries to its next iteration; `pool` lists the filtered batches behind `batch`. */
  datatype Carry = Carry(globalSteps: int, genSteps: int, numPrompt: nat, numGen: nat, pool: seq<DataProto>)

  ghost predicate PoolOk(pool: seq<DataProto>) {
    pool != [] ==> FoldConcat(pool).Ok? && Valid(FoldConcat(pool).value)
  }

  lemma {:induction false} PoolGrows(pool: seq<DataProto>, d: DataProto)
    requires PoolOk(pool) && Valid(d)
    ensures FoldConcat(pool + [d]) == if pool == [] then Ok(d) else ConcatAll([FoldConcat(pool).value, d])
    ensures FoldConcat(pool + [d]).Ok? ==> PoolOk(pool + [d])
  {
    hide ConcatAll;
    var more := pool + [d];
    assert more[..|more| - 1] == pool;
    if pool != [] && FoldConcat(more).Ok? {
      ConcatAligned([FoldConcat(pool).value, d]);
    }
  }

  /** An update: the last step leaves the counters, any other advances them; the round starts anew. */
  ghost function Update(cfg: Config, c: Carry, batch: DataProto): (Outcome, Carry) {
    var last := c.globalSteps >= cfg.totalSteps;
    (Updated(batch, c.numGen + 1, last),
     Carry(c.globalSteps + if last then 0 else 1, c.genSteps + if last then 0 else 1, 0, 0, []))
  }

  /** The carried batch joined with the new one. */
  ghost function Gathered(pool: seq<DataProto>, d: DataProto): (r: Result<DataProto, ConcatError>)
    requires PoolOk(pool) && Valid(d)
    ensures r.Ok? ==> Valid(r.value) && PoolOk(pool + [d])
  {
    PoolGrows(pool, d);
    FoldConcat(pool + [d])
  }

  /** Concatenate, then continue, raise or update; `prompts` is the number of prompts kept so far. */
  ghost function Accumulate(cfg: Config, c: Carry, d: DataProto, prompts: nat): (res: (Outcome, Carry))
    requires PoolOk(c.pool) && Valid(d)
    ensures PoolOk(res.1.pool)
  {
    var all := Gathered(c.pool, d);
    if all.Err? then (Failed(ConcatFailed), c)
    else if prompts >= cfg.trainBatch then Update(cfg, c, Take(all.value, cfg.trainBatch * cfg.n))
    else if cfg.maxGen <= 0 || c.numGen + 1 < cfg.maxGen
    then (Continued, Carry(c.globalSteps, c.genSteps + 1, prompts, c.numGen + 1, c.pool + [d]))
    else (Failed(GeneratedTooMany), c)
  }

  lemma {:induction false} GenValid(cfg: Config, r: Rollout)
    requires cfg.n > 0 && cfg.filtering && RolloutOk(cfg, r) && Gen(cfg, r).Ok?
    ensures Valid(Gen(cfg, r).value.0)
  {
    hide Gen, Grouped, RolloutOk;
    GenComplete(cfg, r);
  }

  ghost function StepSpec(cfg: Config, c: Carry, r: Rollout): (res: (Outcome, Carry))
    requires cfg.n > 0 && RolloutOk(cfg, r) && PoolOk(c.pool)
    ensures PoolOk(res.1.pool)
  {
    if !cfg.filtering then
      var b := NewBatch(cfg, r);
      if b.Err? then (Failed(b.error), c) else Update(cfg, c, b.value)
    else
      var g := Gen(cfg, r);
      if g.Err? then (Failed(g.error), c)
      else
        GenValid(cfg, r);
        Accumulate(cfg, c, g.value.0, c.numPrompt + g.value.1)
  }

  // ---------- what every iteration keeps ----------

  ghost predicate Known(d: DataProto, metric: string, used: set<nat>)
    requires Labelled(d, metric)
  {
    forall u :: u in UidsOf(d, metric) ==> u in used
  }

  /** The carried batch: complete groups of prompts generated so far, fewer than an update needs. */
  ghost predicate CarryOk(cfg: Config, c: Carry, used: set<nat>) {
    && cfg.n > 0 && PoolOk(c.pool)
    && c.numGen == |c.pool|
    && (c.pool == [] ==> c.numPrompt == 0)
    && (c.pool != [] ==>
          var d := FoldConcat(c.pool).value;
          && cfg.filtering && d.size == c.numPrompt * cfg.n && c.numPrompt < cfg.trainBatch
          && CompleteGroups(d, cfg.metric, cfg.n) && Known(d, cfg.metric, used))
    && (cfg.maxGen > 0 ==> c.numGen < cfg.maxGen)
  }

  /** An update with filtering on: exactly the configured number of complete, mixed groups. */
  ghost predicate UpdateOk(cfg: Config, o: Outcome) {
    o.Updated? && cfg.filtering ==>
      && CompleteGroups(o.batch, cfg.metric, cfg.n) && o.batch.size == cfg.trainBatch * cfg.n
      && (cfg.maxGen > 0 ==> o.gens <= cfg.maxGen)
  }

  ghost function SetOf(s: seq<nat>): set<nat> {
    set u | u in s
  }

  lemma {:induction false} FreshUids(a: DataProto, b: DataProto, metric: string, used: set<nat>)
    requires Labelled(a, metric) && Labelled(b, metric) && Known(a, metric, used)
    requires forall u :: u in UidsOf(b, metric) ==> u !in used
    ensures Disjoint(UidsOf(a, metric), UidsOf(b, metric))
  {
    forall i, j | 0 <= i < a.size && 0 <= j < b.size
      ensures UidsOf(a, metric)[i] != UidsOf(b, metric)[j]
    {
      assert UidsOf(a, metric)[i] in used && UidsOf(b, metric)[j] !in used;
    }
  }

  /** The pool with the new batch in it. */
  lemma {:induction false} GatherKeeps(cfg: Config, c: Carry, r: Rollout, used: set<nat>)
    requires CarryOk(cfg, c, used) && cfg.filtering && RolloutOk(cfg, r) && Gen(cfg, r).Ok?
    requires forall u :: u in r.uids ==> u !in used
    requires FoldConcat(c.pool + [Gen(cfg, r).value.0]).Ok?
    ensures var pool, prompts := c.pool + [Gen(cfg, r).value.0], c.numPrompt + Gen(cfg, r).value.1;
            && PoolOk(pool) && FoldConcat(pool).value.size == prompts * cfg.n
            && CompleteGroups(FoldConcat(pool).value, cfg.metric, cfg.n)
            && Known(FoldConcat(pool).value, cfg.metric, used + SetOf(r.uids))
  {
    hide FoldConcat, ConcatAll, Grouped, Gen, RolloutOk;
    var (d, kept) := Gen(cfg, r).value;
    GenComplete(cfg, r);
    PoolGrows(c.pool, d);
    if c.pool != [] {
      var acc := FoldConcat(c.pool).value;
      FreshUids(acc, d, cfg.metric, used);
      ConcatComplete(acc, d, cfg.metric, cfg.n);
      Distribute(c.numPrompt, kept, cfg.n);
    }
  }

  lemma {:induction false} StepKeeps(cfg: Config, c: Carry, r: Rollout, used: set<nat>)
    requires CarryOk(cfg, c, used) && RolloutOk(cfg, r)
    requires forall u :: u in r.uids ==> u !in used
    ensures var (o, next) := StepSpec(cfg, c, r);
            && UpdateOk(cfg, o)
            && (!o.Failed? ==> CarryOk(cfg, next, used + SetOf(r.uids)))
  {
    hide FoldConcat, Gen, RolloutOk, NewBatch, CompleteGroups, Known;
    if cfg.filtering && Gen(cfg, r).Ok? {
      var (d, kept) := Gen(cfg, r).value;
      GenValid(cfg, r);
      PoolGrows(c.pool, d);
      if Gathered(c.pool, d).Ok? {
        GatherKeeps(cfg, c, r, used);
        if c.numPrompt + kept >= cfg.trainBatch {
          MulMono(cfg.trainBatch, c.numPrompt + kept, cfg.n);
          TakeComplete(Gathered(c.pool, d).value, cfg.metric, cfg.n, cfg.trainBatch);
        }
      }
    }
  }
}
