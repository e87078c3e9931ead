/** What is in the batches of the DAPO loop, column by column
    (recipe/dapo/dapo_ray_trainer_for_tar.py:220-225, 266-305, 325-344, 388-409). */
module DapoContent {
  import opened Wrappers
  import opened Arith
  import opened RowTable
  import opened ConcatBatches
  import opened GroupFilter
  import opened GroupedRows
  import opened DapoRun
  import opened DapoSafety
  import opened DapoDecisions

  // ---------- a generation batch ----------

  /** Every row of `c` n times, one copy behind the other. */
  ghost predicate RowsRepeat(d: TensorCol, c: TensorCol, n: nat)
    requires n > 0
  {
    && d.width == c.width && |d.rows| == |c.rows| * n
    && forall j :: 0 <= j < |d.rows| && j / n < |c.rows| ==> d.rows[j] == c.rows[j / n]
  }

  ghost predicate CellsRepeat(d: ArrayCol, c: ArrayCol, n: nat)
    requires n > 0
  {
    && d.kind == c.kind && |d.cells| == |c.cells| * n
    && forall j :: 0 <= j < |d.cells| && j / n < |c.cells| ==> d.cells[j] == c.cells[j / n]
  }

  ghost predicate HasPromptArray(r: Rollout, k: string) {
    k == "uid" || k in r.prompts.nonTensor
  }

  /** A numpy column of the prompts; the uids are one of them. */
  ghost function PromptArray(r: Rollout, k: string): ArrayCol
    requires HasPromptArray(r, k)
  {
    if k == "uid" then ArrayCol(Object, Ids(r.uids)) else r.prompts.nonTensor[k]
  }

  lemma {:induction false} RepeatedRows(d: TensorCol, c: TensorCol, n: nat)
    requires n > 0
    ensures d == TensorCol(c.width, RepeatEach(c.rows, n)) <==> RowsRepeat(d, c, n)
  {
    hide RepeatEach;
    RepeatIsPick(c.rows, n);
    var rows := RepeatEach(c.rows, n);
    forall j | 0 <= j < |c.rows| * n
      ensures j / n < |c.rows| && rows[j] == c.rows[j / n]
    {
      DivBelow(j, |c.rows|, n);
    }
    if RowsRepeat(d, c, n) {
      assert d.rows == rows;
    }
  }

  lemma {:induction false} RepeatedCells(d: ArrayCol, c: ArrayCol, n: nat)
    requires n > 0
    ensures d == ArrayCol(c.kind, RepeatEach(c.cells, n)) <==> CellsRepeat(d, c, n)
  {
    hide RepeatEach;
    RepeatIsPick(c.cells, n);
    var cells := RepeatEach(c.cells, n);
    forall j | 0 <= j < |c.cells| * n
      ensures j / n < |c.cells| && cells[j] == c.cells[j / n]
    {
      DivBelow(j, |c.cells|, n);
    }
    if CellsRepeat(d, c, n) {
      assert d.cells == cells;
    }
  }

  /** The rollout returns n rows for every prompt, and any column it repeats from the prompts is unchanged. */
  ghost predicate OutputsAgree(cfg: Config, r: Rollout)
    requires cfg.n > 0
  {
    && r.outputs.size == r.prompts.size * cfg.n
    && (forall k :: k in r.outputs.batch && k in r.prompts.batch ==>
          RowsRepeat(r.outputs.batch[k], r.prompts.batch[k], cfg.n))
    && (forall k :: k in r.outputs.nonTensor && HasPromptArray(r, k) ==>
          CellsRepeat(r.outputs.nonTensor[k], PromptArray(r, k), cfg.n))
  }

  ghost function TensorColumns(r: Rollout): set<string> {
    r.prompts.batch.Keys + r.outputs.batch.Keys + r.rewards.batch.Keys
  }

  ghost function ArrayColumns(r: Rollout): set<string> {
    r.prompts.nonTensor.Keys + r.outputs.nonTensor.Keys + r.rewards.nonTensor.Keys + {"uid"}
  }

  /** Where a column comes from: the rewards if they have it, else the outputs, else the repeated prompts. */
  ghost predicate TensorFrom(d: TensorCol, cfg: Config, r: Rollout, k: string)
    requires cfg.n > 0 && k in TensorColumns(r)
  {
    if k in r.rewards.batch then d == r.rewards.batch[k]
    else if k in r.outputs.batch then d == r.outputs.batch[k]
    else RowsRepeat(d, r.prompts.batch[k], cfg.n)
  }

  ghost predicate ArrayFrom(d: ArrayCol, cfg: Config, r: Rollout, k: string)
    requires cfg.n > 0 && k in ArrayColumns(r)
  {
    if k in r.rewards.nonTensor then d == r.rewards.nonTensor[k]
    else if k in r.outputs.nonTensor then d == r.outputs.nonTensor[k]
    else CellsRepeat(d, PromptArray(r, k), cfg.n)
  }

  ghost predicate ComesFrom(d: DataProto, cfg: Config, r: Rollout)
    requires cfg.n > 0
  {
    && d.size == r.prompts.size * cfg.n
    && d.batch.Keys == TensorColumns(r) && d.nonTensor.Keys == ArrayColumns(r)
    && (forall k :: k in d.batch ==> TensorFrom(d.batch[k], cfg, r, k))
    && (forall k :: k in d.nonTensor ==> ArrayFrom(d.nonTensor[k], cfg, r, k))
  }

  lemma {:induction false} RepeatedPrompts(cfg: Config, r: Rollout)
    requires cfg.n > 0
    ensures var p := Repeat(WithUids(r.prompts, r.uids), cfg.n);
            && p.size == r.prompts.size * cfg.n && p.batch.Keys == r.prompts.batch.Keys
            && (forall k :: k in p.nonTensor <==> HasPromptArray(r, k))
            && (forall k, d :: k in p.batch ==> (d == p.batch[k] <==> RowsRepeat(d, r.prompts.batch[k], cfg.n)))
            && (forall k, d :: k in p.nonTensor ==> (d == p.nonTensor[k] <==> CellsRepeat(d, PromptArray(r, k), cfg.n)))
  {
    hide RowsRepeat, CellsRepeat, RepeatEach, Ids;
    var w := WithUids(r.prompts, r.uids);
    var p := Repeat(w, cfg.n);
    forall k, d | k in p.batch
      ensures d == p.batch[k] <==> RowsRepeat(d, r.prompts.batch[k], cfg.n)
    {
      RepeatedRows(d, r.prompts.batch[k], cfg.n);
    }
    forall k, d | k in p.nonTensor
      ensures d == p.nonTensor[k] <==> CellsRepeat(d, PromptArray(r, k), cfg.n)
    {
      RepeatedCells(d, PromptArray(r, k), cfg.n);
    }
  }

  /** The batch of a generation: it fails exactly if the rollout does not fit the prompts, and otherwise every
      column comes from where it should. */
  lemma {:induction false} NewBatchColumns(cfg: Config, r: Rollout)
    requires cfg.n > 0
    ensures NewBatch(cfg, r).Ok? <==> OutputsAgree(cfg, r)
    ensures NewBatch(cfg, r).Err? ==> NewBatch(cfg, r).error == UnionConflict
    ensures NewBatch(cfg, r).Ok? ==> ComesFrom(NewBatch(cfg, r).value, cfg, r)
  {
    hide RowsRepeat, CellsRepeat, Repeat, WithUids, PromptArray;
    RepeatedPrompts(cfg, r);
  }

  // ---------- the metric ----------

  lemma {:induction false} SumOfParts(a: seq<int>, b: seq<int>)
    ensures Sum(a + b) == Sum(a) + Sum(b)
    ensures forall x :: Sum([x]) == x
  {
    forall x
      ensures Sum([x]) == x
    {
      assert [x][..0] == [];
    }
    if b == [] {
      assert a + b == a;
    } else {
      var m := |b| - 1;
      assert (a + b)[..|a + b| - 1] == a + b[..m];
      SumOfParts(a, b[..m]);
    }
  }

  /** One number for each row: the sum of its tokens' values. */
  ghost predicate SumsOf(d: ArrayCol, c: TensorCol) {
    && d.kind == Floating && |d.cells| == |c.rows|
    && forall i :: 0 <= i < |d.cells| ==> d.cells[i] == Num(Sum(c.rows[i]) as real)
  }

  /** Which column a metric name reads. "seq_final_reward" and "seq_reward" always sum the rewards and the
      scores; "acc" falls back on "score" and then on the scores; any other name has to be there. Nothing else
      of the batch changes. */
  lemma {:induction false} MetricColumn(d: DataProto, metric: string)
    requires HasScores(d)
    ensures var m := WithMetric(d, metric);
            && (m == Err(MissingMetric) <==>
                  metric !in d.nonTensor && metric != "seq_final_reward" && metric != "seq_reward" && metric != "acc")
            && (m.Err? ==> m.error == MissingMetric)
            && (m.Ok? ==>
                  && m.value.size == d.size && m.value.batch == d.batch && metric in m.value.nonTensor
                  && m.value.nonTensor - {metric} == d.nonTensor - {metric})
    ensures var m := WithMetric(d, metric);
            m.Ok? ==>
              var col := m.value.nonTensor[metric];
              if metric == "seq_final_reward" then SumsOf(col, d.batch["token_level_rewards"])
              else if metric == "seq_reward" then SumsOf(col, d.batch["token_level_scores"])
              else if metric in d.nonTensor then col == d.nonTensor[metric]
              else if "score" in d.nonTensor then col == d.nonTensor["score"]
              else SumsOf(col, d.batch["token_level_scores"])
  {
    hide Sum;
  }

  // ---------- the rows of an update ----------

  /** Row p of the columns that a generation batch brings along. */
  ghost predicate TensorRow(cfg: Config, r: Rollout, k: string, p: nat, row: seq<int>)
    requires cfg.n > 0 && k in TensorColumns(r)
  {
    if k in r.rewards.batch then p < |r.rewards.batch[k].rows| && row == r.rewards.batch[k].rows[p]
    else if k in r.outputs.batch then p < |r.outputs.batch[k].rows| && row == r.outputs.batch[k].rows[p]
    else p / cfg.n < |r.prompts.batch[k].rows| && row == r.prompts.batch[k].rows[p / cfg.n]
  }

  ghost predicate ArrayCell(cfg: Config, r: Rollout, k: string, p: nat, cell: Cell)
    requires cfg.n > 0 && k in ArrayColumns(r)
  {
    if k in r.rewards.nonTensor then p < |r.rewards.nonTensor[k].cells| && cell == r.rewards.nonTensor[k].cells[p]
    else if k in r.outputs.nonTensor then p < |r.outputs.nonTensor[k].cells| && cell == r.outputs.nonTensor[k].cells[p]
    else p / cfg.n < |PromptArray(r, k).cells| && cell == PromptArray(r, k).cells[p / cfg.n]
  }

  /** Row i of the batch is row p of the generation batch, in all its columns but the metric's. */
  ghost predicate RowIs(cfg: Config, r: Rollout, p: nat, d: DataProto, i: nat)
    requires cfg.n > 0
  {
    && (forall k :: k in TensorColumns(r) ==>
          k in d.batch && i < |d.batch[k].rows| && TensorRow(cfg, r, k, p, d.batch[k].rows[i]))
    && (forall k :: k in ArrayColumns(r) && k != cfg.metric ==>
          k in d.nonTensor && i < |d.nonTensor[k].cells| && ArrayCell(cfg, r, k, p, d.nonTensor[k].cells[i]))
  }

  lemma {:induction false} NewBatchRow(cfg: Config, r: Rollout, d: DataProto, p: nat)
    requires cfg.n > 0 && Valid(r.prompts) && |r.uids| == r.prompts.size && ComesFrom(d, cfg, r) && Valid(d)
    requires p < d.size
    ensures RowIs(cfg, r, p, d, p)
  {
    DivBelow(p, r.prompts.size, cfg.n);
    forall k | k in TensorColumns(r)
      ensures k in d.batch && p < |d.batch[k].rows| && TensorRow(cfg, r, k, p, d.batch[k].rows[p])
    {
      assert TensorFrom(d.batch[k], cfg, r, k);
    }
    forall k | k in ArrayColumns(r)
      ensures k in d.nonTensor && p < |d.nonTensor[k].cells| && ArrayCell(cfg, r, k, p, d.nonTensor[k].cells[p])
    {
      assert ArrayFrom(d.nonTensor[k], cfg, r, k);
    }
  }

  /** The new batch with its metric column. */
  ghost predicate Resolved(cfg: Config, r: Rollout, m: DataProto)
    requires cfg.n > 0
  {
    && NewBatch(cfg, r).Ok? && HasScores(NewBatch(cfg, r).value)
    && WithMetric(NewBatch(cfg, r).value, cfg.metric) == Ok(m)
    && Labelled(m, cfg.metric) && InGroups(UidsOf(m, cfg.metric), cfg.n)
  }

  /** The n rollouts of prompt g do not all have the same metric value. */
  ghost predicate Passes(cfg: Config, m: DataProto, g: nat)
    requires Labelled(m, cfg.metric)
  {
    g * cfg.n <= (g + 1) * cfg.n <= m.size && Mixed(MetricOf(m, cfg.metric)[g * cfg.n..(g + 1) * cfg.n])
  }

  /** `groups` lists the passing ones of the batch's prompts in order, and their rows are what is left of it. */
  ghost predicate Leaves(cfg: Config, r: Rollout, m: DataProto, groups: seq<nat>, left: DataProto)
    requires cfg.n > 0
  {
    && Resolved(cfg, r, m) && m.size == r.prompts.size * cfg.n && Selects(cfg, r.prompts.size, m, groups, left)
  }

  ghost predicate Selects(cfg: Config, size: nat, m: DataProto, groups: seq<nat>, left: DataProto)
    requires Labelled(m, cfg.metric)
  {
    && Ascending(groups, size) && (forall g: nat :: g in groups <==> g < size && Passes(cfg, m, g))
    && Below(RowsOfGroups(groups, cfg.n), m.size) && left == Select(m, RowsOfGroups(groups, cfg.n))
  }

  lemma {:induction false} ResolvedGen(cfg: Config, r: Rollout) returns (m: DataProto)
    requires cfg.n > 0 && cfg.filtering && RolloutOk(cfg, r) && Gen(cfg, r).Ok?
    ensures Resolved(cfg, r, m) && m.size == r.prompts.size * cfg.n
    ensures Left(cfg, r) == FilteredBatch(m, cfg.metric)
  {
    hide InGroups, NewBatch, WithMetric, FilteredBatch, Labelled;
    MetricBatch(cfg, r);
    m := WithMetric(NewBatch(cfg, r).value, cfg.metric).value;
  }

  lemma {:induction false} GroupPasses(cfg: Config, m: DataProto, size: nat, g: nat)
    requires cfg.n > 0 && Labelled(m, cfg.metric) && m.size == size * cfg.n
    ensures g in KeptGroups(MetricOf(m, cfg.metric), size, cfg.n) <==> g < size && Passes(cfg, m, g)
  {
    hide Keeps, KeptGroups, Mixed, Labelled;
    LabelledSize(m, cfg.metric);
    var metric := MetricOf(m, cfg.metric);
    KeptGroupsMember(metric, g, size, cfg.n);
    if g * cfg.n <= (g + 1) * cfg.n <= m.size {
      MulOne(g, cfg.n);
      KeepsIsMixed(metric[g * cfg.n..(g + 1) * cfg.n]);
    }
  }

  lemma {:induction false} FilterSelects(cfg: Config, m: DataProto, size: nat)
    requires cfg.n > 0 && Labelled(m, cfg.metric) && InGroups(UidsOf(m, cfg.metric), cfg.n) && m.size == size * cfg.n
    ensures |MetricOf(m, cfg.metric)| == size * cfg.n
    ensures Selects(cfg, size, m, KeptGroups(MetricOf(m, cfg.metric), size, cfg.n), FilteredBatch(m, cfg.metric))
  {
    hide InGroups, FilteredBatch, Labelled, KeptGroups, RowsOfGroups, Passes;
    LabelledSize(m, cfg.metric);
    DivUnique(m.size, size, 0, cfg.n);
    FilterKeepsWholeGroups(m, cfg.metric, cfg.n);
    var groups := KeptGroups(MetricOf(m, cfg.metric), size, cfg.n);
    forall g: nat
      ensures g in groups <==> g < size && Passes(cfg, m, g)
    {
      GroupPasses(cfg, m, size, g);
    }
  }

  /** What is left of a generation batch. */
  lemma {:induction false} LeftGroups(cfg: Config, r: Rollout) returns (m: DataProto, groups: seq<nat>)
    requires cfg.n > 0 && cfg.filtering && RolloutOk(cfg, r) && Gen(cfg, r).Ok?
    ensures Leaves(cfg, r, m, groups, Left(cfg, r))
  {
    hide InGroups, NewBatch, WithMetric, FilteredBatch, Labelled, Left, KeptGroups, Selects;
    m := ResolvedGen(cfg, r);
    FilterSelects(cfg, m, r.prompts.size);
    groups := KeptGroups(MetricOf(m, cfg.metric), r.prompts.size, cfg.n);
  }

  lemma {:induction false} SplitIndex(i: nat, size: nat, n: nat) returns (q: nat, t: nat)
    requires n > 0 && i < size * n
    ensures i == q * n + t && q < size && t < n
  {
    DivBelow(i, size, n);
    q, t := i / n, i % n;
  }

  lemma {:induction false} PickedRow(groups: seq<nat>, n: nat, i: nat) returns (q: nat, t: nat)
    requires n > 0 && i < |RowsOfGroups(groups, n)|
    ensures q < |groups| && t < n && i == q * n + t && RowsOfGroups(groups, n)[i] == groups[q] * n + t
  {
    hide RowsOfGroups;
    RowsOfGroupsLength(groups, n);
    q, t := SplitIndex(i, |groups|, n);
    PickedAt(groups, n, q, t);
  }

  lemma {:induction false} LeavesRows(cfg: Config, r: Rollout, m: DataProto, groups: seq<nat>, left: DataProto)
    requires cfg.n > 0 && Leaves(cfg, r, m, groups, left)
    ensures var rows := RowsOfGroups(groups, cfg.n);
            Resolved(cfg, r, m) && Valid(m) && Below(rows, m.size) && left == Select(m, rows) && left.size == |rows|
  {
    hide InGroups, RowsOfGroups, NewBatch, WithMetric, MetricOf, Mixed, UidsOf;
  }

  /** A row of what is left is a rollout of one of the passing prompts, in order: row q * n + t is rollout t of
      the prompt listed at q, which is row p of the generation batch. */
  lemma {:induction false} LeftRow(cfg: Config, r: Rollout, m: DataProto, groups: seq<nat>, left: DataProto, i: nat)
    returns (q: nat, t: nat, p: nat)
    requires cfg.n > 0 && RolloutOk(cfg, r) && Leaves(cfg, r, m, groups, left) && i < left.size
    ensures q < |groups| && t < cfg.n && i == q * cfg.n + t
    ensures p == groups[q] * cfg.n + t && RowIs(cfg, r, p, left, i)
  {
    hide *;
    LeavesRows(cfg, r, m, groups, left);
    var rows := RowsOfGroups(groups, cfg.n);
    q, t := PickedRow(groups, cfg.n, i);
    p := rows[i];
    SourceRowIs(cfg, r, m, rows, i);
  }

  lemma {:induction false} SourceRowIs(cfg: Config, r: Rollout, m: DataProto, rows: seq<nat>, i: nat)
    requires cfg.n > 0 && RolloutOk(cfg, r) && Resolved(cfg, r, m) && Valid(m) && Below(rows, m.size) && i < |rows|
    ensures RowIs(cfg, r, rows[i], Select(m, rows), i)
  {
    hide InGroups, ComesFrom, RowIs, Labelled, NewBatch, WithMetric;
    var b := NewBatch(cfg, r).value;
    NewBatchColumns(cfg, r);
    NewBatchValid(cfg, r);
    RolloutSizes(cfg, r);
    MetricColumn(b, cfg.metric);
    NewBatchRow(cfg, r, b, rows[i]);
    SelectedRow(cfg, r, b, m, rows, i);
  }

  lemma {:induction false} RolloutSizes(cfg: Config, r: Rollout)
    requires RolloutOk(cfg, r)
    ensures Valid(r.prompts) && |r.uids| == r.prompts.size
  {}

  lemma {:induction false} SelectedRow(cfg: Config, r: Rollout, b: DataProto, m: DataProto, rows: seq<nat>, i: nat)
    requires cfg.n > 0 && Valid(m) && Below(rows, m.size) && i < |rows| && RowIs(cfg, r, rows[i], b, rows[i])
    requires m.batch == b.batch && m.nonTensor - {cfg.metric} == b.nonTensor - {cfg.metric}
    ensures RowIs(cfg, r, rows[i], Select(m, rows), i)
  {
    hide TensorRow, ArrayCell, TensorColumns, ArrayColumns;
    var d, p := Select(m, rows), rows[i];
    forall k | k in ArrayColumns(r) && k != cfg.metric
      ensures k in d.nonTensor && i < |d.nonTensor[k].cells| && ArrayCell(cfg, r, k, p, d.nonTensor[k].cells[i])
    {
      assert k in b.nonTensor - {cfg.metric};
      assert k in m.nonTensor && m.nonTensor[k] == (b.nonTensor - {cfg.metric})[k];
    }
  }

  /** Which batch a row of a concatenation belongs to. */
  lemma {:induction false} Locate(data: seq<DataProto>, x: nat) returns (g: nat, i: nat)
    requires x < TotalSize(data)
    ensures g < |data| && i < data[g].size && x == TotalSize(data[..g]) + i
  {
    var m := |data| - 1;
    if x < TotalSize(data[..m]) {
      g, i := Locate(data[..m], x);
      assert data[..m][..g] == data[..g];
    } else {
      g, i := m, x - TotalSize(data[..m]);
    }
  }

  lemma {:induction false} RowMoves(cfg: Config, r: Rollout, p: nat, d: DataProto, i: nat, all: DataProto, lo: nat)
    requires cfg.n > 0 && Valid(d) && i < d.size && RowIs(cfg, r, p, d, i) && SitsAt(d, all, lo)
    ensures RowIs(cfg, r, p, all, lo + i)
  {
    hide TensorRow, ArrayCell, TensorColumns, ArrayColumns;
    forall k | k in TensorColumns(r)
      ensures k in all.batch && lo + i < |all.batch[k].rows| && TensorRow(cfg, r, k, p, all.batch[k].rows[lo + i])
    {
      assert all.batch[k].rows[lo..lo + d.size][i] == all.batch[k].rows[lo + i];
    }
    forall k | k in ArrayColumns(r) && k != cfg.metric
      ensures k in all.nonTensor && lo + i < |all.nonTensor[k].cells|
      ensures ArrayCell(cfg, r, k, p, all.nonTensor[k].cells[lo + i])
    {
      assert all.nonTensor[k].cells[lo..lo + d.size][i] == all.nonTensor[k].cells[lo + i];
    }
  }

  lemma {:induction false} RowTaken(cfg: Config, r: Rollout, p: nat, d: DataProto, i: nat, hi: nat)
    requires cfg.n > 0 && Valid(d) && i < d.size && i < hi && RowIs(cfg, r, p, d, i)
    ensures RowIs(cfg, r, p, Take(d, hi), i)
  {
    hide TensorRow, ArrayCell, TensorColumns, ArrayColumns;
  }

  lemma {:induction false} LeftIsValid(cfg: Config, r: Rollout)
    requires cfg.n > 0 && cfg.filtering && RolloutOk(cfg, r)
    ensures Valid(Left(cfg, r))
  {
    if Gen(cfg, r).Ok? {
      GenValid(cfg, r);
    }
    hide Gen, NewBatch;
  }

  lemma {:induction false} LeftValid(cfg: Config, rs: seq<Rollout>, from: nat, to: nat)
    requires cfg.n > 0 && cfg.filtering && AllOk(cfg, rs) && from <= to <= |rs|
    ensures AllValid(LeftAll(cfg, rs)[from..to])
  {
    hide RolloutOk, Left, Valid;
    var left := LeftAll(cfg, rs)[from..to];
    forall g | 0 <= g < |left|
      ensures Valid(left[g])
    {
      LeftIsValid(cfg, rs[from + g]);
    }
  }

  lemma {:induction false} JoinedRow(cfg: Config, left: seq<DataProto>, o: Outcome, x: nat) returns (g: nat, i: nat)
    requires cfg.n > 0 && AllValid(left) && TakesAll(cfg, left, o) && x < o.batch.size
    ensures g < |left| && i < left[g].size && x == TotalSize(left[..g]) + i
    ensures x < cfg.trainBatch * cfg.n && x < FoldConcat(left).value.size
    ensures SitsAt(left[g], FoldConcat(left).value, TotalSize(left[..g]))
  {
    hide FoldConcat, SitsAt;
    FoldValid(left);
    g, i := Locate(left, x);
    FoldProvenance(left, g);
  }

  lemma {:induction false} RowCarried(cfg: Config, r: Rollout, p: nat, left: seq<DataProto>, o: Outcome, g: nat, i: nat)
    requires cfg.n > 0 && AllValid(left) && TakesAll(cfg, left, o) && g < |left| && i < left[g].size
    requires RowIs(cfg, r, p, left[g], i) && TotalSize(left[..g]) + i < cfg.trainBatch * cfg.n
    requires TotalSize(left[..g]) + i < FoldConcat(left).value.size
    requires SitsAt(left[g], FoldConcat(left).value, TotalSize(left[..g]))
    ensures RowIs(cfg, r, p, o.batch, TotalSize(left[..g]) + i)
  {
    hide FoldConcat, SitsAt, RowIs, TotalSize, Take, Valid;
    var all, lo := FoldConcat(left).value, TotalSize(left[..g]);
    RowMoves(cfg, r, p, left[g], i, all, lo);
    RowTaken(cfg, r, p, all, lo + i, cfg.trainBatch * cfg.n);
  }

  lemma {:induction false} GenAt(cfg: Config, c: Carry, rs: seq<Rollout>, outs: seq<Outcome>, g: nat)
    requires cfg.n > 0 && cfg.filtering && AllOk(cfg, rs) && DecidedAt(cfg, c, rs, outs, g) && !outs[g].Failed?
    ensures g < |rs| && RolloutOk(cfg, rs[g]) && Gen(cfg, rs[g]).Ok?
  {
    hide Gen, RolloutOk, Decision, LeftAll;
  }

  lemma {:induction false} GoesOn(cfg: Config, c: Carry, rs: seq<Rollout>, j: nat, g: nat)
    requires cfg.n > 0 && AllOk(cfg, rs) && PoolOk(c.pool) && g < j < |Run(cfg, c, rs).0|
    ensures !Run(cfg, c, rs).0[g].Failed?
  {
    hide RolloutOk, AllOk, PoolOk, Run, StepSpec;
    var outs := Run(cfg, c, rs).0;
    RunPrefix(cfg, c, rs, g + 1);
    assert outs[..g + 1][g] == outs[g];
  }

  lemma {:induction false} NotFailed(cfg: Config, c: Carry, rs: seq<Rollout>, j: nat, g: nat)
    requires cfg.n > 0 && PoolOk(c.pool) && Fresh(cfg, c) && cfg.filtering && AllOk(cfg, rs)
    requires g <= j < |Run(cfg, c, rs).0| && Run(cfg, c, rs).0[j].Updated?
    ensures g < |rs| && RolloutOk(cfg, rs[g]) && Gen(cfg, rs[g]).Ok?
  {
    hide *;
    RunDecides(cfg, c, rs, g);
    if g < j {
      GoesOn(cfg, c, rs, j, g);
    }
    GenAt(cfg, c, rs, Run(cfg, c, rs).0, g);
  }

  /** A row of an update is a row of what is left of one of the batches joined, column by column. */
  lemma {:induction false} RowJoined(cfg: Config, rs: seq<Rollout>, outs: seq<Outcome>, j: nat, x: nat)
    returns (g: nat, i: nat)
    requires cfg.n > 0 && cfg.filtering && AllOk(cfg, rs) && j < |outs| <= |rs| && outs[j].Updated?
    requires UpdateRows(cfg, LeftAll(cfg, rs), outs, j) && x < outs[j].batch.size
    ensures var first, all := j - Trailing(outs[..j]), LeftAll(cfg, rs);
            0 <= first <= g <= j && i < all[g].size && x == TotalSize(all[first..g]) + i
    ensures forall p: nat :: RowIs(cfg, rs[g], p, LeftAll(cfg, rs)[g], i) ==> RowIs(cfg, rs[g], p, outs[j].batch, x)
  {
    hide RowIs, TakesAll, SitsAt, FoldConcat, AllOk, RolloutOk, Left, LeftAll, TotalSize, AllValid, Trailing;
    var all := LeftAll(cfg, rs);
    var first: nat := j - Trailing(outs[..j]);
    var left := all[first..j + 1];
    LeftValid(cfg, rs, first, j + 1);
    var d;
    d, i := JoinedRow(cfg, left, outs[j], x);
    g := first + d;
    assert left[..d] == all[first..g];
    forall p: nat | RowIs(cfg, rs[g], p, all[g], i)
      ensures RowIs(cfg, rs[g], p, outs[j].batch, x)
    {
      RowCarried(cfg, rs[g], p, left, outs[j], d, i);
    }
  }

  lemma {:induction false} UpdateJoins(cfg: Config, c: Carry, rs: seq<Rollout>, j: nat)
    requires cfg.n > 0 && PoolOk(c.pool) && Fresh(cfg, c) && cfg.filtering && AllOk(cfg, rs)
    requires j < |Run(cfg, c, rs).0| && Run(cfg, c, rs).0[j].Updated?
    ensures |Run(cfg, c, rs).0| <= |rs| && UpdateRows(cfg, LeftAll(cfg, rs), Run(cfg, c, rs).0, j)
  {
    hide Run, AllOk, LeftAll, PoolOk, UpdateRows, PoolIsLeft, Fresh;
    RunRows(cfg, c, rs);
  }

  /** Row x of update j is rollout t of the q-th passing prompt of generation batch g, one of those since the
      last update, and row p of that batch in every column it brought along. The rows are taken in order, batch
      behind batch, prompt behind prompt and rollout behind rollout. */
  ghost predicate RowSource(cfg: Config, rs: seq<Rollout>, outs: seq<Outcome>, j: nat, x: nat,
                            g: nat, m: DataProto, groups: seq<nat>, q: nat, t: nat, p: nat)
    requires cfg.n > 0 && cfg.filtering && AllOk(cfg, rs) && j < |outs| <= |rs| && outs[j].Updated?
  {
    var first := j - Trailing(outs[..j]);
    && 0 <= first <= g <= j && q < |groups| && t < cfg.n && p == groups[q] * cfg.n + t
    && Leaves(cfg, rs[g], m, groups, Left(cfg, rs[g]))
    && x == TotalSize(LeftAll(cfg, rs)[first..g]) + q * cfg.n + t
    && RowIs(cfg, rs[g], p, outs[j].batch, x)
  }

  lemma {:induction false} FromLeft(cfg: Config, rs: seq<Rollout>, outs: seq<Outcome>, j: nat, x: nat, g: nat, i: nat)
    returns (m: DataProto, groups: seq<nat>, q: nat, t: nat, p: nat)
    requires cfg.n > 0 && cfg.filtering && AllOk(cfg, rs) && j < |outs| <= |rs| && outs[j].Updated?
    requires 0 <= j - Trailing(outs[..j]) <= g <= j && RolloutOk(cfg, rs[g]) && Gen(cfg, rs[g]).Ok?
    requires i < Left(cfg, rs[g]).size && x == TotalSize(LeftAll(cfg, rs)[j - Trailing(outs[..j])..g]) + i
    requires forall p: nat :: RowIs(cfg, rs[g], p, Left(cfg, rs[g]), i) ==> RowIs(cfg, rs[g], p, outs[j].batch, x)
    ensures RowSource(cfg, rs, outs, j, x, g, m, groups, q, t, p)
  {
    hide Leaves, RowIs, AllOk, RolloutOk, Left, LeftAll, TotalSize, Trailing, Gen;
    m, groups := LeftGroups(cfg, rs[g]);
    q, t, p := LeftRow(cfg, rs[g], m, groups, Left(cfg, rs[g]), i);
  }

  /** Where the rows of the updates come from. */
  lemma {:induction false} UpdateRowSource(cfg: Config, c: Carry, rs: seq<Rollout>, j: nat, x: nat)
    returns (g: nat, m: DataProto, groups: seq<nat>, q: nat, t: nat, p: nat)
    requires Fresh(cfg, c) && cfg.filtering && AllOk(cfg, rs) && j < |Run(cfg, c, rs).0|
    requires Run(cfg, c, rs).0[j].Updated? && x < Run(cfg, c, rs).0[j].batch.size
    ensures |Run(cfg, c, rs).0| <= |rs| && RowSource(cfg, rs, Run(cfg, c, rs).0, j, x, g, m, groups, q, t, p)
  {
    FreshCarry(cfg, c);
    hide Run, AllOk, RolloutOk, Left, LeftAll, TotalSize, Trailing, Gen, PoolOk, UpdateRows, RowSource, RowIs;
    UpdateJoins(cfg, c, rs, j);
    var outs := Run(cfg, c, rs).0;
    var i;
    g, i := RowJoined(cfg, rs, outs, j, x);
    NotFailed(cfg, c, rs, j, g);
    m, groups, q, t, p := FromLeft(cfg, rs, outs, j, x, g, i);
  }
}
