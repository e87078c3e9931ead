/** Global layer numbers and shard files when every pipeline rank converts and saves its own part
    (verl/model_merger/megatron_model_merger.py:358-418, 422-478). */
module LayerFiles {
  import opened Wrappers
  import opened Arith
  import opened PipelineShards

  ghost predicate Positive(shards: seq<int>) {
    forall r :: 0 <= r < |shards| ==> shards[r] > 0
  }

  /** Layers of the ranks before this one: the cumulative sum up to the rank before. */
  function LayersBefore(shards: seq<int>, rank: nat): int
    requires rank <= |shards|
  {
    Sum(shards[..rank])
  }

  lemma {:induction false} BeforeNext(shards: seq<int>, rank: nat)
    requires rank < |shards|
    ensures LayersBefore(shards, rank + 1) == LayersBefore(shards, rank) + shards[rank]
    ensures LayersBefore(shards, 0) == 0
  {
    assert shards[..rank + 1][..rank] == shards[..rank];
    assert shards[..0] == [];
  }

  lemma {:induction false} BeforeMono(shards: seq<int>, a: nat, b: nat)
    requires Positive(shards) && a <= b <= |shards|
    ensures 0 <= LayersBefore(shards, a) <= LayersBefore(shards, b)
    decreases b
  {
    if b == 0 {
      assert shards[..0] == [];
    } else {
      BeforeNext(shards, b - 1);
      BeforeMono(shards, if a < b then a else b - 1, b - 1);
      if a == b {
        BeforeMono(shards, b - 1, b - 1);
      }
    }
  }

  // ---------- which rank a layer belongs to ----------

  /** Rank and local number of a global layer. */
  ghost function Owner(shards: seq<int>, layer: int): (nat, int)
    requires Positive(shards) && 0 <= layer < Sum(shards)
  {
    var m := |shards| - 1;
    if layer >= Sum(shards[..m]) then (m, layer - Sum(shards[..m])) else Owner(shards[..m], layer)
  }

  lemma {:induction false} OwnerIsRight(shards: seq<int>, layer: int)
    requires Positive(shards) && 0 <= layer < Sum(shards)
    ensures var (r, l) := Owner(shards, layer); r < |shards| && 0 <= l < shards[r] && LayersBefore(shards, r) + l == layer
  {
    var m := |shards| - 1;
    if layer < Sum(shards[..m]) {
      OwnerIsRight(shards[..m], layer);
      assert shards[..m][..Owner(shards[..m], layer).0] == shards[..Owner(shards[..m], layer).0];
    }
  }

  /** Numbering each rank's layers from its cumulative start hits every layer exactly once. */
  lemma {:induction false} LayersPartition(shards: seq<int>, rank: nat, local: int)
    requires Positive(shards) && rank < |shards| && 0 <= local < shards[rank]
    ensures 0 <= LayersBefore(shards, rank) + local < Sum(shards)
    ensures Owner(shards, LayersBefore(shards, rank) + local) == (rank, local)
  {
    var layer := LayersBefore(shards, rank) + local;
    BeforeMono(shards, rank, rank);
    BeforeNext(shards, rank);
    BeforeMono(shards, rank + 1, |shards|);
    assert shards[..|shards|] == shards;
    OwnerIsRight(shards, layer);
    var (r, l) := Owner(shards, layer);
    BeforeNext(shards, r);
    if r < rank {
      BeforeMono(shards, r + 1, rank);
      assert false;
    } else if rank < r {
      BeforeMono(shards, rank + 1, r);
      assert false;
    }
  }

  // ---------- renaming the layers of one rank ----------

  /** A parameter name, cut at its layer number if it has one. */
  datatype Key = Key(prefix: string, layer: Option<int>, suffix: string)

  function Shifted(k: Key, start: int): Key {
    if k.layer.Some? then k.(layer := Some(k.layer.value + start)) else k
  }

  function ShiftedAll(model: seq<Key>, start: int): (r: seq<Key>)
    ensures |r| == |model| && forall i :: 0 <= i < |r| ==> r[i] == Shifted(model[i], start)
  {
    seq(|model|, i requires 0 <= i < |model| => Shifted(model[i], start))
  }

  /** The highest local layer, 0 if there is none. */
  function Handled(model: seq<Key>): int {
    if model == [] then 0
    else
      var before, k := Handled(model[..|model| - 1]), model[|model| - 1];
      if k.layer.Some? && k.layer.value > before then k.layer.value else before
  }

  function StartOf(models: seq<seq<Key>>, start: int): int {
    if models == [] then start else StartOf(models[..|models| - 1], start) + Handled(models[|models| - 1]) + 1
  }

  /** Only layer numbers change, all by the same amount. */
  ghost predicate Renumbered(names: seq<Key>, model: seq<Key>, shift: int) {
    && |names| == |model|
    && forall i :: 0 <= i < |model| ==>
         && names[i].prefix == model[i].prefix && names[i].suffix == model[i].suffix
         && (model[i].layer == None ==> names[i].layer == None)
         && (model[i].layer.Some? ==> names[i].layer == Some(model[i].layer.value + shift))
  }

  lemma {:induction false} ShiftedRenumbers(model: seq<Key>, start: int)
    ensures Renumbered(ShiftedAll(model, start), model, start)
  {}

  method MergeStateDicts(models: seq<seq<Key>>, layersCum: int) returns (renamed: seq<seq<Key>>)
    ensures |renamed| == |models|
    ensures forall i :: 0 <= i < |models| ==> renamed[i] == ShiftedAll(models[i], StartOf(models[..i], layersCum))
    ensures forall i :: 0 <= i < |models| ==> Renumbered(renamed[i], models[i], StartOf(models[..i], layersCum))
  {
    hide Renumbered, Handled;
    renamed := [];
    var cum := layersCum;
    for i := 0 to |models|
      invariant |renamed| == i && cum == StartOf(models[..i], layersCum)
      invariant forall j :: 0 <= j < i ==> renamed[j] == ShiftedAll(models[j], StartOf(models[..j], layersCum))
    {
      var names, handled := MergeModel(models[i], cum);
      renamed := renamed + [names];
      cum := cum + handled + 1;
      assert models[..i + 1][..i] == models[..i];
    }
    forall i | 0 <= i < |models|
      ensures Renumbered(renamed[i], models[i], StartOf(models[..i], layersCum))
    {
      ShiftedRenumbers(models[i], StartOf(models[..i], layersCum));
    }
  }

  /** The keys of one model part; the highest local layer is kept track of. */
  method MergeModel(model: seq<Key>, layersCum: int) returns (names: seq<Key>, handled: int)
    ensures names == ShiftedAll(model, layersCum) && handled == Handled(model)
    ensures Renumbered(names, model, layersCum)
  {
    handled, names := 0, [];
    for j := 0 to |model|
      invariant handled == Handled(model[..j]) && |names| == j
      invariant forall h :: 0 <= h < j ==> names[h] == Shifted(model[h], layersCum)
    {
      assert model[..j + 1][..j] == model[..j];
      var key := model[j];
      if key.layer.Some? {
        var local := key.layer.value;
        handled := if local > handled then local else handled;
        names := names + [key.(layer := Some(local + layersCum))];
      } else {
        names := names + [key];
      }
    }
    assert model[..|model|] == model;
  }

  ghost predicate HasLayer(model: seq<Key>, l: int) {
    exists i :: 0 <= i < |model| && model[i].layer == Some(l)
  }

  /** The model part has exactly the local layers 0 up to n. */
  ghost predicate Dense(model: seq<Key>, n: int) {
    n > 0 && forall l :: HasLayer(model, l) <==> 0 <= l < n
  }

  lemma {:induction false} HandledBounds(model: seq<Key>)
    ensures Handled(model) >= 0
    ensures forall i :: 0 <= i < |model| && model[i].layer.Some? ==> model[i].layer.value <= Handled(model)
    ensures Handled(model) == 0 || HasLayer(model, Handled(model))
  {
    if model != [] {
      var m := |model| - 1;
      HandledBounds(model[..m]);
      assert forall i :: 0 <= i < m ==> model[i] == model[..m][i];
      if Handled(model[..m]) != 0 {
        var i :| 0 <= i < m && model[..m][i].layer == Some(Handled(model[..m]));
        assert model[i].layer == Some(Handled(model[..m]));
      }
    }
  }

  lemma {:induction false} DenseHandled(model: seq<Key>, n: int)
    requires Dense(model, n)
    ensures Handled(model) == n - 1
  {
    HandledBounds(model);
    assert HasLayer(model, n - 1);
  }

  /** Model parts with the layers 0 up to n[i] are numbered one behind the other. */
  lemma {:induction false} PartsInSequence(models: seq<seq<Key>>, sizes: seq<int>, start: int)
    requires |models| == |sizes| && forall i :: 0 <= i < |models| ==> Dense(models[i], sizes[i])
    ensures StartOf(models, start) == start + Sum(sizes)
  {
    hide Dense;
    if models != [] {
      var m := |models| - 1;
      PartsInSequence(models[..m], sizes[..m], start);
      DenseHandled(models[m], sizes[m]);
    }
  }

  /** Each rank converting one model part with its local layers, a key gets a layer number exactly when that
      layer is the rank's own: all ranks together number 0 up to the total without overlap. */
  lemma {:induction false} RankLayers(shards: seq<int>, rank: nat, model: seq<Key>, layer: int)
    requires Positive(shards) && rank < |shards| && Dense(model, shards[rank])
    ensures HasLayer(ShiftedAll(model, StartOf([model][..0], LayersBefore(shards, rank))), layer)
       <==> 0 <= layer < Sum(shards) && Owner(shards, layer).0 == rank
  {
    var start := LayersBefore(shards, rank);
    assert [model][..0] == [];
    ShiftedHas(model, start, layer);
    if 0 <= layer - start < shards[rank] {
      LayersPartition(shards, rank, layer - start);
    } else if 0 <= layer < Sum(shards) {
      OwnerIsRight(shards, layer);
    }
  }

  lemma {:induction false} ShiftedHas(model: seq<Key>, start: int, layer: int)
    ensures HasLayer(ShiftedAll(model, start), layer) <==> HasLayer(model, layer - start)
  {
    var r := ShiftedAll(model, start);
    if HasLayer(r, layer) {
      var i :| 0 <= i < |r| && r[i].layer == Some(layer);
      assert model[i].layer == Some(layer - start);
    }
    if HasLayer(model, layer - start) {
      var i :| 0 <= i < |model| && model[i].layer == Some(layer - start);
      assert r[i].layer == Some(layer);
    }
  }

  // ---------- shard files ----------

  function SavesPerLayer(layers: int): nat {
    if layers < 30 then 1 else 2
  }

  /** `np.array_split(n, k)`: the first n mod k sections are one longer. */
  function SectionStart(n: nat, k: nat, i: nat): nat
    requires k > 0
  {
    i * (n / k) + if i < n % k then i else n % k
  }

  lemma {:induction false} SectionBounds(n: nat, k: nat, i: nat)
    requires i < k
    ensures SectionStart(n, k, i) <= SectionStart(n, k, i + 1) <= n
    ensures SectionStart(n, k, 0) == 0 && SectionStart(n, k, k) == n
    ensures SectionStart(n, k, i + 1) - SectionStart(n, k, i) == n / k + if i < n % k then 1 else 0
  {
    MulOne(i, n / k);
    MulMono(i + 1, k, n / k);
    assert n == (n / k) * k + n % k;
    Commute(k, n / k);
  }

  lemma {:induction false} Commute(a: int, b: int)
    ensures a * b == b * a
  {}

  function Section(keys: seq<string>, k: nat, i: nat): seq<string>
    requires i < k
  {
    SectionBounds(|keys|, k, i);
    keys[SectionStart(|keys|, k, i)..SectionStart(|keys|, k, i + 1)]
  }

  function ArraySplit(keys: seq<string>, k: nat): (r: seq<seq<string>>)
    requires k > 0
    ensures |r| == k && forall i :: 0 <= i < k ==> r[i] == Section(keys, k, i)
  {
    seq(k, i requires 0 <= i < k => Section(keys, k, i))
  }

  predicate Distinct(keys: seq<string>) {
    forall i, j :: 0 <= i < j < |keys| ==> keys[i] != keys[j]
  }

  function Numel(keys: seq<string>, sizes: map<string, nat>): nat {
    if keys == [] then 0
    else
      Numel(keys[..|keys| - 1], sizes) + if keys[|keys| - 1] in sizes then sizes[keys[|keys| - 1]] else 0
  }

  /** One key counts its own elements, none if it has no tensor. */
  lemma {:induction false} NumelSingle(k: string, sizes: map<string, nat>)
    ensures Numel([k], sizes) == if k in sizes then sizes[k] else 0
  {
    assert [k][..0] == [];
  }

  lemma {:induction false} NumelAdd(a: seq<string>, b: seq<string>, sizes: map<string, nat>)
    ensures Numel(a + b, sizes) == Numel(a, sizes) + Numel(b, sizes)
  {
    if b == [] {
      assert a + b == a;
    } else {
      assert (a + b)[..|a + b| - 1] == a + b[..|b| - 1];
      NumelAdd(a, b[..|b| - 1], sizes);
    }
  }

  /** The files a rank writes: its layers' share of the numbering. */
  ghost predicate RankFile(shards: seq<int>, rank: nat, perLayer: nat, file: int)
    requires rank < |shards|
  {
    LayersBefore(shards, rank) * perLayer < file <= LayersBefore(shards, rank + 1) * perLayer
  }

  /** The weight map names for every key the one file that holds it. */
  ghost predicate Indexed(files: map<int, seq<string>>, index: map<string, int>) {
    && (forall k :: k in index ==> index[k] in files && k in files[index[k]])
    && (forall f, k :: f in files && k in files[f] ==> k in index && index[k] == f)
  }

  /** The i-th of the files behind the first holds the i-th section of the keys. */
  ghost predicate Sectioned(files: map<int, seq<string>>, keys: seq<string>, first: int, count: nat) {
    forall i :: 0 <= i < count ==> first + i + 1 in files && files[first + i + 1] == Section(keys, count, i)
  }

  /** One rank's files, its part of the weight map and its number of tensor elements. */
  method SaveRank(shards: seq<int>, rank: nat, layers: int, keys: seq<string>, sizes: map<string, nat>)
    returns (files: map<int, seq<string>>, index: map<string, int>, numel: nat)
    requires Positive(shards) && rank < |shards| && Distinct(keys)
    ensures forall f :: f in files <==> RankFile(shards, rank, SavesPerLayer(layers), f)
    ensures Sectioned(files, keys, LayersBefore(shards, rank) * SavesPerLayer(layers), shards[rank] * SavesPerLayer(layers))
    ensures Indexed(files, index) && index.Keys == set k | k in keys
    ensures numel == Numel(keys, sizes)
  {
    var perLayer := SavesPerLayer(layers);
    var start, count := LayersBefore(shards, rank), shards[rank] * perLayer;
    FileRange(shards, rank, perLayer);
    hide LayersBefore, RankFile, SavesPerLayer, Numel, Indexed, Distinct, Sectioned;
    files, index, numel := SaveChunks(keys, ArraySplit(keys, count), start * perLayer, sizes);
  }

  /** The chunks go to consecutive files behind the first. */
  method SaveChunks(ghost keys: seq<string>, chunks: seq<seq<string>>, first: int, sizes: map<string, nat>)
    returns (files: map<int, seq<string>>, index: map<string, int>, numel: nat)
    requires chunks != [] && chunks == ArraySplit(keys, |chunks|) && Distinct(keys)
    ensures forall f :: f in files <==> first < f <= first + |chunks|
    ensures Sectioned(files, keys, first, |chunks|)
    ensures Indexed(files, index) && index.Keys == set k | k in keys
    ensures numel == Numel(keys, sizes)
  {
    hide SectionStart, Progress, Indexed, Distinct, Numel;
    ghost var n, count := |keys|, |chunks|;
    SectionBounds(n, count, 0);
    files, index, numel := map[], map[], 0;
    ProgressStart(keys, sizes);
    for i := 0 to |chunks|
      invariant forall f :: f in files <==> first < f <= first + i
      invariant forall j :: 0 <= j < i ==> files[first + j + 1] == chunks[j]
      invariant Progress(keys, sizes, SectionStart(n, count, i), files, index, numel)
    {
      SectionBounds(n, count, i);
      assert chunks[i] == Section(keys, count, i);
      index, numel := SaveChunk(chunks[i], first + i + 1, sizes, keys, SectionStart(n, count, i),
                                SectionStart(n, count, i + 1), files, index, numel);
      files := files[first + i + 1 := chunks[i]];
    }
    ProgressEnd(keys, sizes, files, index, numel);
  }

  /** Where the loop over the chunks stands: the first n keys are saved, entered and counted. */
  ghost predicate Progress(keys: seq<string>, sizes: map<string, nat>, n: nat, files: map<int, seq<string>>,
                           index: map<string, int>, numel: nat) {
    Indexed(files, index) && Seen(keys, n, index) && numel == Numel(keys[..n], sizes)
  }

  lemma {:induction false} ProgressStart(keys: seq<string>, sizes: map<string, nat>)
    ensures Progress(keys, sizes, 0, map[], map[], 0)
  {}

  lemma {:induction false} ProgressEnd(keys: seq<string>, sizes: map<string, nat>, files: map<int, seq<string>>,
                                       index: map<string, int>, numel: nat)
    requires Progress(keys, sizes, |keys|, files, index, numel)
    ensures Indexed(files, index) && index.Keys == (set k | k in keys) && numel == Numel(keys, sizes)
  {
    hide Numel, Indexed;
    assert keys[..|keys|] == keys;
  }

  method SaveChunk(chunk: seq<string>, file: int, sizes: map<string, nat>, ghost keys: seq<string>, ghost lo: nat,
                   ghost hi: nat, ghost files: map<int, seq<string>>, index: map<string, int>, numel: nat)
    returns (index': map<string, int>, numel': nat)
    requires lo <= hi <= |keys| && chunk == keys[lo..hi] && Distinct(keys) && file !in files
    requires Progress(keys, sizes, lo, files, index, numel)
    ensures Progress(keys, sizes, hi, files[file := chunk], index', numel')
  {
    hide Numel, Indexed, Seen, Distinct;
    assert keys[..hi] == keys[..lo] + chunk;
    NumelAdd(keys[..lo], chunk, sizes);
    numel' := numel + Numel(chunk, sizes);
    index' := IndexChunk(chunk, file, index, keys, lo, hi, files);
  }

  /** The numbers from the layers before, times the files per layer, on. */
  lemma {:induction false} FileRange(shards: seq<int>, rank: nat, perLayer: nat)
    requires rank < |shards| && Positive(shards) && perLayer > 0
    ensures shards[rank] * perLayer > 0
    ensures var first := LayersBefore(shards, rank) * perLayer;
            forall f :: RankFile(shards, rank, perLayer, f) <==> first < f <= first + shards[rank] * perLayer
  {
    BeforeNext(shards, rank);
    Distribute(LayersBefore(shards, rank), shards[rank], perLayer);
    MulMono(1, shards[rank], perLayer);
  }

  /** The keys so far are those in the weight map. */
  ghost predicate Seen(keys: seq<string>, n: nat, index: map<string, int>) {
    n <= |keys| && forall k :: k in index <==> k in keys[..n]
  }

  /** Enter the keys of one chunk, none of which was there before. */
  method IndexChunk(chunk: seq<string>, file: int, index: map<string, int>,
                    ghost keys: seq<string>, ghost lo: nat, ghost hi: nat, ghost files: map<int, seq<string>>)
    returns (index': map<string, int>)
    requires lo <= hi <= |keys| && chunk == keys[lo..hi] && Distinct(keys)
    requires Indexed(files, index) && Seen(keys, lo, index) && file !in files
    ensures Indexed(files[file := chunk], index') && Seen(keys, hi, index')
  {
    index' := index;
    for j := 0 to |chunk|
      invariant forall k :: k in index' <==> k in keys[..lo] || k in chunk[..j]
      invariant forall k :: k in keys[..lo] ==> k in index' && index'[k] == index[k]
      invariant forall k :: k in chunk[..j] ==> k in index' && index'[k] == file
    {
      NewKey(keys, lo, lo + j);
      index' := index'[chunk[j] := file];
      assert chunk[..j + 1] == chunk[..j] + [chunk[j]];
    }
    assert chunk[..|chunk|] == chunk;
    assert keys[..hi] == keys[..lo] + chunk;
    assert forall k :: k in keys[..lo] ==> k !in chunk by {
      forall j | 0 <= j < |chunk|
        ensures chunk[j] !in keys[..lo]
      {
        NewKey(keys, lo, lo + j);
      }
    }
  }

  lemma {:induction false} NewKey(keys: seq<string>, lo: nat, j: nat)
    requires Distinct(keys) && lo <= j < |keys|
    ensures keys[j] !in keys[..lo]
  {}

  // ---------- all ranks together ----------

  /** The file numbers 1 up to the total are divided among the ranks: each belongs to the rank that owns the
      layer it is for. */
  lemma {:induction false} FilesPartition(shards: seq<int>, perLayer: nat, file: int, rank: nat)
    requires Positive(shards) && perLayer > 0 && rank < |shards|
    ensures RankFile(shards, rank, perLayer, file) ==> 1 <= file <= Sum(shards) * perLayer
    ensures 1 <= file <= Sum(shards) * perLayer ==>
              var layer := (file - 1) / perLayer;
              0 <= layer < Sum(shards) && (RankFile(shards, rank, perLayer, file) <==> rank == Owner(shards, layer).0)
  {
    var lo, hi, layer := LayersBefore(shards, rank), LayersBefore(shards, rank + 1), (file - 1) / perLayer;
    BeforeMono(shards, rank, rank + 1);
    BeforeMono(shards, rank + 1, |shards|);
    assert shards[..|shards|] == shards;
    MulMono(0, lo, perLayer);
    MulMono(hi, Sum(shards), perLayer);
    BeforeNext(shards, rank);
    if 1 <= file <= Sum(shards) * perLayer {
      DivBelow(file - 1, Sum(shards), perLayer);
      LayerOfFile(file, perLayer, lo);
      LayerOfFile(file, perLayer, hi);
      OwnedBetween(shards, rank, layer);
    }
  }

  lemma {:induction false} LayerOfFile(file: int, perLayer: nat, bound: int)
    requires perLayer > 0 && file >= 1
    ensures file <= bound * perLayer <==> (file - 1) / perLayer < bound
  {
    var layer := (file - 1) / perLayer;
    assert file - 1 == layer * perLayer + (file - 1) % perLayer;
    if layer < bound {
      MulMono(layer + 1, bound, perLayer);
      MulOne(layer, perLayer);
    } else {
      MulMono(bound, layer, perLayer);
    }
  }

  lemma {:induction false} OwnedBetween(shards: seq<int>, rank: nat, layer: int)
    requires Positive(shards) && rank < |shards| && 0 <= layer < Sum(shards)
    ensures LayersBefore(shards, rank) <= layer < LayersBefore(shards, rank + 1) <==> rank == Owner(shards, layer).0
  {
    BeforeNext(shards, rank);
    OwnerIsRight(shards, layer);
    if LayersBefore(shards, rank) <= layer < LayersBefore(shards, rank + 1) {
      LayersPartition(shards, rank, layer - LayersBefore(shards, rank));
    }
  }

  /** The gathered weight map: later ranks overwrite earlier ones. */
  function WeightMap(indexes: seq<map<string, int>>): map<string, int> {
    if indexes == [] then map[] else WeightMap(indexes[..|indexes| - 1]) + indexes[|indexes| - 1]
  }

  ghost predicate AllSaved(shards: seq<int>, perLayer: nat, files: seq<map<int, seq<string>>>, indexes: seq<map<string, int>>) {
    && |files| == |indexes| == |shards|
    && (forall r :: 0 <= r < |shards| ==> Indexed(files[r], indexes[r]))
    && (forall r, f :: 0 <= r < |shards| ==> (f in files[r] <==> RankFile(shards, r, perLayer, f)))
  }

  lemma {:induction false} MapFrom(indexes: seq<map<string, int>>, k: string) returns (r: nat)
    requires k in WeightMap(indexes)
    ensures r < |indexes| && k in indexes[r] && WeightMap(indexes)[k] == indexes[r][k]
    ensures forall s :: r < s < |indexes| ==> k !in indexes[s]
  {
    var m := |indexes| - 1;
    if k in indexes[m] {
      r := m;
    } else {
      r := MapFrom(indexes[..m], k);
    }
  }

  lemma {:induction false} MapHas(indexes: seq<map<string, int>>, k: string, r: nat)
    requires r < |indexes| && k in indexes[r]
    ensures k in WeightMap(indexes)
  {
    var m := |indexes| - 1;
    if r < m {
      MapHas(indexes[..m], k, r);
    }
  }

  /** The weight map names a file of rank r that holds the key, and no file of another rank has that number -
      if and only if no later rank saved the same key too. */
  lemma {:induction false} WeightMapNamesTheFile(shards: seq<int>, perLayer: nat, files: seq<map<int, seq<string>>>,
                                                 indexes: seq<map<string, int>>, r: nat, k: string)
    requires Positive(shards) && perLayer > 0 && AllSaved(shards, perLayer, files, indexes)
    requires r < |shards| && k in indexes[r]
    ensures k in WeightMap(indexes)
    ensures var file := WeightMap(indexes)[k];
            (file in files[r] && k in files[r][file] && forall s :: 0 <= s < |shards| && s != r ==> file !in files[s])
            <==> (forall s :: r < s < |shards| ==> k !in indexes[s])
  {
    MapHas(indexes, k, r);
    var from := MapFrom(indexes, k);
    var file := WeightMap(indexes)[k];
    assert Indexed(files[from], indexes[from]);
    forall s | 0 <= s < |shards|
      ensures file in files[s] <==> s == from
    {
      FilesPartition(shards, perLayer, file, from);
      FilesPartition(shards, perLayer, file, s);
    }
  }

  /** Two ranks of one layer that both save the embedding: the map names only the second rank's file. */
  lemma {:induction false} SharedKeyOverwritten()
    ensures var shards := [1, 1];
            var files := [map[1 := ["embed"]], map[2 := ["embed"]]];
            var indexes := [map["embed" := 1], map["embed" := 2]];
            Positive(shards) && AllSaved(shards, 1, files, indexes) && WeightMap(indexes) == map["embed" := 2]
  {
    var shards := [1, 1];
    var files := [map[1 := ["embed"]], map[2 := ["embed"]]];
    var indexes := [map["embed" := 1], map["embed" := 2]];
    var first: seq<map<string, int>> := [map["embed" := 1]];
    assert indexes[..1] == first && first[..0] == [];
    assert WeightMap(indexes[..1]) == map["embed" := 1];
    BeforeNext(shards, 0);
    BeforeNext(shards, 1);
    forall r, f | 0 <= r < 2
      ensures f in files[r] <==> RankFile(shards, r, 1, f)
    {
      assert LayersBefore(shards, r) == r && LayersBefore(shards, r + 1) == r + 1;
    }
  }

  /** For the plan the shard search found, the ranks' layers are exactly the model's, and their files are
      exactly those numbered 1 up to the total. */
  lemma {:induction false} FoundShardsCover(layers: int, ranks: int, file: int)
    requires Shards(layers, ranks).Ok?
    ensures var shards := Shards(layers, ranks).value;
            && Positive(shards) && |shards| == ranks && Sum(shards) == layers
            && (1 <= file <= (if layers < 30 then layers else 2 * layers)
                <==> exists r: nat :: r < |shards| && RankFile(shards, r, SavesPerLayer(layers), file))
  {
    FoundIsPlan(layers, ranks);
    var shards, perLayer := Shards(layers, ranks).value, SavesPerLayer(layers);
    hide Shards, RankFile;
    if 1 <= file <= layers * perLayer {
      FilesPartition(shards, perLayer, file, 0);
      var owner := Owner(shards, (file - 1) / perLayer).0;
      OwnerIsRight(shards, (file - 1) / perLayer);
      FilesPartition(shards, perLayer, file, owner);
      assert RankFile(shards, owner, perLayer, file);
    }
    if r: nat :| r < |shards| && RankFile(shards, r, perLayer, file) {
      FilesPartition(shards, perLayer, file, r);
    }
  }
}
