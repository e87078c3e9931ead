/** The NCCL transfer of one set of weights (verl/checkpoint_engine/nccl_checkpoint_engine.py) as a
    step system: every rank runs its coroutine, every broadcast operation runs in a thread of its own,
    and all of them interleave freely. The k-th broadcast call of a rank matches the k-th call of the
    others. The fields `calls`, `log`, `groups` and `cur` record history. */
module NcclBroadcast {
  import opened Wrappers
  import opened Buckets
  import opened BucketLog

  datatype Metadata = Metadata(bucketMeta: seq<TensorMeta>, isLast: bool)

  /** The thread of an operation: not yet past the metadata, inside the collective, or finished. */
  datatype Phase = Started | Joined | Finished

  datatype Op = Op(phase: Phase, bucket: Buf, metadata: Metadata)

  datatype Pc =
    // rank 0
    | SFill | SLast
    // the other ranks
    | RBegin | RFirst | RHead | RYield(k: nat) | RWait | RLastYield(k: nat)
    // everybody
    | Done | Crashed

  datatype Rank = Rank(
    pc: Pc,
    bufA: seq<Byte>, bufB: seq<Byte>, send: Buf, recv: Buf,
    op: Option<Op>,
    metadata: Metadata,
    rest: seq<Tensor>, meta: seq<TensorMeta>, offset: nat,
    yielded: seq<Tensor>,
    calls: nat)
  {
    function At(b: Buf): seq<Byte> { if b.A? then bufA else bufB }

    function With(b: Buf, bytes: seq<Byte>): Rank {
      if b.A? then this.(bufA := bytes) else this.(bufB := bytes)
    }

    function Swapped(): Rank { this.(send := recv, recv := send) }

    /** Broadcast calls that have finished on this rank. */
    function Finishes(): int {
      if op.Some? && op.value.phase != Finished then calls - 1 else calls
    }
  }

  datatype State = State(
    ranks: seq<Rank>,
    topic: seq<seq<Metadata>>,      // topic[i]: published metadata that subscriber i has not read
    log: seq<Bucket>, groups: seq<seq<Tensor>>, cur: seq<Tensor>)

  datatype Action =
    | Pack
    | StartSend
    | SendMeta
    | EndSend
    | AwaitSend
    | StartRecv(i: nat)
    | RecvMeta(i: nat)
    | Arrive(i: nat)
    | AwaitRecv(i: nat)
    | Yield(i: nat)
    | EndYield(i: nat)

  // ---------- initial state ----------

  function StartRank(c: Config, i: nat): Rank {
    Rank(if i == 0 then SFill else RBegin, Zeros(c.cap), Zeros(c.cap), A, B, None, Metadata([], false),
         if i == 0 then c.weights else [], [], 0, [], 0)
  }

  function Start(c: Config): State {
    State(seq(c.n, i requires 0 <= i => StartRank(c, i)), seq(c.n, _ => []), [], [], [])
  }

  // ---------- when a step can happen ----------

  predicate Shape(c: Config, s: State) {
    c.n >= 2 && |s.ranks| == |s.topic| == c.n
  }

  predicate InPhase(x: Rank, p: Phase) {
    x.op.Some? && x.op.value.phase == p
  }

  predicate InYield(x: Rank) {
    x.pc.RYield? || x.pc.RLastYield?
  }

  predicate Enabled(c: Config, s: State, a: Action)
    requires Shape(c, s)
  {
    var root := s.ranks[0];
    match a
    case Pack => root.pc.SFill? && !NeedsFlush(c, root.rest, root.offset)
    case StartSend => root.pc.SFill? && NeedsFlush(c, root.rest, root.offset) && root.op.None?
    case SendMeta => InPhase(root, Started)
    // the root's call returns when every receiver has the data
    case EndSend => InPhase(root, Joined) && forall i: nat :: 0 < i < c.n ==> s.ranks[i].Finishes() >= root.calls
    case AwaitSend => InPhase(root, Finished) && ((root.pc.SFill? && NeedsFlush(c, root.rest, root.offset)) || root.pc.SLast?)
    case StartRecv(i) =>
      0 < i < c.n && (s.ranks[i].pc.RBegin? || s.ranks[i].pc.RHead?)
    case RecvMeta(i) => 0 < i < c.n && InPhase(s.ranks[i], Started) && s.topic[i] != []
    // the data of the matching call arrives at one receiver
    case Arrive(i) =>
      0 < i < c.n && InPhase(s.ranks[i], Joined) && InPhase(root, Joined) && s.ranks[i].calls == root.calls
    case AwaitRecv(i) =>
      0 < i < c.n && InPhase(s.ranks[i], Finished) && (s.ranks[i].pc.RFirst? || s.ranks[i].pc.RWait?)
    case Yield(i) => 0 < i < c.n && InYield(s.ranks[i]) && s.ranks[i].pc.k < |s.ranks[i].metadata.bucketMeta|
    case EndYield(i) => 0 < i < c.n && InYield(s.ranks[i]) && s.ranks[i].pc.k >= |s.ranks[i].metadata.bucketMeta|
  }

  // ---------- what a step does ----------

  function DoPack(c: Config, s: State): State
    requires Shape(c, s) && Enabled(c, s, Pack)
  {
    var x := s.ranks[0];
    var t := x.rest[0];
    var buf := x.At(x.send);
    var lo := if x.offset <= |buf| then x.offset else |buf|;
    var hi := if x.offset + |t.bytes| <= |buf| then x.offset + |t.bytes| else |buf|;
    var x' := x.With(x.send, buf[..lo] + t.bytes + buf[hi..])
               .(meta := Put(x.meta, MetaAt(t, x.offset)), offset := x.offset + |t.bytes|, rest := x.rest[1..]);
    s.(ranks := s.ranks[0 := x'], cur := s.cur + [t])
  }

  /** Start the broadcast of the open bucket, swap the buffers, begin the next bucket. */
  function DoStartSend(c: Config, s: State): State
    requires Shape(c, s) && Enabled(c, s, StartSend)
  {
    var x := s.ranks[0];
    var last := x.rest == [];
    var y := x.(op := Some(Op(Started, x.send, Metadata(x.meta, last))), calls := x.calls + 1);
    var x' := if last then y.(pc := SLast)
              else y.Swapped().(meta := [], offset := 0,
                                pc := if |x.rest[0].bytes| > c.cap then Crashed else SFill);
    s.(ranks := s.ranks[0 := x'],
       log := s.log + [Bucket(x.meta, last, x.At(x.send))], groups := s.groups + [s.cur], cur := [])
  }

  function SetPhase(x: Rank, p: Phase): Rank
    requires x.op.Some?
  {
    x.(op := Some(x.op.value.(phase := p)))
  }

  /** The thread of rank 0 publishes the metadata to every subscriber and enters the collective. */
  function DoSendMeta(c: Config, s: State): State
    requires Shape(c, s) && Enabled(c, s, SendMeta)
  {
    var x := s.ranks[0];
    s.(ranks := s.ranks[0 := SetPhase(x, Joined)],
       topic := seq(c.n, i requires 0 <= i < c.n => if i == 0 then s.topic[0] else s.topic[i] + [x.op.value.metadata]))
  }

  function DoEndSend(c: Config, s: State): State
    requires Shape(c, s) && Enabled(c, s, EndSend)
  {
    s.(ranks := s.ranks[0 := SetPhase(s.ranks[0], Finished)])
  }

  function DoAwaitSend(c: Config, s: State): State
    requires Shape(c, s) && Enabled(c, s, AwaitSend)
  {
    var x := s.ranks[0];
    s.(ranks := s.ranks[0 := x.(op := None, pc := if x.pc.SLast? then Done else x.pc)])
  }

  /** Start receiving the next bucket into the receive buffer, or turn to the last bucket. */
  function DoStartRecv(c: Config, s: State, i: nat): State
    requires Shape(c, s) && Enabled(c, s, StartRecv(i))
  {
    var x := s.ranks[i];
    var x' :=
      if x.pc.RHead? && x.metadata.isLast then x.(pc := RLastYield(0))
      else x.(op := Some(Op(Started, x.recv, Metadata([], false))), calls := x.calls + 1,
              pc := if x.pc.RBegin? then RFirst else RYield(0));
    s.(ranks := s.ranks[i := x'])
  }

  function DoRecvMeta(c: Config, s: State, i: nat): State
    requires Shape(c, s) && Enabled(c, s, RecvMeta(i))
  {
    var x := s.ranks[i];
    s.(ranks := s.ranks[i := x.(op := Some(x.op.value.(phase := Joined, metadata := s.topic[i][0])))],
       topic := s.topic[i := s.topic[i][1..]])
  }

  function DoArrive(c: Config, s: State, i: nat): State
    requires Shape(c, s) && Enabled(c, s, Arrive(i))
  {
    var x, root := s.ranks[i], s.ranks[0];
    s.(ranks := s.ranks[i := SetPhase(x.With(x.op.value.bucket, root.At(root.op.value.bucket)), Finished)])
  }

  function DoAwaitRecv(c: Config, s: State, i: nat): State
    requires Shape(c, s) && Enabled(c, s, AwaitRecv(i))
  {
    var x := s.ranks[i];
    s.(ranks := s.ranks[i := x.Swapped().(metadata := x.op.value.metadata, op := None, pc := RHead)])
  }

  function DoYield(c: Config, s: State, i: nat): State
    requires Shape(c, s) && Enabled(c, s, Yield(i))
  {
    var x := s.ranks[i];
    var t := View(x.At(x.send), x.metadata.bucketMeta[x.pc.k]);
    s.(ranks := s.ranks[i := x.(yielded := x.yielded + [t], pc := x.pc.(k := x.pc.k + 1))])
  }

  function DoEndYield(c: Config, s: State, i: nat): State
    requires Shape(c, s) && Enabled(c, s, EndYield(i))
  {
    var x := s.ranks[i];
    s.(ranks := s.ranks[i := x.(pc := if x.pc.RYield? then RWait else Done)])
  }

  function Apply(c: Config, s: State, a: Action): State
    requires Shape(c, s) && Enabled(c, s, a)
  {
    match a
    case Pack => DoPack(c, s)
    case StartSend => DoStartSend(c, s)
    case SendMeta => DoSendMeta(c, s)
    case EndSend => DoEndSend(c, s)
    case AwaitSend => DoAwaitSend(c, s)
    case StartRecv(i) => DoStartRecv(c, s, i)
    case RecvMeta(i) => DoRecvMeta(c, s, i)
    case Arrive(i) => DoArrive(c, s, i)
    case AwaitRecv(i) => DoAwaitRecv(c, s, i)
    case Yield(i) => DoYield(c, s, i)
    case EndYield(i) => DoEndYield(c, s, i)
  }

  ghost predicate Next(c: Config, s: State, s': State) {
    Shape(c, s) && exists a :: Enabled(c, s, a) && s' == Apply(c, s, a)
  }

  ghost predicate Run(c: Config, run: seq<State>) {
    && |run| > 0 && run[0] == Start(c)
    && forall j, k :: 0 <= j && k == j + 1 < |run| ==> Next(c, run[j], run[k])
  }
}
