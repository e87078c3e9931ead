/** The two receiving loops of the agent wrapper (nixl_checkpoint_engine.py:119-131): both file what
    arrives under its sender, but `get_notification` rebinds its own parameter while doing so. */
module NixlAgent {
  import opened Wrappers

  type Key = nat

  /** Agent names are unique strings; only their identity matters. */
  type Name = nat

  /** One (name, values) entry of a dictionary of queues, in iteration order. */
  datatype Entry<V> = Entry(name: Name, values: seq<V>)

  function QueueOf<V>(queues: map<Name, seq<V>>, name: Name): seq<V> {
    if name in queues then queues[name] else []
  }

  /** `for name, values in entries.items(): queues[name].extend(values)`. */
  function File<V>(queues: map<Name, seq<V>>, entries: seq<Entry<V>>): map<Name, seq<V>>
    decreases |entries|
  {
    if entries == [] then queues
    else File(queues[entries[0].name := QueueOf(queues, entries[0].name) + entries[0].values], entries[1..])
  }

  function LastName<V>(name: Name, entries: seq<Entry<V>>): Name {
    if entries == [] then name else entries[|entries| - 1].name
  }

  /** The values filed under a name. */
  function ValuesFor<V>(entries: seq<Entry<V>>, name: Name): seq<V> {
    if entries == [] then []
    else (if entries[0].name == name then entries[0].values else []) + ValuesFor(entries[1..], name)
  }

  lemma {:induction false} FileQueue<V>(queues: map<Name, seq<V>>, entries: seq<Entry<V>>, name: Name)
    ensures QueueOf(File(queues, entries), name) == QueueOf(queues, name) + ValuesFor(entries, name)
    decreases |entries|
  {
    if entries != [] {
      var e := entries[0];
      FileQueue(queues[e.name := QueueOf(queues, e.name) + e.values], entries[1..], name);
    }
  }

  // ---------- notifications ----------

  datatype Taken<V> = Taken(value: Option<V>, queues: map<Name, seq<V>>, polls: nat)

  /** What `get_notification` returns when polling yields the given batches one after the other; None
      when they run out while it still waits. */
  function Await(queues: map<Name, seq<Key>>, name: Name, batches: seq<seq<Entry<Key>>>): Taken<Key>
    decreases |batches|
  {
    var q := QueueOf(queues, name);
    if q != [] then Taken(Some(q[0]), queues[name := q[1..]], 0)
    else if batches == [] then Taken(None, queues, 0)
    else
      var t := Await(File(queues, batches[0]), LastName(name, batches[0]), batches[1..]);
      t.(polls := t.polls + 1)
  }

  function AllFor<V>(batches: seq<seq<Entry<V>>>, name: Name): seq<V> {
    if batches == [] then [] else ValuesFor(batches[0], name) + AllFor(batches[1..], name)
  }

  ghost predicate OnlyFrom<V>(batches: seq<seq<Entry<V>>>, name: Name) {
    forall b, e :: 0 <= b < |batches| && 0 <= e < |batches[b]| ==> batches[b][e].name == name
  }

  // ---------- whose queue is read ----------

  /** What the parameter is bound to after the given batches: the sender listed last. */
  function Bound<V>(name: Name, batches: seq<seq<Entry<V>>>): Name
    decreases |batches|
  {
    if batches == [] then name else Bound(LastName(name, batches[0]), batches[1..])
  }

  /** Everything the name bound after b batches has been sent by then. */
  function Pending<V>(queues: map<Name, seq<V>>, name: Name, batches: seq<seq<Entry<V>>>, b: nat): seq<V>
    requires b <= |batches|
  {
    QueueOf(queues, Bound(name, batches[..b])) + AllFor(batches[..b], Bound(name, batches[..b]))
  }

  /** The call can return after b batches, and not before. */
  ghost predicate FirstReady<V>(queues: map<Name, seq<V>>, name: Name, batches: seq<seq<Entry<V>>>, b: nat) {
    && b <= |batches| && Pending(queues, name, batches, b) != []
    && forall a: nat :: a < b ==> Pending(queues, name, batches, a) == []
  }

  /** One batch less: file the first and go on with the name it leaves bound. */
  lemma {:induction false} PendingStep<V>(queues: map<Name, seq<V>>, name: Name, batches: seq<seq<Entry<V>>>, b: nat)
    requires 0 < b <= |batches|
    ensures Bound(name, batches[..b]) == Bound(LastName(name, batches[0]), batches[1..][..b - 1])
    ensures Pending(queues, name, batches, b)
         == Pending(File(queues, batches[0]), LastName(name, batches[0]), batches[1..], b - 1)
  {
    hide File, ValuesFor, LastName;
    var first, rest := batches[0], batches[1..][..b - 1];
    var seen := batches[..b];
    assert seen[0] == first && seen[1..] == rest;
    var n := Bound(name, seen);
    FileQueue(queues, first, n);
    assert AllFor(seen, n) == ValuesFor(first, n) + AllFor(rest, n);
    assert QueueOf(queues, n) + (ValuesFor(first, n) + AllFor(rest, n))
        == (QueueOf(queues, n) + ValuesFor(first, n)) + AllFor(rest, n);
  }

  lemma {:induction false} PendingAtFirst<V>(queues: map<Name, seq<V>>, name: Name, batches: seq<seq<Entry<V>>>)
    ensures Pending(queues, name, batches, 0) == QueueOf(queues, name) && Bound(name, batches[..0]) == name
  {
    assert batches[..0] == [];
  }

  /** The name whose queue the answer is taken from. */
  function Source(queues: map<Name, seq<Key>>, name: Name, batches: seq<seq<Entry<Key>>>): Option<Name>
    decreases |batches|
  {
    if QueueOf(queues, name) != [] then Some(name)
    else if batches == [] then None
    else Source(File(queues, batches[0]), LastName(name, batches[0]), batches[1..])
  }

  /** The call returns after the first batch that leaves a name bound which has been sent something, with the
      first key of that name, whatever else arrives. */
  lemma {:induction false} ReadsFirstReady(queues: map<Name, seq<Key>>, name: Name, batches: seq<seq<Entry<Key>>>, b: nat)
    requires FirstReady(queues, name, batches, b)
    ensures Source(queues, name, batches) == Some(Bound(name, batches[..b]))
    ensures Await(queues, name, batches).value == Some(Pending(queues, name, batches, b)[0])
    ensures Await(queues, name, batches).polls == b
    decreases b
  {
    hide Pending, Bound, File, LastName;
    PendingAtFirst(queues, name, batches);
    if b > 0 {
      assert Pending(queues, name, batches, 0) == [];
      PendingStep(queues, name, batches, b);
      var filed, last := File(queues, batches[0]), LastName(name, batches[0]);
      forall a: nat | a < b - 1
        ensures Pending(filed, last, batches[1..], a) == []
      {
        PendingStep(queues, name, batches, a + 1);
      }
      ReadsFirstReady(filed, last, batches[1..], b - 1);
    }
  }

  /** And it waits for ever exactly if no batch does that. */
  lemma {:induction false} WaitsUnlessReady(queues: map<Name, seq<Key>>, name: Name, batches: seq<seq<Entry<Key>>>)
    ensures Source(queues, name, batches) == None <==> Await(queues, name, batches).value == None
    ensures Source(queues, name, batches) == None <==>
              forall b: nat :: b <= |batches| ==> Pending(queues, name, batches, b) == []
    decreases |batches|
  {
    hide Pending, Bound, File, LastName;
    PendingAtFirst(queues, name, batches);
    if QueueOf(queues, name) == [] && batches != [] {
      var filed, last := File(queues, batches[0]), LastName(name, batches[0]);
      WaitsUnlessReady(filed, last, batches[1..]);
      forall b: nat | b < |batches|
        ensures Pending(queues, name, batches, b + 1) == Pending(filed, last, batches[1..], b)
      {
        PendingStep(queues, name, batches, b + 1);
      }
      if forall b: nat :: b <= |batches| ==> Pending(queues, name, batches, b) == [] {
        forall b: nat | b <= |batches| - 1
          ensures Pending(filed, last, batches[1..], b) == []
        {
          assert Pending(queues, name, batches, b + 1) == [];
        }
      } else {
        var b: nat :| b <= |batches| && Pending(queues, name, batches, b) != [];
        assert Pending(filed, last, batches[1..], b - 1) != [];
      }
    }
  }

  /** Agents are reported only when they have sent something. */
  ghost predicate NoEmptyEntry<V>(batches: seq<seq<Entry<V>>>) {
    forall b, e :: 0 <= b < |batches| && 0 <= e < |batches[b]| ==> batches[b][e].values != []
  }

  ghost predicate FirstArrivals<V>(batches: seq<seq<Entry<V>>>, b: nat) {
    b < |batches| && batches[b] != [] && forall a :: 0 <= a < b ==> batches[a] == []
  }

  /** The awaited queue is the one that is read if and only if it holds something already, or the first batch
      with any arrival lists the awaited name last. */
  lemma {:induction false} ReadsAwaited(queues: map<Name, seq<Key>>, name: Name, batches: seq<seq<Entry<Key>>>)
    requires NoEmptyEntry(batches)
    ensures Source(queues, name, batches) == Some(name) <==>
              || QueueOf(queues, name) != []
              || exists b: nat :: FirstArrivals(batches, b) && LastName(name, batches[b]) == name
    ensures Source(queues, name, batches) == Some(name) ==>
              var all := QueueOf(queues, name) + AllFor(batches, name);
              all != [] && Await(queues, name, batches).value == Some(all[0])
    decreases |batches|
  {
    if QueueOf(queues, name) == [] && batches != [] {
      var first, rest := batches[0], batches[1..];
      if first == [] {
        ReadsAwaited(queues, name, rest);
        forall b: nat
          ensures FirstArrivals(batches, b) <==> b > 0 && FirstArrivals(rest, b - 1)
        {
          if b > 0 && FirstArrivals(rest, b - 1) {
            assert forall a :: 0 < a < b ==> batches[a] == rest[a - 1];
          }
        }
        if exists b: nat :: FirstArrivals(rest, b) && LastName(name, rest[b]) == name {
          var b: nat :| FirstArrivals(rest, b) && LastName(name, rest[b]) == name;
          assert FirstArrivals(batches, b + 1);
        }
        assert AllFor(batches, name) == [] + AllFor(rest, name) == AllFor(rest, name);
      } else {
        FirstBatchAnswers(queues, name, batches);
        assert FirstArrivals(batches, 0);
      }
    }
  }

  /** A batch with arrivals settles it: the sender listed last is the source. */
  lemma {:induction false} FirstBatchAnswers(queues: map<Name, seq<Key>>, name: Name, batches: seq<seq<Entry<Key>>>)
    requires QueueOf(queues, name) == [] && NoEmptyEntry(batches) && batches != [] && batches[0] != []
    ensures var last := LastName(name, batches[0]);
            && Source(queues, name, batches) == Some(last)
            && QueueOf(queues, last) + AllFor(batches, last) != []
            && Await(queues, name, batches).value == Some((QueueOf(queues, last) + AllFor(batches, last))[0])
  {
    var first := batches[0];
    var last := LastName(name, first);
    LastHasValues(first);
    FileQueue(queues, first, last);
  }

  lemma {:induction false} LastHasValues<V>(entries: seq<Entry<V>>)
    requires entries != [] && entries[|entries| - 1].values != []
    ensures ValuesFor(entries, entries[|entries| - 1].name) != []
    decreases |entries|
  {
    if |entries| > 1 {
      LastHasValues(entries[1..]);
    }
  }

  // ---------- a single notifier ----------

  lemma {:induction false} OnlyFromBound<V>(batches: seq<seq<Entry<V>>>, name: Name)
    requires OnlyFrom(batches, name)
    ensures Bound(name, batches) == name
  {
    if batches != [] {
      OnlyFromBound(batches[1..], name);
    }
  }

  lemma {:induction false} AllForPrefix<V>(batches: seq<seq<Entry<V>>>, name: Name, b: nat)
    requires b <= |batches|
    ensures AllFor(batches[..b], name) <= AllFor(batches, name)
  {
    if b > 0 {
      assert batches[..b][1..] == batches[1..][..b - 1];
      AllForPrefix(batches[1..], name, b - 1);
    }
  }

  /** With a single notifier the awaited queue is always the one that is read: the call returns the first of
      all the notifier's keys, or waits if there are none. */
  lemma {:induction false} SoleNotifierAnswers(queues: map<Name, seq<Key>>, name: Name, batches: seq<seq<Entry<Key>>>)
    requires OnlyFrom(batches, name)
    ensures var t, all := Await(queues, name, batches), QueueOf(queues, name) + AllFor(batches, name);
            if all == [] then t.value.None? else t.value == Some(all[0])
  {
    hide Await, Source, AllFor, Pending;
    var all := QueueOf(queues, name) + AllFor(batches, name);
    forall b: nat | b <= |batches|
      ensures Pending(queues, name, batches, b) <= all
    {
      SolePending(queues, name, batches, b);
    }
    SolePending(queues, name, batches, |batches|);
    if all == [] {
      WaitsUnlessReady(queues, name, batches);
    } else {
      var b := LeastReady(queues, name, batches, |batches|);
      ReadsFirstReady(queues, name, batches, b);
    }
  }

  lemma {:induction false} SolePending(queues: map<Name, seq<Key>>, name: Name, batches: seq<seq<Entry<Key>>>, b: nat)
    requires OnlyFrom(batches, name) && b <= |batches|
    ensures Pending(queues, name, batches, b) <= QueueOf(queues, name) + AllFor(batches, name)
    ensures b == |batches| ==> Pending(queues, name, batches, b) == QueueOf(queues, name) + AllFor(batches, name)
  {
    OnlyFromBound(batches[..b], name);
    AllForPrefix(batches, name, b);
    if b == |batches| {
      assert batches[..b] == batches;
    }
  }

  lemma {:induction false} LeastReady<V>(queues: map<Name, seq<V>>, name: Name, batches: seq<seq<Entry<V>>>, b: nat)
    returns (least: nat)
    requires b <= |batches| && Pending(queues, name, batches, b) != []
    ensures FirstReady(queues, name, batches, least)
  {
    hide Pending;
    if a: nat :| a < b && Pending(queues, name, batches, a) != [] {
      least := LeastReady(queues, name, batches, a);
    } else {
      least := b;
    }
  }

  /** Nothing but the answer leaves the notifier's queue. */
  lemma {:induction false} SoleNotifierKeepsRest(queues: map<Name, seq<Key>>, name: Name, batches: seq<seq<Entry<Key>>>)
    requires OnlyFrom(batches, name)
    ensures var t, all := Await(queues, name, batches), QueueOf(queues, name) + AllFor(batches, name);
            && (t.value.Some? ==> all != []) && t.polls <= |batches|
            && QueueOf(t.queues, name) + AllFor(batches[t.polls..], name) == if t.value.Some? then all[1..] else []
    decreases |batches|
  {
    hide File, ValuesFor, AllFor, QueueOf;
    if QueueOf(queues, name) == [] && batches != [] {
      assert LastName(name, batches[0]) == name;
      FiledIsSent(queues, name, batches);
      SoleNotifierKeepsRest(File(queues, batches[0]), name, batches[1..]);
      var t := Await(queues, name, batches);
      assert batches[t.polls..] == batches[1..][t.polls - 1..];
    } else {
      assert batches[0..] == batches;
      if QueueOf(queues, name) != [] {
        TakeFirst(queues, name);
      } else {
        NothingSent<Key>(name);
      }
    }
  }

  lemma {:induction false} FiledIsSent<V>(queues: map<Name, seq<V>>, name: Name, batches: seq<seq<Entry<V>>>)
    requires batches != []
    ensures QueueOf(File(queues, batches[0]), name) + AllFor(batches[1..], name)
         == QueueOf(queues, name) + AllFor(batches, name)
  {
    hide File, ValuesFor;
    FileQueue(queues, batches[0], name);
  }

  lemma {:induction false} TakeFirst<V>(queues: map<Name, seq<V>>, name: Name)
    requires QueueOf(queues, name) != []
    ensures QueueOf(queues[name := QueueOf(queues, name)[1..]], name) == QueueOf(queues, name)[1..]
  {}

  lemma {:induction false} NothingSent<V>(name: Name)
    ensures AllFor<V>([], name) == []
  {}

  /** So the notifier's keys come out in the order they were sent, none lost. */
  lemma {:induction false} SoleNotifier(queues: map<Name, seq<Key>>, name: Name, batches: seq<seq<Entry<Key>>>)
    requires OnlyFrom(batches, name)
    ensures var t, all := Await(queues, name, batches), QueueOf(queues, name) + AllFor(batches, name);
            && (if all == [] then t.value.None? else t.value == Some(all[0]))
            && t.polls <= |batches|
            && QueueOf(t.queues, name) + AllFor(batches[t.polls..], name) == if all == [] then [] else all[1..]
  {
    hide Await, AllFor;
    SoleNotifierAnswers(queues, name, batches);
    SoleNotifierKeepsRest(queues, name, batches);
  }

  /** A second notifier in the same batch is enough to return the wrong sender's key: the rebound name
      decides which queue is read. */
  lemma {:induction false} SecondNotifierMisleads(name: Name, other: Name, key: Key, stray: Key)
    requires name != other
    ensures Await(map[], name, [[Entry(name, [key]), Entry(other, [stray])]]).value == Some(stray)
    ensures QueueOf(Await(map[], name, [[Entry(name, [key]), Entry(other, [stray])]]).queues, name) == [key]
  {
    var batch := [Entry(name, [key]), Entry(other, [stray])];
    assert batch[1..] == [Entry(other, [stray])];
    assert batch[1..][1..] == [];
    FileQueue(map[], batch, name);
    FileQueue(map[], batch, other);
    assert [batch][1..] == [];
    var filed := File(map[], batch);
    assert ValuesFor(batch[1..], other) == [stray] && ValuesFor(batch[1..], name) == [];
    assert QueueOf(filed, other) == [stray] && [stray][1..] == [];
    assert Await(filed, other, []) == Taken(Some(stray), filed[other := []], 0);
  }

  // ---------- messages ----------

  datatype Arrival<M> = Arrival(sender: Name, message: M)

  function MessagesFrom<M>(arrivals: seq<Arrival<M>>, name: Name): seq<M> {
    if arrivals == [] then []
    else (if arrivals[0].sender == name then [arrivals[0].message] else []) + MessagesFrom(arrivals[1..], name)
  }

  lemma {:induction false} MessagesFromSnoc<M>(arrivals: seq<Arrival<M>>, a: Arrival<M>, name: Name)
    ensures MessagesFrom(arrivals + [a], name)
         == MessagesFrom(arrivals, name) + (if a.sender == name then [a.message] else [])
  {
    if arrivals != [] {
      MessagesFromSnoc(arrivals[1..], a, name);
      assert (arrivals + [a])[1..] == arrivals[1..] + [a];
    } else {
      assert ([] + [a])[1..] == [];
    }
  }

  lemma {:induction false} MessagesFromConcat<M>(a: seq<Arrival<M>>, b: seq<Arrival<M>>, name: Name)
    ensures MessagesFrom(a + b, name) == MessagesFrom(a, name) + MessagesFrom(b, name)
  {
    if a != [] {
      MessagesFromConcat(a[1..], b, name);
      assert (a + b)[1..] == a[1..] + b;
    } else {
      assert a + b == b;
    }
  }

  class Agent<M(!new)> {
    var notifications: map<Name, seq<Key>>
    var messages: map<Name, seq<M>>

    constructor ()
      ensures notifications == map[] && messages == map[]
    {
      notifications := map[];
      messages := map[];
    }

    /** `get_notification`: poll until the queue of the (rebound) name is not empty. */
    method GetNotification(remote: Name, batches: seq<seq<Entry<Key>>>) returns (key: Option<Key>, polls: nat)
      modifies this`notifications
      ensures Taken(key, notifications, polls) == Await(old(notifications), remote, batches)
    {
      var remoteName := remote;
      polls := 0;
      while QueueOf(notifications, remoteName) == [] && polls < |batches|
        invariant polls <= |batches|
        invariant var t := Await(notifications, remoteName, batches[polls..]);
                  t.(polls := t.polls + polls) == Await(old(notifications), remote, batches)
      {
        var batch := batches[polls];
        assert batches[polls..][1..] == batches[polls + 1..];
        ghost var before, name := notifications, remoteName;
        for k := 0 to |batch|
          invariant File(notifications, batch[k..]) == File(before, batch)
          invariant remoteName == LastName(name, batch[..k])
        {
          assert batch[k..][1..] == batch[k + 1..];
          remoteName := batch[k].name;
          notifications := notifications[remoteName := QueueOf(notifications, remoteName) + batch[k].values];
        }
        assert batch[..|batch|] == batch;
        polls := polls + 1;
      }
      var q := QueueOf(notifications, remoteName);
      if q == [] {
        assert batches[polls..] == [];
        key := None;
      } else {
        key := Some(q[0]);
        notifications := notifications[remoteName := q[1..]];
      }
    }

    /** `read_message`: every arrival is filed under its own sender, so messages of each sender come out
        in the order they were sent, whoever else sends. */
    method ReadMessage(name: Name, arrivals: seq<Arrival<M>>) returns (message: Option<M>, used: nat)
      modifies this`messages
      ensures used <= |arrivals|
      ensures var all := QueueOf(old(messages), name) + MessagesFrom(arrivals, name);
              if all == [] then message.None? else message == Some(all[0])
      ensures QueueOf(messages, name) + MessagesFrom(arrivals[used..], name)
              == if message.Some? then (QueueOf(old(messages), name) + MessagesFrom(arrivals, name))[1..] else []
      ensures forall other :: other != name ==>
                QueueOf(messages, other) == QueueOf(old(messages), other) + MessagesFrom(arrivals[..used], other)
    {
      hide MessagesFrom;
      NoMessages<M>(name);
      assert FiledFrom(messages, messages, []) by {
        forall n
          ensures QueueOf(messages, n) == QueueOf(messages, n) + MessagesFrom<M>([], n)
        {
          NoMessages<M>(n);
        }
      }
      assert arrivals[..0] == [];
      used := 0;
      while QueueOf(messages, name) == [] && used < |arrivals|
        invariant used <= |arrivals|
        invariant FiledFrom(old(messages), messages, arrivals[..used])
      {
        var a := arrivals[used];
        FileOne(old(messages), messages, arrivals[..used], a);
        assert arrivals[..used + 1] == arrivals[..used] + [a];
        messages := messages[a.sender := QueueOf(messages, a.sender) + [a.message]];
        used := used + 1;
      }
      var q := QueueOf(messages, name);
      ReadOutcome(old(messages), messages, name, arrivals, used);
      if q == [] {
        message := None;
      } else {
        message := Some(q[0]);
        messages := messages[name := q[1..]];
      }
    }
  }

  lemma {:induction false} ReadOutcome<M(!new)>(before: map<Name, seq<M>>, after: map<Name, seq<M>>, name: Name,
                                                arrivals: seq<Arrival<M>>, used: nat)
    requires used <= |arrivals| && FiledFrom(before, after, arrivals[..used])
    requires QueueOf(after, name) == [] ==> used == |arrivals|
    ensures QueueOf(before, name) + MessagesFrom(arrivals, name)
         == QueueOf(after, name) + MessagesFrom(arrivals[used..], name)
    ensures QueueOf(after, name) == [] ==> MessagesFrom(arrivals[used..], name) == []
    ensures var all := QueueOf(before, name) + MessagesFrom(arrivals, name);
            QueueOf(after, name) != [] ==> all[1..] == QueueOf(after, name)[1..] + MessagesFrom(arrivals[used..], name)
  {
    hide MessagesFrom;
    assert arrivals == arrivals[..used] + arrivals[used..];
    MessagesFromConcat(arrivals[..used], arrivals[used..], name);
    NoMessages<M>(name);
    var q, early, late := QueueOf(before, name), MessagesFrom(arrivals[..used], name), MessagesFrom(arrivals[used..], name);
    assert QueueOf(after, name) == q + early;
    assert q + (early + late) == (q + early) + late;
  }

  lemma {:induction false} NoMessages<M>(name: Name)
    ensures MessagesFrom<M>([], name) == []
  {}

  /** Every queue has been extended by the arrivals of its sender, in order. */
  ghost predicate FiledFrom<M(!new)>(before: map<Name, seq<M>>, after: map<Name, seq<M>>, arrivals: seq<Arrival<M>>) {
    forall n :: QueueOf(after, n) == QueueOf(before, n) + MessagesFrom(arrivals, n)
  }

  lemma {:induction false} FileOne<M(!new)>(before: map<Name, seq<M>>, after: map<Name, seq<M>>, arrivals: seq<Arrival<M>>, a: Arrival<M>)
    requires FiledFrom(before, after, arrivals)
    ensures FiledFrom(before, after[a.sender := QueueOf(after, a.sender) + [a.message]], arrivals + [a])
  {
    var after' := after[a.sender := QueueOf(after, a.sender) + [a.message]];
    forall n
      ensures QueueOf(after', n) == QueueOf(before, n) + MessagesFrom(arrivals + [a], n)
    {
      MessagesFromSnoc(arrivals, a, n);
    }
  }
}
