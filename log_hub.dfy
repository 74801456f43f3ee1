/**
 * AlgorithmLogHub: keeps the most recent log events of each algorithm in a
 * ring buffer of its own, created on the algorithm's first event, and hands
 * every event to each sink. An event whose algorithm id is blank is filed
 * under "UNKNOWN", and reading back normalises the id the same way. Ids
 * are compared exactly. What the sinks do with an event is not modelled:
 * the hub's deliveries are kept as a ghost log.
 */
module LogHub {
  import opened Common
  import opened RingBuffers

  datatype AlgoLogLevel = Trace | Debug | Info | Warn | Error

  datatype AlgoLogEvent = AlgoLogEvent(
    time: Ticks,
    algorithmId: string,
    level: AlgoLogLevel,
    message: string,
    symbol: Option<string>,
    clientOrderId: Option<string>,
    orderId: Option<string>,
    tags: Option<map<string, string>>)

  /** A log sink, by identity. */
  datatype SinkRef = SinkRef(id: nat)

  const UnknownAlgorithm := "UNKNOWN"

  /** The id events are filed and read under: a blank id stands for "UNKNOWN". */
  function LogKey(algorithmId: string): (key: string)
    ensures IsBlank(algorithmId) ==> key == UnknownAlgorithm
    ensures !IsBlank(algorithmId) ==> key == algorithmId
  {
    if IsBlank(algorithmId) then UnknownAlgorithm else algorithmId
  }

  /** The histories after one Write: the event appended to its algorithm's history. */
  function Logged(histories: map<string, seq<AlgoLogEvent>>, e: AlgoLogEvent): map<string, seq<AlgoLogEvent>>
  {
    var key := LogKey(e.algorithmId);
    histories[key := (if key in histories then histories[key] else []) + [e]]
  }

  /**
   * GetRecent on the histories: nothing for an id never written; for one
   * written, a negative limit throws (the array of that length cannot be
   * made), otherwise the newest `limit` events the buffer still holds.
   */
  function RecentLogs(histories: map<string, seq<AlgoLogEvent>>, capacity: nat, algorithmId: string, limit: int): Outcome<seq<AlgoLogEvent>>
  {
    var key := LogKey(algorithmId);
    if key !in histories then Returned([])
    else if limit < 0 then Threw("OverflowException")
    else Returned(Recent(histories[key], capacity, limit))
  }

  /**
   * Reading an algorithm's events right after writing one with at least one
   * place to read: the event written is the newest returned, and as many
   * are returned as the limit, the events written and the capacity allow.
   */
  lemma WriteThenRead(histories: map<string, seq<AlgoLogEvent>>, capacity: nat, e: AlgoLogEvent, limit: int)
    requires capacity > 0 && limit > 0
    ensures var h := Logged(histories, e)[LogKey(e.algorithmId)];
      var r := RecentLogs(Logged(histories, e), capacity, e.algorithmId, limit);
      && r.Returned? && |r.value| == MinNat(limit, MinNat(|h|, capacity))
      && r.value != [] && r.value[|r.value| - 1] == e
  {
  }

  /** A write under one id changes nothing read under any id filed elsewhere. */
  lemma OtherIdsUnaffected(histories: map<string, seq<AlgoLogEvent>>, capacity: nat, e: AlgoLogEvent, algorithmId: string, limit: int)
    requires LogKey(algorithmId) != LogKey(e.algorithmId)
    ensures RecentLogs(Logged(histories, e), capacity, algorithmId, limit) == RecentLogs(histories, capacity, algorithmId, limit)
  {
  }

  /** Any blank id reads the events filed under "UNKNOWN", where events with a blank id were written. */
  lemma BlankReadsUnknown(histories: map<string, seq<AlgoLogEvent>>, capacity: nat, algorithmId: string, limit: int)
    requires IsBlank(algorithmId)
    ensures RecentLogs(histories, capacity, algorithmId, limit) == RecentLogs(histories, capacity, UnknownAlgorithm, limit)
  {
  }

  /**
   * After any run of writes, each id reads back, oldest first, the newest of
   * the events written with that id (under its normalisation), as many as
   * the limit and the capacity allow.
   */
  lemma {:induction false} ReadsTheWrites(es: seq<AlgoLogEvent>, capacity: nat, algorithmId: string, limit: nat)
    ensures var h := WrittenAll(map[], es);
      var mine := Written(es, LogKey(algorithmId));
      RecentLogs(h, capacity, algorithmId, limit) == Returned(Recent(mine, capacity, limit))
    decreases |es|
  {
    if es != [] {
      var n := |es| - 1;
      ReadsTheWrites(es[..n], capacity, algorithmId, limit);
      assert es[..n] + [es[n]] == es;
      WrittenTail(es, LogKey(algorithmId));
      HistoryOfWrites(es[..n], LogKey(algorithmId));
      HistoryOfWrites(es, LogKey(algorithmId));
    }
  }

  /** The histories after writing the events `es` in order. */
  function WrittenAll(histories: map<string, seq<AlgoLogEvent>>, es: seq<AlgoLogEvent>): map<string, seq<AlgoLogEvent>>
    decreases |es|
  {
    if es == [] then histories else Logged(WrittenAll(histories, es[..|es| - 1]), es[|es| - 1])
  }

  /** The events of `es` filed under `key`, in order. */
  function Written(es: seq<AlgoLogEvent>, key: string): seq<AlgoLogEvent>
    decreases |es|
  {
    if es == [] then []
    else Written(es[..|es| - 1], key) + (if LogKey(es[|es| - 1].algorithmId) == key then [es[|es| - 1]] else [])
  }

  lemma WrittenTail(es: seq<AlgoLogEvent>, key: string)
    requires es != []
    ensures Written(es, key) == Written(es[..|es| - 1], key) + (if LogKey(es[|es| - 1].algorithmId) == key then [es[|es| - 1]] else [])
  {
  }

  /** From no history, the writes leave each key holding exactly its events, and no key without one. */
  lemma {:induction false} HistoryOfWrites(es: seq<AlgoLogEvent>, key: string)
    ensures key in WrittenAll(map[], es) <==> Written(es, key) != []
    ensures key in WrittenAll(map[], es) ==> WrittenAll(map[], es)[key] == Written(es, key)
    decreases |es|
  {
    if es != [] {
      HistoryOfWrites(es[..|es| - 1], key);
    }
  }

  /** A hub's buffer holds the history `h` with the hub's capacity. */
  ghost predicate Holds(rb: RingBuffer<AlgoLogEvent>, capacity: nat, h: seq<AlgoLogEvent>)
    reads rb, rb.buf
  {
    rb.Valid() && rb.buf.Length == capacity && rb.history == h
  }

  /** The deliveries of one event: to each sink, in the sinks' order. */
  function Deliveries(sinks: seq<SinkRef>, e: AlgoLogEvent): (r: seq<(SinkRef, AlgoLogEvent)>)
    ensures |r| == |sinks| && forall i :: 0 <= i < |sinks| ==> r[i] == (sinks[i], e)
  {
    seq(|sinks|, i requires 0 <= i < |sinks| => (sinks[i], e))
  }

  class AlgorithmLogHub {
    const capacity: nat
    const sinks: seq<SinkRef>
    var buffers: map<string, RingBuffer<AlgoLogEvent>>
    /** Every event ever written under each id, oldest first. */
    ghost var histories: map<string, seq<AlgoLogEvent>>
    /** Every event handed to a sink, with the sink, in order. */
    ghost var delivered: seq<(SinkRef, AlgoLogEvent)>
    ghost var Repr: set<object>
    /** The id each buffer and each buffer's array belongs to: no two ids share either. */
    ghost var owner: map<object, string>

    ghost predicate Valid()
      reads this, Repr
    {
      this in Repr && capacity > 0 && buffers.Keys == histories.Keys
      && forall k :: k in buffers ==>
        buffers[k] in Repr && buffers[k].buf in Repr && Holds(buffers[k], capacity, histories[k])
        && buffers[k] in owner && owner[buffers[k]] == k && buffers[k].buf in owner && owner[buffers[k].buf] == k
    }

    constructor (capacityPerAlgo: nat, sinks: seq<SinkRef>)
      requires capacityPerAlgo > 0
      ensures Valid() && fresh(Repr) && capacity == capacityPerAlgo && this.sinks == sinks
      ensures histories == map[] && delivered == []
    {
      capacity := capacityPerAlgo;
      this.sinks := sinks;
      buffers := map[];
      histories := map[];
      delivered := [];
      Repr := {this};
      owner := map[];
    }

    /** The constructor with its argument: a null sink sequence throws when it is copied. */
    static method Create(capacityPerAlgo: nat, sinks: Option<seq<SinkRef>>) returns (r: Outcome<AlgorithmLogHub>)
      requires capacityPerAlgo > 0
      ensures r.Threw? <==> sinks.None?
      ensures r.Threw? ==> r == Threw("ArgumentNullException: source")
      ensures r.Returned? ==> fresh(r.value) && r.value.Valid() && r.value.sinks == sinks.value
      ensures r.Returned? ==> r.value.capacity == capacityPerAlgo && r.value.histories == map[] && r.value.delivered == []
    {
      if sinks.None? {
        return Threw("ArgumentNullException: source");
      }
      var hub := new AlgorithmLogHub(capacityPerAlgo, sinks.value);
      r := Returned(hub);
    }

    /** Write: files the event under its id, then hands it to every sink. */
    method Write(e: AlgoLogEvent)
      requires Valid()
      modifies Repr
      ensures Valid() && fresh(Repr - old(Repr))
      ensures histories == Logged(old(histories), e)
      ensures delivered == old(delivered) + Deliveries(sinks, e)
    {
      var key := LogKey(e.algorithmId);
      ghost var before := if key in histories then histories[key] else [];
      var rb := BufferFor(key);
      AddTo(key, rb, e);
      Overwrite(old(histories), key, before, before + [e]);
      Deliver(e);
    }

    /** `_buffers.GetOrAdd(algoId, ...)`: the id's buffer, created empty on first use. */
    method BufferFor(key: string) returns (rb: RingBuffer<AlgoLogEvent>)
      requires Valid()
      modifies this
      ensures Valid() && fresh(Repr - old(Repr)) && delivered == old(delivered)
      ensures key in buffers && rb == buffers[key]
      ensures histories == old(histories)[key := if key in old(histories) then old(histories[key]) else []]
    {
      if key in buffers {
        rb := buffers[key];
      } else {
        rb := new RingBuffer<AlgoLogEvent>(capacity);
        Register(key, rb);
      }
    }

    /** Files the new, empty buffer `rb` under `key`. */
    method Register(key: string, rb: RingBuffer<AlgoLogEvent>)
      requires Valid() && key !in buffers && rb !in Repr && rb.buf !in Repr && Holds(rb, capacity, [])
      modifies this
      ensures Valid() && Repr == old(Repr) + {rb, rb.buf} && delivered == old(delivered)
      ensures buffers == old(buffers)[key := rb] && histories == old(histories)[key := []]
    {
      ghost var before := buffers;
      buffers := buffers[key := rb];
      histories := histories[key := []];
      Repr := Repr + {rb, rb.buf};
      owner := owner[rb := key][rb.buf := key];
      forall k | k in buffers
        ensures buffers[k] in Repr && buffers[k].buf in Repr && Holds(buffers[k], capacity, histories[k])
        ensures buffers[k] in owner && owner[buffers[k]] == k && buffers[k].buf in owner && owner[buffers[k].buf] == k
      {
        if k != key {
          var b := before[k];
          assert b == buffers[k] && histories[k] == old(histories[k]);
          assert b in old(Repr) && b.buf in old(Repr) && old(owner)[b] == k && old(owner)[b.buf] == k;
          assert b as object != rb.buf && b.buf as object != rb;
        }
      }
    }

    /** buf.Add(e) on the buffer filed under `key`; the other buffers keep their contents. */
    method AddTo(key: string, rb: RingBuffer<AlgoLogEvent>, e: AlgoLogEvent)
      requires Valid() && key in buffers && buffers[key] == rb
      modifies this, rb, rb.buf
      ensures Valid() && Repr == old(Repr) && delivered == old(delivered)
      ensures histories == old(histories)[key := old(histories[key]) + [e]]
    {
      rb.Add(e);
      histories := histories[key := histories[key] + [e]];
      forall k | k in buffers && k != key
        ensures Holds(buffers[k], capacity, histories[k])
      {
        assert buffers[k] != rb && buffers[k].buf != rb.buf;
      }
    }

    /** `foreach (var sink in _sinks) sink.Write(e)`. */
    method Deliver(e: AlgoLogEvent)
      requires Valid()
      modifies this
      ensures Valid() && delivered == old(delivered) + Deliveries(sinks, e)
      ensures buffers == old(buffers) && histories == old(histories) && Repr == old(Repr) && owner == old(owner)
    {
      var i := 0;
      while i < |sinks|
        invariant 0 <= i <= |sinks|
        invariant delivered == old(delivered) + Deliveries(sinks[..i], e)
        invariant buffers == old(buffers) && histories == old(histories) && Repr == old(Repr) && owner == old(owner)
      {
        assert Deliveries(sinks[..i + 1], e) == Deliveries(sinks[..i], e) + [(sinks[i], e)];
        delivered := delivered + [(sinks[i], e)];
        i := i + 1;
      }
      assert sinks[..i] == sinks;
    }

    /** GetRecent: the newest `limit` events still held for the algorithm, oldest first. */
    method GetRecent(algorithmId: string, limit: int) returns (r: Outcome<seq<AlgoLogEvent>>)
      requires Valid()
      ensures r == RecentLogs(histories, capacity, algorithmId, limit)
    {
      var key := LogKey(algorithmId);
      if key !in buffers {
        return Returned([]);
      }
      if limit < 0 {
        return Threw("OverflowException");
      }
      var events := buffers[key].Tail(limit);
      r := Returned(events);
    }
  }
}
