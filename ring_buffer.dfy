/**
 * RingBuffer<T>: a fixed-capacity array that keeps the most recent items.
 * `history` is every item ever added; the buffer holds the last `count` of
 * them, item k of the history in slot k mod capacity.
 */
module RingBuffers {
  import opened Common

  function MinNat(a: nat, b: nat): nat { if a <= b then a else b }

  /**
   * What Tail(size) returns from a buffer of the given capacity after the
   * items of `history` were added: the newest min(size, stored) of them.
   */
  function Recent<T>(history: seq<T>, capacity: nat, size: nat): (r: seq<T>)
    ensures |r| == MinNat(size, MinNat(|history|, capacity)) && |r| <= capacity
    ensures forall i :: 0 <= i < |r| ==> r[i] == history[|history| - |r| + i]
  {
    history[|history| - MinNat(size, MinNat(|history|, capacity))..]
  }

  class RingBuffer<T(0)> {
    var buf: array<T>
    var count: nat
    /** The next slot to write. */
    var head: nat
    ghost var history: seq<T>

    ghost predicate Valid()
      reads this, buf
    {
      buf.Length > 0
      && head == |history| % buf.Length
      && count == MinNat(|history|, buf.Length)
      && forall k :: |history| - count <= k < |history| ==> buf[k % buf.Length] == history[k]
    }

    /** The items the buffer still holds, oldest first. */
    ghost function Contents(): seq<T>
      reads this
      requires count <= |history|
    {
      history[|history| - count..]
    }

    constructor (capacity: nat)
      requires capacity > 0
      ensures Valid() && fresh(buf) && buf.Length == capacity && history == []
    {
      buf := new T[capacity];
      count := 0;
      head := 0;
      history := [];
    }

    /** Add: writes over the oldest slot once the buffer is full. */
    method Add(item: T)
      requires Valid()
      modifies this, buf
      ensures Valid() && buf == old(buf) && history == old(history) + [item]
      ensures count == MinNat(|history|, buf.Length) && head == |history| % buf.Length
      ensures old(count) < buf.Length ==> Contents() == old(Contents()) + [item]
      ensures old(count) == buf.Length ==> Contents() == old(Contents())[1..] + [item]
    {
      ghost var n := |history|;
      buf[head] := item;
      head := (head + 1) % buf.Length;
      count := MinNat(count + 1, buf.Length);
      history := history + [item];
      ModAddLeft(n, 1, buf.Length);
      forall k | |history| - count <= k < |history|
        ensures buf[k % buf.Length] == history[k]
      {
        if k < n {
          ModDistinct(k, n, buf.Length);
        }
      }
    }

    /** Tail: a copy of the last min(size, count) items, oldest first. */
    method Tail(size: nat) returns (r: seq<T>)
      requires Valid()
      ensures r == Recent(history, buf.Length, size)
      ensures r == Contents()[count - MinNat(size, count)..]
    {
      var n := MinNat(size, count);
      var arr := new T[n];
      var len := buf.Length;
      var start := (head - n + len) % len;
      ghost var first := |history| - n;
      for i := 0 to n
        invariant forall j :: 0 <= j < i ==> arr[j] == history[first + j]
      {
        SlotHolds(n, start, i);
        arr[i] := buf[(start + i) % len];
      }
      r := arr[..];
      assert r == history[first..];
    }

    /** Counting `i` slots on from the slot of the oldest of the last `n` items reaches history item |history| - n + i. */
    lemma SlotHolds(n: nat, start: int, i: nat)
      requires Valid() && n <= count && i < n && start == (head - n + buf.Length) % buf.Length
      ensures buf[(start + i) % buf.Length] == history[|history| - n + i]
    {
      SlotOf(|history|, buf.Length, n, i, start);
    }

    /** LastOrDefault: the item added last, if any. */
    method LastOrDefault() returns (r: Option<T>)
      requires Valid()
      ensures r == if history == [] then None else Some(history[|history| - 1])
    {
      if count == 0 {
        return None;
      }
      var len := buf.Length;
      var idx := (head - 1 + len) % len;
      assert idx == (|history| - 1) % len by {
        ModAddLeft(|history|, len - 1, len);
        ModShift(|history| - 1, 1, len);
      }
      return Some(buf[idx]);
    }
  }

  /** Counting i slots on from `n` slots before the head reaches the slot of history item size - n + i. */
  lemma SlotOf(size: nat, len: nat, n: nat, i: nat, start: int)
    requires len > 0 && n <= size && start == (size % len - n + len) % len
    ensures (start + i) % len == (size - n + i) % len
  {
    calc {
      (start + i) % len;
    == { ModAddLeft(size % len - n + len, i, len); }
      (size % len + (len - n + i)) % len;
    == { ModAddLeft(size, len - n + i, len); }
      ((size - n + i) + 1 * len) % len;
    == { ModShift(size - n + i, 1, len); }
      (size - n + i) % len;
    }
  }
}
