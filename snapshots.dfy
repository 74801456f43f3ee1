/**
 * What the trading-state snapshots share: the bounded queue of recent fills,
 * the newest-first listing of that queue, and the orderings snapshots sort
 * their lists by (orders by recency, newest first; positions and
 * algorithms by name).
 */
module Snapshots {
  import opened Common
  import opened Orders

  /** The fill queue after TrimRecentFills: the newest `cap` items, oldest first. */
  function Newest<T>(q: seq<T>, cap: nat): (r: seq<T>)
    ensures |r| <= cap && |r| <= |q|
    ensures |q| <= cap ==> r == q
    ensures |q| > cap ==> |r| == cap
    ensures forall i :: 0 <= i < |r| ==> r[i] == q[|q| - |r| + i]
  {
    if |q| <= cap then q else q[|q| - cap..]
  }

  /** Enqueuing one more item and trimming keeps the newest items of the whole history. */
  lemma NewestAppend<T>(h: seq<T>, x: T, cap: nat)
    requires cap > 0
    ensures Newest(Newest(h, cap) + [x], cap) == Newest(h + [x], cap)
  {
    if |h| < cap {
      assert Newest(h, cap) == h;
    } else {
      var k := |h| - cap + 1;
      assert Newest(h, cap) + [x] == h[k - 1..] + [x];
      assert (h[k - 1..] + [x])[1..] == h[k..] + [x];
      assert (h + [x])[k..] == h[k..] + [x];
    }
  }

  /** `ToArray().Reverse()`: the newest item first. */
  function Reversed<T>(s: seq<T>): (r: seq<T>)
    ensures |r| == |s|
    ensures forall i :: 0 <= i < |s| ==> r[i] == s[|s| - 1 - i]
  {
    if s == [] then [] else [s[|s| - 1]] + Reversed(s[..|s| - 1])
  }

  /** The time an order listing sorts by: `UpdatedUtc ?? CreatedUtc`. */
  function Recency(o: OrderState): Ticks
  {
    if o.updatedUtc.Some? then o.updatedUtc.value else o.createdUtc
  }

  ghost predicate NewestFirst(s: seq<OrderState>)
  {
    forall i, j :: 0 <= i < j < |s| ==> Recency(s[i]) >= Recency(s[j])
  }

  /** Inserting into a newest-first list, after every order at least as recent (so equal keys keep their order). */
  function InsertByRecency(sorted: seq<OrderState>, o: OrderState): seq<OrderState>
  {
    if sorted == [] || Recency(sorted[|sorted| - 1]) >= Recency(o) then sorted + [o]
    else InsertByRecency(sorted[..|sorted| - 1], o) + [sorted[|sorted| - 1]]
  }

  /** `OrderByDescending(o => o.UpdatedUtc ?? o.CreatedUtc)`, a stable sort. */
  function ByRecency(s: seq<OrderState>): seq<OrderState>
  {
    if s == [] then [] else InsertByRecency(ByRecency(s[..|s| - 1]), s[|s| - 1])
  }

  lemma {:induction false} InsertByRecencyFacts(sorted: seq<OrderState>, o: OrderState)
    requires NewestFirst(sorted)
    ensures var r := InsertByRecency(sorted, o);
      NewestFirst(r) && multiset(r) == multiset(sorted) + multiset{o}
  {
    if sorted == [] || Recency(sorted[|sorted| - 1]) >= Recency(o) {
      NewestFirstSnoc(sorted, o);
    } else {
      var n := |sorted| - 1;
      var prefix := sorted[..n];
      InsertByRecencyFacts(prefix, o);
      var ins := InsertByRecency(prefix, o);
      forall i | 0 <= i < |ins| ensures Recency(ins[i]) >= Recency(sorted[n]) {
        var x := ins[i];
        assert x in multiset(ins);
        if x != o {
          assert x in multiset(prefix);
          var j :| 0 <= j < n && prefix[j] == x;
          assert sorted[j] == x;
        }
      }
      NewestFirstSnoc(ins, sorted[n]);
      assert sorted == prefix + [sorted[n]];
      assert multiset(sorted) == multiset(prefix) + multiset{sorted[n]};
    }
  }

  lemma NewestFirstSnoc(s: seq<OrderState>, y: OrderState)
    requires NewestFirst(s) && forall i :: 0 <= i < |s| ==> Recency(s[i]) >= Recency(y)
    ensures NewestFirst(s + [y])
  {
    var r := s + [y];
    forall i, j | 0 <= i < j < |r| ensures Recency(r[i]) >= Recency(r[j]) {
      assert r[i] == s[i];
    }
  }

  /** The order listing is newest first and holds exactly the orders given. */
  lemma {:induction false} ByRecencySorted(s: seq<OrderState>)
    ensures NewestFirst(ByRecency(s)) && multiset(ByRecency(s)) == multiset(s)
  {
    if s != [] {
      var n := |s| - 1;
      ByRecencySorted(s[..n]);
      InsertByRecencyFacts(ByRecency(s[..n]), s[n]);
      assert s == s[..n] + [s[n]];
    }
  }

  /** Ordinal string order: character by character, a proper prefix first. */
  predicate NameLe(a: string, b: string)
  {
    if a == [] then true
    else if b == [] then false
    else if a[0] != b[0] then a[0] < b[0]
    else NameLe(a[1..], b[1..])
  }

  lemma {:induction false} NameLeTotal(a: string, b: string)
    ensures NameLe(a, b) || NameLe(b, a)
  {
    if a != [] && b != [] && a[0] == b[0] {
      NameLeTotal(a[1..], b[1..]);
    }
  }

  lemma {:induction false} NameLeTrans(a: string, b: string, c: string)
    requires NameLe(a, b) && NameLe(b, c)
    ensures NameLe(a, c)
  {
    if a != [] && b != [] && c != [] && a[0] == b[0] && b[0] == c[0] {
      NameLeTrans(a[1..], b[1..], c[1..]);
    }
  }

  ghost predicate ByNameSorted<T>(s: seq<T>, name: T -> string)
  {
    forall i, j :: 0 <= i < j < |s| ==> NameLe(name(s[i]), name(s[j]))
  }

  /** Inserting into a list sorted by name, after every item whose name is not greater. */
  function InsertByName<T>(sorted: seq<T>, x: T, name: T -> string): seq<T>
  {
    if sorted == [] || NameLe(name(sorted[|sorted| - 1]), name(x)) then sorted + [x]
    else InsertByName(sorted[..|sorted| - 1], x, name) + [sorted[|sorted| - 1]]
  }

  /** `OrderBy(x => x.Name)`, a stable sort. */
  function ByName<T>(s: seq<T>, name: T -> string): seq<T>
  {
    if s == [] then [] else InsertByName(ByName(s[..|s| - 1], name), s[|s| - 1], name)
  }

  lemma {:induction false} InsertByNameFacts<T>(sorted: seq<T>, x: T, name: T -> string)
    requires ByNameSorted(sorted, name)
    ensures var r := InsertByName(sorted, x, name);
      ByNameSorted(r, name) && multiset(r) == multiset(sorted) + multiset{x}
  {
    if sorted == [] || NameLe(name(sorted[|sorted| - 1]), name(x)) {
      forall i | 0 <= i < |sorted| ensures NameLe(name(sorted[i]), name(x)) {
        if i < |sorted| - 1 {
          NameLeTrans(name(sorted[i]), name(sorted[|sorted| - 1]), name(x));
        }
      }
      ByNameSnoc(sorted, x, name);
    } else {
      var n := |sorted| - 1;
      var prefix := sorted[..n];
      NameLeTotal(name(sorted[n]), name(x));
      InsertByNameFacts(prefix, x, name);
      var ins := InsertByName(prefix, x, name);
      forall i | 0 <= i < |ins| ensures NameLe(name(ins[i]), name(sorted[n])) {
        var y := ins[i];
        assert y in multiset(ins);
        if y != x {
          assert y in multiset(prefix);
          var j :| 0 <= j < n && prefix[j] == y;
          assert sorted[j] == y;
        }
      }
      ByNameSnoc(ins, sorted[n], name);
      assert sorted == prefix + [sorted[n]];
      assert multiset(sorted) == multiset(prefix) + multiset{sorted[n]};
    }
  }

  lemma ByNameSnoc<T>(s: seq<T>, y: T, name: T -> string)
    requires ByNameSorted(s, name) && forall i :: 0 <= i < |s| ==> NameLe(name(s[i]), name(y))
    ensures ByNameSorted(s + [y], name)
  {
    var r := s + [y];
    forall i, j | 0 <= i < j < |r| ensures NameLe(name(r[i]), name(r[j])) {
      assert r[i] == s[i];
    }
  }

  lemma {:induction false} ByNameSortedFacts<T>(s: seq<T>, name: T -> string)
    ensures ByNameSorted(ByName(s, name), name) && multiset(ByName(s, name)) == multiset(s)
  {
    if s != [] {
      var n := |s| - 1;
      ByNameSortedFacts(s[..n], name);
      InsertByNameFacts(ByName(s[..n], name), s[n], name);
      assert s == s[..n] + [s[n]];
    }
  }

  /** Whether `keys` lists every key of `m` exactly once. */
  ghost predicate Lists<V>(keys: seq<string>, m: CIMap<V>)
  {
    && (forall k :: k in keys <==> k in m)
    && (forall i, j :: 0 <= i < j < |keys| ==> keys[i] != keys[j])
  }

  /** The values of a case-insensitive map, in the order of the keys `order`. */
  function ValuesIn<V>(m: CIMap<V>, order: seq<string>): (r: seq<V>)
    requires forall k :: k in order ==> k in m
    ensures |r| == |order|
    ensures forall i :: 0 <= i < |order| ==> r[i] == m[order[i]].value
  {
    seq(|order|, i requires 0 <= i < |order| => m[order[i]].value)
  }

  /** `Values` of a dictionary: one value per key, in the order the keys are enumerated. */
  method ListValues<V>(m: CIMap<V>) returns (vals: seq<V>, ghost keys: seq<string>)
    ensures Lists(keys, m) && |vals| == |m|
    ensures vals == ValuesIn(m, keys)
  {
    var order := Enumerate(m.Keys);
    keys := order;
    vals := seq(|order|, i requires 0 <= i < |order| => m[order[i]].value);
  }
}
