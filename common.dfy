/**
 * Shared vocabulary of the model: optional values, calls that throw,
 * timestamps as .NET ticks, and the string helpers the code relies on
 * (char.IsWhiteSpace, string.Trim, string.IsNullOrWhiteSpace and
 * dictionaries keyed with StringComparer.OrdinalIgnoreCase).
 */
module Common {

  datatype Option<T> = None | Some(value: T)

  /** A value or an error message: the source's `bool TryX(out value, out error)` shape. */
  datatype Result<T> = Ok(value: T) | Err(message: string)

  /** What a call that may throw produced: its return value, or the exception's message. */
  datatype Outcome<T> = Returned(value: T) | Threw(message: string)

  /** A UTC DateTime as 100-nanosecond ticks since 0001-01-01. */
  type Ticks = nat

  const TicksPerSecond: nat := 10_000_000
  const TicksPerMinute: nat := 600_000_000

  function Min(a: real, b: real): real { if a <= b then a else b }
  function Max(a: real, b: real): real { if a >= b then a else b }

  /** Updating a key twice keeps the second value only. */
  lemma Overwrite<K, V>(m: map<K, V>, key: K, first: V, second: V)
    ensures m[key := first][key := second] == m[key := second]
  {
  }

  /** The `dict.TryGetValue(k, out var v) ? v : 0m` idiom. */
  function GetOrZero(m: map<string, real>, k: string): real
  {
    if k in m then m[k] else 0.0
  }

  // ---------------------------------------------------------------------
  // Whitespace, blank strings and trimming
  // ---------------------------------------------------------------------

  /** The characters for which .NET's char.IsWhiteSpace holds. */
  predicate IsWhiteSpace(c: char)
  {
    ('\U{9}' <= c <= '\U{D}') || c == ' ' || c == '\U{85}' || c == '\U{A0}'
    || c == '\U{1680}' || ('\U{2000}' <= c <= '\U{200A}') || c == '\U{2028}' || c == '\U{2029}'
    || c == '\U{202F}' || c == '\U{205F}' || c == '\U{3000}'
  }

  /** string.IsNullOrWhiteSpace for a non-null string. */
  predicate IsBlank(s: string)
  {
    forall i :: 0 <= i < |s| ==> IsWhiteSpace(s[i])
  }

  /** string.IsNullOrWhiteSpace for a string that may be null. */
  predicate IsNullOrBlank(s: Option<string>)
  {
    s.None? || IsBlank(s.value)
  }

  /** Removes leading whitespace: the result is a suffix of s that starts with a non-blank character. */
  function TrimStart(s: string): (r: string)
    ensures |r| <= |s| && r == s[|s| - |r|..]
    ensures forall i :: 0 <= i < |s| - |r| ==> IsWhiteSpace(s[i])
    ensures r == [] || !IsWhiteSpace(r[0])
  {
    if |s| > 0 && IsWhiteSpace(s[0]) then TrimStart(s[1..]) else s
  }

  /** Removes trailing whitespace: the result is a prefix of s that ends with a non-blank character. */
  function TrimEnd(s: string): (r: string)
    ensures |r| <= |s| && r == s[..|r|]
    ensures forall i :: |r| <= i < |s| ==> IsWhiteSpace(s[i])
    ensures r == [] || !IsWhiteSpace(r[|r| - 1])
  {
    if |s| > 0 && IsWhiteSpace(s[|s| - 1]) then TrimEnd(s[..|s| - 1]) else s
  }

  /** string.Trim(): the longest infix of s that neither starts nor ends with whitespace. */
  function Trim(s: string): (r: string)
    ensures |r| <= |s|
    ensures r == [] || (!IsWhiteSpace(r[0]) && !IsWhiteSpace(r[|r| - 1]))
    ensures r == [] <==> IsBlank(s)
  {
    var t := TrimStart(s);
    var r := TrimEnd(t);
    TrimBlank(s, t, r);
    r
  }

  /** Trimming leaves nothing exactly when the string is all whitespace. */
  lemma TrimBlank(s: string, t: string, r: string)
    requires t == TrimStart(s) && r == TrimEnd(t)
    ensures r == [] <==> IsBlank(s)
  {
  }

  /** What Trim keeps is the infix of s between its leading and its trailing whitespace. */
  lemma TrimInfix(s: string)
    ensures Trim(s) == s[|s| - |TrimStart(s)|..|s| - |TrimStart(s)| + |Trim(s)|]
  {
    var t := TrimStart(s);
    assert Trim(s) == t[..|Trim(s)|];
  }

  // ---------------------------------------------------------------------
  // StringComparer.OrdinalIgnoreCase
  // ---------------------------------------------------------------------

  /** Upper-cases an ASCII letter; every other character is its own fold. */
  function UpperChar(c: char): char
  {
    if 'a' <= c <= 'z' then (c as int - 32) as char else c
  }

  /** The canonical key under which an ordinal-ignore-case dictionary files `s`. */
  function Fold(s: string): string
  {
    seq(|s|, i requires 0 <= i < |s| => UpperChar(s[i]))
  }

  lemma FoldIdempotent(s: string)
    ensures Fold(Fold(s)) == Fold(s)
  {
  }

  /** An entry of a case-insensitive dictionary: the key as first inserted, and the value. */
  datatype Entry<V> = Entry(key: string, value: V)

  /**
   * A Dictionary<string, V> built with StringComparer.OrdinalIgnoreCase:
   * filed under the folded key, remembering the spelling the key was first
   * inserted with (assigning to an existing key keeps that spelling).
   */
  type CIMap<V> = map<string, Entry<V>>

  ghost predicate CIValid<V>(m: CIMap<V>)
  {
    forall k :: k in m ==> Fold(m[k].key) == k
  }

  /** TryGetValue. */
  function CIFind<V>(m: CIMap<V>, k: string): Option<V>
  {
    if Fold(k) in m then Some(m[Fold(k)].value) else None
  }

  /** The indexer `m[k] = v`. */
  function CIPut<V>(m: CIMap<V>, k: string, v: V): CIMap<V>
  {
    m[Fold(k) := Entry(if Fold(k) in m then m[Fold(k)].key else k, v)]
  }

  /**
   * After `m[k] = v` the dictionary finds v under k and every other key as
   * before; an existing key keeps the spelling it was first inserted with.
   */
  lemma CIPutFacts<V>(m: CIMap<V>, k: string, v: V)
    ensures CIValid(m) ==> CIValid(CIPut(m, k, v))
    ensures CIFind(CIPut(m, k, v), k) == Some(v)
    ensures forall k' :: Fold(k') != Fold(k) ==> CIFind(CIPut(m, k, v), k') == CIFind(m, k')
    ensures Fold(k) in m ==> CIPut(m, k, v)[Fold(k)].key == m[Fold(k)].key
    ensures CIPut(m, k, v).Keys == m.Keys + {Fold(k)}
  {
  }

  /** Remove(k). */
  function CIRemove<V>(m: CIMap<V>, k: string): CIMap<V>
  {
    m - {Fold(k)}
  }

  /** After Remove(k) the dictionary no longer finds k and finds every other key as before. */
  lemma CIRemoveFacts<V>(m: CIMap<V>, k: string)
    ensures CIValid(m) ==> CIValid(CIRemove(m, k))
    ensures CIFind(CIRemove(m, k), k) == None
    ensures forall k' :: Fold(k') != Fold(k) ==> CIFind(CIRemove(m, k), k') == CIFind(m, k')
  {
  }

  /** The dictionary's Keys, as spelled on insertion. */
  function CIKeys<V>(m: CIMap<V>): set<string>
  {
    set k | k in m :: m[k].key
  }

  // ---------------------------------------------------------------------
  // Fresh identifiers (the model of Guid.NewGuid())
  // ---------------------------------------------------------------------

  function DigitChar(d: nat): char
    requires d < 10
  {
    ('0' as int + d) as char
  }

  /** The decimal spelling of n. */
  function Decimal(n: nat): (r: string)
    ensures 1 <= |r|
    ensures n >= 10 ==> |r| >= 2
    ensures forall i :: 0 <= i < |r| ==> '0' <= r[i] <= '9'
  {
    if n < 10 then [DigitChar(n)] else Decimal(n / 10) + [DigitChar(n % 10)]
  }

  function DigitValue(c: char): nat
  {
    if '0' <= c <= '9' then c as int - '0' as int else 0
  }

  /** The number a string of decimal digits spells. */
  function ParseDecimal(s: string): nat
  {
    if s == [] then 0 else 10 * ParseDecimal(s[..|s| - 1]) + DigitValue(s[|s| - 1])
  }

  /** Reading back a number's spelling gives the number. */
  lemma {:induction false} ParseDecimalRoundTrip(n: nat)
    ensures ParseDecimal(Decimal(n)) == n
  {
    if n >= 10 {
      var s := Decimal(n / 10);
      assert (s + [DigitChar(n % 10)])[..|s|] == s;
      ParseDecimalRoundTrip(n / 10);
    }
  }

  /** The n-th fresh identifier: the model of the n-th Guid.NewGuid(). */
  function IdOf(n: nat): (r: string)
    ensures forall i :: 0 <= i < |r| ==> '0' <= r[i] <= '9'
  {
    Decimal(n)
  }

  /** The counter value an identifier was made from. */
  function IdNumber(id: string): nat
  {
    ParseDecimal(id)
  }

  /** Fresh identifiers never collide: each one names the counter value it came from. */
  lemma IdNumberOf(n: nat)
    ensures IdNumber(IdOf(n)) == n
  {
    ParseDecimalRoundTrip(n);
  }

  /** Identifiers contain no letters, so case-insensitive lookup finds them under their own spelling. */
  lemma IdOfFolds(n: nat)
    ensures Fold(IdOf(n)) == IdOf(n)
  {
  }

  /** A non-empty sequence is its front followed by its last element. */
  lemma InitLast<T>(s: seq<T>)
    requires s != []
    ensures s[..|s| - 1] + [s[|s| - 1]] == s
  {
  }

  /** Appending a sequence is appending its first element, then the rest. */
  lemma AppendHead<T>(a: seq<T>, s: seq<T>)
    requires s != []
    ensures a + [s[0]] + s[1..] == a + s
  {
    assert [s[0]] + s[1..] == s;
  }

  // ---------------------------------------------------------------------
  // Integer division (ticks / step, ticks / ticks-per-minute)
  // ---------------------------------------------------------------------

  lemma MulNonneg(a: int, b: int)
    requires a >= 0 && b >= 0
    ensures a * b >= 0
  {
  }

  lemma MulAdd(a: int, b: int, c: int)
    ensures (a + b) * c == a * c + b * c
  {
  }

  /** Division with a non-negative remainder below the divisor is the one `/` and `%` compute. */
  lemma DivUnique(x: int, d: int, q: int, r: int)
    requires d > 0 && x == q * d + r && 0 <= r < d
    ensures x / d == q && x % d == r
  {
    var q', r' := x / d, x % d;
    assert x == q' * d + r';
    if q > q' {
      MulNonneg(q - q' - 1, d);
      assert false;
    } else if q < q' {
      MulNonneg(q' - q - 1, d);
      assert false;
    }
  }

  lemma MulDivMod(k: int, d: int)
    requires d > 0
    ensures (k * d) % d == 0 && (k * d) / d == k
  {
    DivUnique(k * d, d, k, 0);
  }

  /** Adding whole multiples of the divisor does not change the remainder. */
  lemma ModShift(x: int, q: int, d: int)
    requires d > 0
    ensures (x + q * d) % d == x % d
  {
    MulAdd(x / d, q, d);
    DivUnique(x + q * d, d, x / d + q, x % d);
  }

  /** Reducing the left operand first does not change the remainder of a sum. */
  lemma ModAddLeft(a: int, b: int, d: int)
    requires d > 0
    ensures (a % d + b) % d == (a + b) % d
  {
    ModShift(a % d + b, a / d, d);
  }

  /** Numbers less than the divisor apart have different remainders. */
  lemma ModDistinct(a: int, b: int, d: int)
    requires d > 0 && 0 < b - a < d
    ensures a % d != b % d
  {
    if a % d == b % d {
      var qa, qb := a / d, b / d;
      if qb <= qa {
        MulNonneg(qa - qb, d);
        MulAdd(qa - qb, qb, d);
      } else {
        MulNonneg(qb - qa - 1, d);
        MulAdd(qb - qa - 1, qa + 1, d);
        MulAdd(qa, 1, d);
      }
      assert false;
    }
  }

  /** Copying a set into a list (`new List<T>(keys)`, `ToArray()`): each element once, in some order. */
  method Enumerate<T>(keys: set<T>) returns (order: seq<T>)
    ensures forall x :: x in keys <==> x in order
    ensures |order| == |keys|
    ensures forall i, j :: 0 <= i < j < |order| ==> order[i] != order[j]
  {
    order := [];
    var rest := keys;
    while rest != {}
      invariant rest <= keys
      invariant forall x :: x in order <==> x in keys && x !in rest
      invariant |order| + |rest| == |keys|
      invariant forall i, j :: 0 <= i < j < |order| ==> order[i] != order[j]
      decreases |rest|
    {
      var x :| x in rest;
      order := order + [x];
      rest := rest - {x};
    }
  }
}
