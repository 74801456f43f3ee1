/**
 * AlgoLogFmt.Line: one log line of the form `tag key=value key=value ...`.
 * The five optional fields come first, in a fixed order and only when not
 * blank; the extra pairs follow in argument order, each only when its key
 * is not blank and its value is not null. Every space in a value becomes
 * `_`; tags and keys are written as given. Extra values stand for the
 * strings their ToString() gives.
 */
module LogLines {
  import opened Common

  /** Esc: every space of the value replaced by `_`. */
  function Esc(v: string): (r: string)
    ensures |r| == |v|
  {
    seq(|v|, i requires 0 <= i < |v| => if v[i] == ' ' then '_' else v[i])
  }

  predicate NoSpace(s: string)
  {
    forall i :: 0 <= i < |s| ==> s[i] != ' '
  }

  /** An escaped value has no spaces, keeps every other character in place, and escaping again changes nothing. */
  lemma EscFacts(v: string)
    ensures NoSpace(Esc(v))
    ensures forall i :: 0 <= i < |v| && v[i] == ' ' ==> Esc(v)[i] == '_'
    ensures forall i :: 0 <= i < |v| && v[i] != ' ' ==> Esc(v)[i] == v[i]
    ensures Esc(Esc(v)) == Esc(v)
  {
  }

  /** One optional field: `key=value`, or nothing when the value is null or blank. */
  function Field(key: string, value: Option<string>): seq<string>
  {
    if IsNullOrBlank(value) then [] else [key + "=" + Esc(value.value)]
  }

  /** One extra pair: `key=value`, or nothing when the key is blank or the value null (an empty value is kept). */
  function Extra(pair: (string, Option<string>)): seq<string>
  {
    if IsBlank(pair.0) || pair.1.None? then [] else [pair.0 + "=" + Esc(pair.1.value)]
  }

  /** The parts the extra pairs add, in argument order. */
  function Extras(extra: seq<(string, Option<string>)>): (r: seq<string>)
    ensures |r| <= |extra|
  {
    if extra == [] then [] else Extras(extra[..|extra| - 1]) + Extra(extra[|extra| - 1])
  }

  /** The parts of a line: the tag, the optional fields in the order algo, sym, cid, oid, msg, then the extra pairs. */
  function Parts(tag: string, algoId: Option<string>, symbol: Option<string>, clientOrderId: Option<string>,
                 orderId: Option<string>, msg: Option<string>, extra: seq<(string, Option<string>)>): seq<string>
  {
    [tag] + Field("algo", algoId) + Field("sym", symbol) + Field("cid", clientOrderId)
      + Field("oid", orderId) + Field("msg", msg) + Extras(extra)
  }

  /** string.Join(' ', parts). */
  function JoinSpaces(parts: seq<string>): string
    requires parts != []
    decreases |parts|
  {
    if |parts| == 1 then parts[0] else parts[0] + " " + JoinSpaces(parts[1..])
  }

  /** A line cut at every space. */
  function SplitSpaces(s: string): (r: seq<string>)
    ensures r != []
    decreases |s|
  {
    if s == [] then [""]
    else if s[0] == ' ' then [""] + SplitSpaces(s[1..])
    else
      var rest := SplitSpaces(s[1..]);
      [[s[0]] + rest[0]] + rest[1..]
  }

  lemma {:induction false} SplitAfterWord(p: string, rest: string)
    requires NoSpace(p)
    ensures SplitSpaces(p + rest) == [p + SplitSpaces(rest)[0]] + SplitSpaces(rest)[1..]
    decreases |p|
  {
    if p == [] {
      assert p + rest == rest;
      assert p + SplitSpaces(rest)[0] == SplitSpaces(rest)[0];
      assert [SplitSpaces(rest)[0]] + SplitSpaces(rest)[1..] == SplitSpaces(rest);
    } else {
      assert (p + rest)[0] == p[0];
      assert (p + rest)[1..] == p[1..] + rest;
      SplitAfterWord(p[1..], rest);
      assert [p[0]] + (p[1..] + SplitSpaces(rest)[0]) == p + SplitSpaces(rest)[0];
    }
  }

  /** Parts without spaces, joined by single spaces, come back from cutting the line at its spaces. */
  lemma {:induction false} JoinSplit(parts: seq<string>)
    requires parts != [] && forall i :: 0 <= i < |parts| ==> NoSpace(parts[i])
    ensures SplitSpaces(JoinSpaces(parts)) == parts
    decreases |parts|
  {
    if |parts| == 1 {
      SplitAfterWord(parts[0], "");
      assert parts[0] + "" == parts[0];
    } else {
      var tail := JoinSpaces(parts[1..]);
      JoinSplit(parts[1..]);
      assert JoinSpaces(parts) == parts[0] + (" " + tail);
      SplitAfterWord(parts[0], " " + tail);
      assert (" " + tail)[1..] == tail;
      assert SplitSpaces(" " + tail) == [""] + parts[1..];
      assert parts[0] + "" == parts[0];
    }
  }

  lemma {:induction false} ExtrasNoSpace(extra: seq<(string, Option<string>)>)
    requires forall i :: 0 <= i < |extra| ==> NoSpace(extra[i].0)
    ensures forall i :: 0 <= i < |Extras(extra)| ==> NoSpace(Extras(extra)[i])
    decreases |extra|
  {
    if extra != [] {
      var n := |extra| - 1;
      ExtrasNoSpace(extra[..n]);
      if Extra(extra[n]) != [] {
        EscFacts(extra[n].1.value);
        assert NoSpace(extra[n].0 + "=" + Esc(extra[n].1.value));
      }
    }
  }

  lemma FieldNoSpace(key: string, value: Option<string>)
    requires NoSpace(key)
    ensures forall i :: 0 <= i < |Field(key, value)| ==> NoSpace(Field(key, value)[i])
  {
    if !IsNullOrBlank(value) {
      EscFacts(value.value);
      assert NoSpace(key + "=" + Esc(value.value));
    }
  }

  /**
   * Values are escaped, so when the tag and the extra keys have no spaces
   * the line cuts back at its spaces into exactly its parts: the tag first,
   * then each field present, in order.
   */
  lemma LineSplitsIntoParts(tag: string, algoId: Option<string>, symbol: Option<string>, clientOrderId: Option<string>,
                            orderId: Option<string>, msg: Option<string>, extra: seq<(string, Option<string>)>)
    requires NoSpace(tag) && forall i :: 0 <= i < |extra| ==> NoSpace(extra[i].0)
    ensures var parts := Parts(tag, algoId, symbol, clientOrderId, orderId, msg, extra);
      SplitSpaces(JoinSpaces(parts)) == parts && parts[0] == tag
  {
    FieldNoSpace("algo", algoId);
    FieldNoSpace("sym", symbol);
    FieldNoSpace("cid", clientOrderId);
    FieldNoSpace("oid", orderId);
    FieldNoSpace("msg", msg);
    ExtrasNoSpace(extra);
    var parts := Parts(tag, algoId, symbol, clientOrderId, orderId, msg, extra);
    forall i | 0 <= i < |parts|
      ensures NoSpace(parts[i])
    {
    }
    JoinSplit(parts);
  }

  lemma {:induction false} JoinStartsWithFirst(parts: seq<string>)
    requires parts != []
    ensures |JoinSpaces(parts)| >= |parts[0]| && JoinSpaces(parts)[..|parts[0]|] == parts[0]
    decreases |parts|
  {
    if |parts| > 1 {
      assert JoinSpaces(parts) == parts[0] + (" " + JoinSpaces(parts[1..]));
    }
  }

  /**
   * Every line starts with its tag, and a line with no optional field and
   * no extra pair present is the tag alone.
   */
  lemma LineStartsWithTag(tag: string, algoId: Option<string>, symbol: Option<string>, clientOrderId: Option<string>,
                          orderId: Option<string>, msg: Option<string>, extra: seq<(string, Option<string>)>)
    ensures var line := JoinSpaces(Parts(tag, algoId, symbol, clientOrderId, orderId, msg, extra));
      |line| >= |tag| && line[..|tag|] == tag
    ensures (&& IsNullOrBlank(algoId) && IsNullOrBlank(symbol) && IsNullOrBlank(clientOrderId)
             && IsNullOrBlank(orderId) && IsNullOrBlank(msg) && Extras(extra) == []) ==>
      JoinSpaces(Parts(tag, algoId, symbol, clientOrderId, orderId, msg, extra)) == tag
  {
    JoinStartsWithFirst(Parts(tag, algoId, symbol, clientOrderId, orderId, msg, extra));
  }

  /** One of Line's `if (!string.IsNullOrWhiteSpace(value)) parts.Add($"key={Esc(value)}")` steps. */
  method AddField(parts: seq<string>, key: string, value: Option<string>) returns (r: seq<string>)
    ensures r == parts + Field(key, value)
  {
    r := parts;
    if !IsNullOrBlank(value) {
      r := r + [key + "=" + Esc(value.value)];
    }
  }

  /** Line. */
  method Line(tag: string, algoId: Option<string>, symbol: Option<string>, clientOrderId: Option<string>,
              orderId: Option<string>, msg: Option<string>, extra: seq<(string, Option<string>)>) returns (line: string)
    ensures line == JoinSpaces(Parts(tag, algoId, symbol, clientOrderId, orderId, msg, extra))
  {
    var parts := [tag];
    parts := AddField(parts, "algo", algoId);
    parts := AddField(parts, "sym", symbol);
    parts := AddField(parts, "cid", clientOrderId);
    parts := AddField(parts, "oid", orderId);
    parts := AddField(parts, "msg", msg);
    ghost var fixed := parts;
    var i := 0;
    while i < |extra|
      invariant 0 <= i <= |extra|
      invariant parts == fixed + Extras(extra[..i])
    {
      assert extra[..i + 1][..i] == extra[..i];
      var (k, v) := extra[i];
      if !IsBlank(k) && v.Some? {
        parts := parts + [k + "=" + Esc(v.value)];
      }
      i := i + 1;
    }
    assert extra[..i] == extra;
    line := JoinSpaces(parts);
  }
}
