/**
 * CsvBarParser: reads one-minute candles from the CSV files a collector
 * writes. The header line gives each column name an index (names compared
 * ignoring ASCII case, the first of duplicate names winning); each later
 * line is split into fields and read by column name.
 *
 * The splitter handles one line: a double quote toggles quoting and is
 * dropped, except that inside quotes a doubled quote stands for one quote
 * character; a comma outside quotes ends a field. The date and decimal
 * parsers of .NET are not modelled: they are passed in as functions.
 */
module CsvParsing {
  import opened Common
  import opened MarketData

  // ---------------------------------------------------------------------
  // SplitCsvLine
  // ---------------------------------------------------------------------

  /** The splitter part-way through a line: the fields ended so far, the field being read, and whether it is inside quotes. */
  datatype Scan = Scan(fields: seq<string>, field: string, inQuotes: bool)

  const Start := Scan([], "", false)

  /** The splitter's state after reading `rest` from state `s`. */
  function ScanFrom(rest: string, s: Scan): Scan
    decreases |rest|
  {
    if rest == [] then s
    else if rest[0] == '"' then
      if s.inQuotes && |rest| > 1 && rest[1] == '"' then ScanFrom(rest[2..], s.(field := s.field + ['"']))
      else ScanFrom(rest[1..], s.(inQuotes := !s.inQuotes))
    else if rest[0] == ',' && !s.inQuotes then ScanFrom(rest[1..], s.(fields := s.fields + [s.field], field := ""))
    else ScanFrom(rest[1..], s.(field := s.field + [rest[0]]))
  }

  /** The fields of a line: none for the empty line, otherwise every field ended by a comma and the last one. */
  function Split(line: string): seq<string>
  {
    if line == "" then []
    else
      var e := ScanFrom(line, Start);
      e.fields + [e.field]
  }

  /** The commas in `rest` that are outside quotes, reading quotes as the splitter does. */
  function UnquotedCommas(rest: string, inQuotes: bool): nat
    decreases |rest|
  {
    if rest == [] then 0
    else if rest[0] == '"' then
      if inQuotes && |rest| > 1 && rest[1] == '"' then UnquotedCommas(rest[2..], inQuotes)
      else UnquotedCommas(rest[1..], !inQuotes)
    else if rest[0] == ',' && !inQuotes then UnquotedCommas(rest[1..], inQuotes) + 1
    else UnquotedCommas(rest[1..], inQuotes)
  }

  lemma {:induction false} ScanCountsCommas(rest: string, s: Scan)
    ensures |ScanFrom(rest, s).fields| == |s.fields| + UnquotedCommas(rest, s.inQuotes)
    decreases |rest|
  {
    if rest != [] {
      if rest[0] == '"' {
        if s.inQuotes && |rest| > 1 && rest[1] == '"' {
          ScanCountsCommas(rest[2..], s.(field := s.field + ['"']));
        } else {
          ScanCountsCommas(rest[1..], s.(inQuotes := !s.inQuotes));
        }
      } else if rest[0] == ',' && !s.inQuotes {
        ScanCountsCommas(rest[1..], s.(fields := s.fields + [s.field], field := ""));
      } else {
        ScanCountsCommas(rest[1..], s.(field := s.field + [rest[0]]));
      }
    }
  }

  /** The empty line has no fields; any other line has one more field than it has commas outside quotes. */
  lemma FieldCount(line: string)
    ensures |Split(line)| == if line == "" then 0 else UnquotedCommas(line, false) + 1
  {
    if line != "" {
      ScanCountsCommas(line, Start);
    }
  }

  /** The fields joined by commas. */
  function Join(fs: seq<string>): (r: string)
    requires fs != []
    decreases |fs|
  {
    if |fs| == 1 then fs[0] else fs[0] + "," + Join(fs[1..])
  }

  predicate Plain(f: string)
  {
    forall i :: 0 <= i < |f| ==> f[i] != ',' && f[i] != '"'
  }

  /** Outside quotes, a field without commas or quotes is read into the current field as it is. */
  lemma {:induction false} ScanPlain(f: string, rest: string, s: Scan)
    requires Plain(f) && !s.inQuotes
    ensures ScanFrom(f + rest, s) == ScanFrom(rest, s.(field := s.field + f))
    decreases |f|
  {
    if f != [] {
      assert (f + rest)[0] == f[0];
      assert (f + rest)[1..] == f[1..] + rest;
      ScanPlain(f[1..], rest, s.(field := s.field + [f[0]]));
      assert s.field + [f[0]] + f[1..] == s.field + f;
    } else {
      assert f + rest == rest;
      assert s.field + f == s.field;
    }
  }

  lemma {:induction false} ScanPlainJoin(fs: seq<string>, done: seq<string>)
    requires fs != [] && forall i :: 0 <= i < |fs| ==> Plain(fs[i])
    ensures ScanFrom(Join(fs), Scan(done, "", false)) == Scan(done + fs[..|fs| - 1], fs[|fs| - 1], false)
    decreases |fs|
  {
    var s := Scan(done, "", false);
    if |fs| == 1 {
      ScanPlain(fs[0], "", s);
      assert fs[0] + "" == fs[0];
      assert "" + fs[0] == fs[0];
      assert done + fs[..0] == done;
    } else {
      var tail := Join(fs[1..]);
      assert Join(fs) == fs[0] + ("," + tail);
      ScanPlain(fs[0], "," + tail, s);
      assert "" + fs[0] == fs[0];
      assert ("," + tail)[1..] == tail;
      ScanPlainJoin(fs[1..], done + [fs[0]]);
      assert done + [fs[0]] + fs[1..][..|fs| - 2] == done + fs[..|fs| - 1];
    }
  }

  /**
   * Fields without commas or quotes come back unchanged from splitting
   * their comma-join, unless the join is the empty line (a single empty
   * field), which splits into no fields at all.
   */
  lemma PlainRoundTrip(fs: seq<string>)
    requires fs != [] && forall i :: 0 <= i < |fs| ==> Plain(fs[i])
    ensures Split(Join(fs)) == if Join(fs) == "" then [] else fs
  {
    var line := Join(fs);
    if line != "" {
      ScanPlainJoin(fs, []);
      var n := |fs| - 1;
      var init := fs[..n];
      assert [] + init == init;
      var e := ScanFrom(line, Start);
      assert e == Scan(init, fs[n], false);
      InitLast(fs);
    }
  }

  lemma {:induction false} ScanUnquoted(rest: string, s: Scan)
    requires !s.inQuotes && forall i :: 0 <= i < |rest| ==> rest[i] != '"'
    ensures var e := ScanFrom(rest, s);
      |s.fields| <= |e.fields| && e.fields[..|s.fields|] == s.fields && !e.inQuotes
    ensures var e := ScanFrom(rest, s);
      var added := e.fields[|s.fields|..] + [e.field];
      && Join(added) == s.field + rest
      && (Plain(s.field) ==> forall i :: 0 <= i < |added| ==> Plain(added[i]))
    decreases |rest|
  {
    var e := ScanFrom(rest, s);
    if rest == [] {
      assert s.field + rest == s.field;
    } else if rest[0] == ',' {
      var s' := s.(fields := s.fields + [s.field], field := "");
      ScanUnquoted(rest[1..], s');
      var added' := e.fields[|s'.fields|..] + [e.field];
      var added := e.fields[|s.fields|..] + [e.field];
      assert added == [s.field] + added';
      assert added[1..] == added';
      assert Join(added) == s.field + "," + Join(added');
      assert "" + rest[1..] == rest[1..];
      AppendHead(s.field, rest);
      assert e.fields[..|s'.fields|][..|s.fields|] == e.fields[..|s.fields|];
    } else {
      var s' := s.(field := s.field + [rest[0]]);
      ScanUnquoted(rest[1..], s');
      AppendHead(s.field, rest);
    }
  }

  /**
   * Conversely, a non-empty line without quotes is exactly its fields
   * joined by commas, and no field holds a comma.
   */
  lemma UnquotedLine(line: string)
    requires line != "" && forall i :: 0 <= i < |line| ==> line[i] != '"'
    ensures Split(line) != [] && Join(Split(line)) == line
    ensures forall i :: 0 <= i < |Split(line)| ==> Plain(Split(line)[i])
  {
    ScanUnquoted(line, Start);
    var e := ScanFrom(line, Start);
    assert e.fields[0..] == e.fields;
    assert "" + line == line;
  }

  /** The field spelled under quotes: every quote doubled. */
  function Escape(f: string): (r: string)
    decreases |f|
  {
    if f == [] then [] else (if f[0] == '"' then "\"\"" else [f[0]]) + Escape(f[1..])
  }

  /** A field written as section 2 of RFC 4180 allows for any field: enclosed in quotes, inner quotes doubled. */
  function Quote(f: string): string
  {
    "\"" + Escape(f) + "\""
  }

  /** Inside quotes, an escaped field and the closing quote read back as the field, and quoting ends. */
  lemma {:induction false} ScanEscaped(g: string, tail: string, s: Scan)
    requires s.inQuotes && (tail == [] || tail[0] != '"')
    ensures ScanFrom(Escape(g) + "\"" + tail, s) == ScanFrom(tail, s.(field := s.field + g, inQuotes := false))
    decreases |g|
  {
    var text := Escape(g) + "\"" + tail;
    if g == [] {
      assert text == "\"" + tail;
      assert text[1..] == tail;
      assert s.field + g == s.field;
    } else {
      var s' := s.(field := s.field + [g[0]]);
      ScanEscaped(g[1..], tail, s');
      assert s.field + [g[0]] + g[1..] == s.field + g;
      if g[0] == '"' {
        assert text == "\"\"" + (Escape(g[1..]) + "\"" + tail);
        assert text[2..] == Escape(g[1..]) + "\"" + tail;
      } else {
        assert text == [g[0]] + (Escape(g[1..]) + "\"" + tail);
        assert text[1..] == Escape(g[1..]) + "\"" + tail;
      }
    }
  }

  lemma {:induction false} EscapeUnquoted(g: string)
    requires forall i :: 0 <= i < |g| ==> g[i] != '"'
    ensures Escape(g) == g
    decreases |g|
  {
    if g != [] {
      EscapeUnquoted(g[1..]);
      assert [g[0]] + g[1..] == g;
    }
  }

  /**
   * Quotes in the middle of a field toggle quoting and are dropped, and a
   * comma between them is kept: `a"g"b` is the one field `agb`.
   */
  lemma QuotesInsideField(a: string, g: string, b: string)
    requires Plain(a) && Plain(b) && forall i :: 0 <= i < |g| ==> g[i] != '"'
    ensures Split(a + "\"" + g + "\"" + b) == [a + g + b]
  {
    var line := a + "\"" + g + "\"" + b;
    assert line == a + ("\"" + (g + "\"" + b));
    ScanPlain(a, "\"" + (g + "\"" + b), Start);
    var s1 := Scan([], a, false);
    assert "" + a == a;
    assert ("\"" + (g + "\"" + b))[1..] == g + "\"" + b;
    EscapeUnquoted(g);
    ScanEscaped(g, b, s1.(inQuotes := true));
    ScanPlain(b, "", Scan([], a + g, false));
    assert b + "" == b;
    assert a + g + b == (a + g) + b;
  }

  /** Every field quoted. */
  function QuoteAll(fs: seq<string>): (r: seq<string>)
    ensures |r| == |fs| && forall i :: 0 <= i < |fs| ==> r[i] == Quote(fs[i])
  {
    seq(|fs|, i requires 0 <= i < |fs| => Quote(fs[i]))
  }

  /** Outside quotes, one quoted field followed by `tail` reads into the current field, which must be empty. */
  lemma ScanQuoted(f: string, tail: string, done: seq<string>)
    requires tail == [] || tail[0] != '"'
    ensures ScanFrom(Quote(f) + tail, Scan(done, "", false)) == ScanFrom(tail, Scan(done, f, false))
  {
    var text := Quote(f) + tail;
    assert text == "\"" + (Escape(f) + "\"" + tail);
    assert text[1..] == Escape(f) + "\"" + tail;
    ScanEscaped(f, tail, Scan(done, "", true));
    assert "" + f == f;
  }

  lemma {:induction false} ScanQuotedJoin(fs: seq<string>, done: seq<string>)
    requires fs != []
    ensures ScanFrom(Join(QuoteAll(fs)), Scan(done, "", false)) == Scan(done + fs[..|fs| - 1], fs[|fs| - 1], false)
    decreases |fs|
  {
    var q := QuoteAll(fs);
    if |fs| == 1 {
      ScanQuoted(fs[0], "", done);
      assert Quote(fs[0]) + "" == Quote(fs[0]);
      assert done + fs[..0] == done;
    } else {
      var tail := Join(QuoteAll(fs[1..]));
      assert q[1..] == QuoteAll(fs[1..]);
      assert Join(q) == Quote(fs[0]) + ("," + tail);
      ScanQuoted(fs[0], "," + tail, done);
      assert ("," + tail)[1..] == tail;
      ScanQuotedJoin(fs[1..], done + [fs[0]]);
      assert done + [fs[0]] + fs[1..][..|fs| - 2] == done + fs[..|fs| - 1];
    }
  }

  /**
   * Any non-empty list of fields, commas and quotes included, comes back
   * unchanged from splitting the comma-join of the fields quoted as
   * section 2 of RFC 4180 writes them.
   */
  lemma QuotedRoundTrip(fs: seq<string>)
    requires fs != []
    ensures Split(Join(QuoteAll(fs))) == fs
  {
    ScanQuotedJoin(fs, []);
    assert Join(QuoteAll(fs)) != "" by {
      JoinStartsWith(QuoteAll(fs));
    }
    assert [] + fs[..|fs| - 1] + [fs[|fs| - 1]] == fs;
  }

  lemma JoinStartsWith(fs: seq<string>)
    requires fs != []
    ensures |Join(fs)| >= |fs[0]| && Join(fs)[..|fs[0]|] == fs[0]
  {
  }

  /** SplitCsvLine. */
  method SplitCsvLine(line: string) returns (result: seq<string>)
    ensures result == Split(line)
  {
    result := [];
    if line == "" {
      return;
    }
    var sb := "";
    var inQuotes := false;
    var i := 0;
    while i < |line|
      invariant 0 <= i <= |line|
      invariant ScanFrom(line[i..], Scan(result, sb, inQuotes)) == ScanFrom(line, Start)
      decreases |line| - i
    {
      var c := line[i];
      ghost var rest := line[i..];
      assert rest[0] == c && rest[1..] == line[i + 1..];
      if c == '"' {
        if inQuotes && i + 1 < |line| && line[i + 1] == '"' {
          assert rest[2..] == line[i + 2..];
          sb := sb + ['"'];
          i := i + 1;
        } else {
          inQuotes := !inQuotes;
        }
      } else if c == ',' && !inQuotes {
        result := result + [sb];
        sb := "";
      } else {
        sb := sb + [c];
      }
      i := i + 1;
    }
    assert line[i..] == [];
    result := result + [sb];
  }

  // ---------------------------------------------------------------------
  // Column index
  // ---------------------------------------------------------------------

  /** The name under which each column of a header is found: trimmed, ASCII case folded. */
  function ColumnKeys(names: seq<string>): (keys: seq<string>)
    ensures |keys| == |names| && forall i :: 0 <= i < |names| ==> keys[i] == Fold(Trim(names[i]))
  {
    seq(|names|, i requires 0 <= i < |names| => Fold(Trim(names[i])))
  }

  /** The column index built from the header's keys: each key keeps its first position. */
  function FirstPositions(keys: seq<string>): map<string, int>
    decreases |keys|
  {
    if keys == [] then map[]
    else
      var n := |keys| - 1;
      var m := FirstPositions(keys[..n]);
      if keys[n] in m then m else m[keys[n] := n]
  }

  /**
   * A key is in the index exactly when some column of the header has it,
   * and it is given the first such column.
   */
  lemma {:induction false} FirstColumnWins(keys: seq<string>, key: string)
    ensures key in FirstPositions(keys) <==> exists i :: 0 <= i < |keys| && keys[i] == key
    ensures key in FirstPositions(keys) ==>
      var i := FirstPositions(keys)[key];
      && 0 <= i < |keys| && keys[i] == key
      && forall j :: 0 <= j < i ==> keys[j] != key
    decreases |keys|
  {
    if keys != [] {
      var n := |keys| - 1;
      var prefix := keys[..n];
      FirstColumnWins(prefix, key);
      if exists i :: 0 <= i < |keys| && keys[i] == key {
        var i :| 0 <= i < |keys| && keys[i] == key;
        if i < n {
          assert prefix[i] == key;
        }
      }
    }
  }

  /** TryGet: the trimmed value of a named column, unless the name is unknown, the line is too short or the value is blank. */
  function Lookup(index: map<string, int>, cols: seq<string>, name: string): (r: Option<string>)
    ensures r.Some? <==> Fold(name) in index && 0 <= index[Fold(name)] < |cols| && !IsBlank(cols[index[Fold(name)]])
    ensures r.Some? ==> r.value == Trim(cols[index[Fold(name)]]) && r.value != ""
  {
    if Fold(name) !in index then None
    else
      var i := index[Fold(name)];
      if i < 0 || i >= |cols| then None
      else
        var value := Trim(cols[i]);
        if value == "" then None else Some(value)
  }

  /**
   * The .NET parsers, which this model does not describe: the two date
   * readings of a timestamp column (as UTC, and as Korean time without a
   * zone), and decimal.TryParse with the invariant and the Korean culture.
   */
  datatype Parsers = Parsers(
    utcTime: string -> Option<Ticks>,
    kstTime: string -> Option<Ticks>,
    invariantDecimal: string -> Option<real>,
    koreanDecimal: string -> Option<real>)

  /** TryGetDecimal: the column's value read as a decimal, with the invariant culture first. */
  function LookupDecimal(index: map<string, int>, cols: seq<string>, name: string, p: Parsers): (r: Option<real>)
    ensures Lookup(index, cols, name).None? ==> r.None?
    ensures Lookup(index, cols, name).Some? ==>
      var s := Lookup(index, cols, name).value;
      r == if p.invariantDecimal(s).Some? then p.invariantDecimal(s) else p.koreanDecimal(s)
  {
    match Lookup(index, cols, name)
    case None => None
    case Some(s) => if p.invariantDecimal(s).Some? then p.invariantDecimal(s) else p.koreanDecimal(s)
  }

  /** The bar's time: the UTC column if it reads as a time, otherwise the Korean-time column. */
  function BarTime(index: map<string, int>, cols: seq<string>, p: Parsers): Option<Ticks>
  {
    var utc := Lookup(index, cols, "candle_date_time_utc");
    if utc.Some? && p.utcTime(utc.value).Some? then p.utcTime(utc.value)
    else
      var kst := Lookup(index, cols, "candle_date_time_kst");
      if kst.Some? && p.kstTime(kst.value).Some? then p.kstTime(kst.value) else None
  }

  /** The volume: the accumulated trade volume column, else a column named volume, else 0. */
  function BarVolume(index: map<string, int>, cols: seq<string>, p: Parsers): real
  {
    var acc := LookupDecimal(index, cols, "candle_acc_trade_volume", p);
    if acc.Some? then acc.value
    else
      var vol := LookupDecimal(index, cols, "volume", p);
      if vol.Some? then vol.value else 0.0
  }

  /** TryParseBar, on the parser's index and initialised flag; None stands for `false` with the default bar. */
  function ParseBar(index: map<string, int>, initialized: bool, line: string, p: Parsers): Option<Bar>
  {
    if !initialized then None
    else
      var cols := Split(line);
      if cols == [] then None
      else
        var time := BarTime(index, cols, p);
        var open := LookupDecimal(index, cols, "opening_price", p);
        var high := LookupDecimal(index, cols, "high_price", p);
        var low := LookupDecimal(index, cols, "low_price", p);
        var close := LookupDecimal(index, cols, "trade_price", p);
        if time.None? || open.None? || high.None? || low.None? || close.None? then None
        else Some(Bar(time.value, open.value, high.value, low.value, close.value, BarVolume(index, cols, p)))
  }

  /**
   * A line is not read before a header, nor when it is empty, nor when no
   * timestamp column reads as a time, nor when a price column is missing,
   * blank or not a decimal; otherwise it is read.
   */
  lemma ParseBarFails(index: map<string, int>, initialized: bool, line: string, p: Parsers)
    ensures ParseBar(index, initialized, line, p).None? <==>
      || !initialized
      || line == ""
      || BarTime(index, Split(line), p).None?
      || LookupDecimal(index, Split(line), "opening_price", p).None?
      || LookupDecimal(index, Split(line), "high_price", p).None?
      || LookupDecimal(index, Split(line), "low_price", p).None?
      || LookupDecimal(index, Split(line), "trade_price", p).None?
  {
    FieldCount(line);
  }

  /**
   * A bar that is read takes its prices from the four price columns, its
   * time from the UTC column when that reads as a time and otherwise from
   * the Korean-time column, and its volume from the accumulated volume
   * column, else the volume column, else 0.
   */
  lemma ParseBarFields(index: map<string, int>, line: string, p: Parsers)
    requires ParseBar(index, true, line, p).Some?
    ensures var b := ParseBar(index, true, line, p).value;
      var cols := Split(line);
      var utc := Lookup(index, cols, "candle_date_time_utc");
      var kst := Lookup(index, cols, "candle_date_time_kst");
      var acc := LookupDecimal(index, cols, "candle_acc_trade_volume", p);
      var vol := LookupDecimal(index, cols, "volume", p);
      && Some(b.open) == LookupDecimal(index, cols, "opening_price", p)
      && Some(b.high) == LookupDecimal(index, cols, "high_price", p)
      && Some(b.low) == LookupDecimal(index, cols, "low_price", p)
      && Some(b.close) == LookupDecimal(index, cols, "trade_price", p)
      && (utc.Some? && p.utcTime(utc.value).Some? ==> b.timeUtc == p.utcTime(utc.value).value)
      && (!(utc.Some? && p.utcTime(utc.value).Some?) ==> kst.Some? && p.kstTime(kst.value) == Some(b.timeUtc))
      && (acc.Some? ==> b.volume == acc.value)
      && (acc.None? && vol.Some? ==> b.volume == vol.value)
      && (acc.None? && vol.None? ==> b.volume == 0.0)
  {
  }

  /** One more key: it keeps an earlier position if it has one, and otherwise gets its own. */
  lemma FirstPositionsStep(keys: seq<string>, n: nat)
    requires n < |keys|
    ensures var m := FirstPositions(keys[..n]);
      FirstPositions(keys[..n + 1]) == if keys[n] in m then m else m[keys[n] := n]
  {
    assert keys[..n + 1][..n] == keys[..n];
  }

  /** The header loop: each trimmed column name, folded, keeps the position of its first occurrence. */
  method ColumnIndex(cols: seq<string>) returns (index: map<string, int>)
    ensures index == FirstPositions(ColumnKeys(cols))
  {
    index := map[];
    ghost var keys := ColumnKeys(cols);
    var i := 0;
    while i < |cols|
      invariant 0 <= i <= |cols|
      invariant index == FirstPositions(keys[..i])
    {
      var name := Trim(cols[i]);
      var key := Fold(name);
      FirstPositionsStep(keys, i);
      if key !in index {
        index := index[key := i];
      }
      i := i + 1;
    }
    assert keys[..i] == keys;
  }

  class CsvBarParser {
    /** Column positions, filed under the ASCII-case-folded column name. */
    var index: map<string, int>
    var initialized: bool

    constructor ()
      ensures index == map[] && !initialized
    {
      index := map[];
      initialized := false;
    }

    method InitFromHeader(headerLine: string)
      modifies this
      ensures initialized && index == FirstPositions(ColumnKeys(Split(headerLine)))
    {
      var cols := SplitCsvLine(headerLine);
      index := ColumnIndex(cols);
      initialized := true;
    }

    method TryParseBar(line: string, p: Parsers) returns (bar: Option<Bar>)
      ensures bar == ParseBar(index, initialized, line, p)
    {
      if !initialized {
        return None;
      }
      var cols := SplitCsvLine(line);
      if |cols| == 0 {
        return None;
      }
      var time := BarTime(index, cols, p);
      if time.None? {
        return None;
      }
      var open := LookupDecimal(index, cols, "opening_price", p);
      if open.None? {
        return None;
      }
      var high := LookupDecimal(index, cols, "high_price", p);
      if high.None? {
        return None;
      }
      var low := LookupDecimal(index, cols, "low_price", p);
      if low.None? {
        return None;
      }
      var close := LookupDecimal(index, cols, "trade_price", p);
      if close.None? {
        return None;
      }
      var vol := 0.0;
      var acc := LookupDecimal(index, cols, "candle_acc_trade_volume", p);
      if acc.Some? {
        vol := acc.value;
      } else {
        var fallback := LookupDecimal(index, cols, "volume", p);
        if fallback.Some? {
          vol := fallback.value;
        }
      }
      bar := Some(Bar(time.value, open.value, high.value, low.value, close.value, vol));
    }
  }
}
