/** The CSV printer and parser of the UAT seeding script (the quoting of section 2
    of RFC 4180).  Strings are sequences of UTF-16 code units. */
module Csv {
  type Unit = u: int | 0 <= u < 0x1_0000

  const QUOTE: Unit := 0x22
  const COMMA: Unit := 0x2C
  const CR: Unit := 0x0D
  const LF: Unit := 0x0A
  const BOM: Unit := 0xFEFF

  type Text = seq<Unit>
  type Row = seq<Text>

  /** A cell to print: null and undefined print as the empty string. */
  datatype Value = Missing | Present(text: Text)
  {
    function AsText(): Text { if Missing? then [] else text }
  }

  // ---------------------------------------------------------------- printer

  predicate Special(u: Unit) { u == QUOTE || u == COMMA || u == CR || u == LF }

  function Doubled(s: Text): Text {
    if s == [] then [] else (if s[0] == QUOTE then [QUOTE, QUOTE] else [s[0]]) + Doubled(s[1..])
  }

  function CsvCell(v: Value): Text {
    var s := v.AsText();
    if exists i | 0 <= i < |s| :: Special(s[i]) then [QUOTE] + Doubled(s) + [QUOTE] else s
  }

  /** The cells of one row joined by commas. */
  function JoinCells(r: seq<Value>): Text {
    if r == [] then [] else if |r| == 1 then CsvCell(r[0]) else CsvCell(r[0]) + [COMMA] + JoinCells(r[1..])
  }

  /** Every row ended by CR LF; no row at all still prints one line end. */
  function ToCsv(rows: seq<seq<Value>>): Text {
    if |rows| <= 1 then (if rows == [] then [] else JoinCells(rows[0])) + [CR, LF]
    else JoinCells(rows[0]) + ([CR, LF] + ToCsv(rows[1..]))
  }

  // ---------------------------------------------------------------- parser

  /** The parser's variables. */
  datatype State = State(rows: seq<Row>, row: Row, cell: Text, quoted: bool)

  function EndCell(st: State): State { State(st.rows, st.row + [st.cell], [], false) }
  function EndRow(st: State): State { State(st.rows + [st.row + [st.cell]], [], [], false) }
  function Grow(st: State, u: Unit): State { st.(cell := st.cell + [u]) }

  /** One turn of the loop: the new state and how many units it read. */
  function Turn(t: Text, st: State): (r: (State, nat))
    requires t != []
    ensures 1 <= r.1 <= |t|
  {
    var ch := t[0];
    if st.quoted then
      if ch == QUOTE && |t| > 1 && t[1] == QUOTE then (Grow(st, QUOTE), 2)
      else if ch == QUOTE then (st.(quoted := false), 1)
      else (Grow(st, ch), 1)
    else if ch == QUOTE then (st.(quoted := true), 1)
    else if ch == COMMA then (EndCell(st), 1)
    else if ch == CR && |t| > 1 && t[1] == LF then (EndRow(st), 2)
    else if ch == LF || ch == CR then (EndRow(st), 1)
    else (Grow(st, ch), 1)
  }

  function Scan(t: Text, st: State): State
    decreases |t|
  {
    if t == [] then st else var (st', n) := Turn(t, st); Scan(t[n..], st')
  }

  predicate NonBlank(r: Row) { exists c | c in r :: c != [] }

  function NonBlankRows(rows: seq<Row>): seq<Row> {
    if rows == [] then [] else (if NonBlank(rows[0]) then [rows[0]] else []) + NonBlankRows(rows[1..])
  }

  function StripBom(t: Text): Text {
    if t != [] && t[0] == BOM then t[1..] else t
  }

  function Parsed(text: Text): seq<Row> {
    var st := Scan(StripBom(text), State([], [], [], false));
    NonBlankRows(if st.cell != [] || st.row != [] then EndRow(st).rows else st.rows)
  }

  lemma Shifted(done: seq<Row>, r: Row, rest: seq<Row>)
    ensures done + ([r] + rest) == (done + [r]) + rest && done + ([] + rest) == done + rest
  {}

  method KeepNonBlank(rows: seq<Row>) returns (result: seq<Row>)
    ensures result == NonBlankRows(rows)
  {
    result := [];
    for k := 0 to |rows|
      invariant result + NonBlankRows(rows[k..]) == NonBlankRows(rows)
    {
      assert rows[k..][1..] == rows[k + 1..];
      Shifted(result, rows[k], NonBlankRows(rows[k + 1..]));
      if exists c | c in rows[k] :: c != [] {
        result := result + [rows[k]];
      }
    }
  }

  /** One character of the loop, from position `i`; returns the next position. */
  method Advance(t: Text, i: nat, st: State) returns (j: nat, st': State)
    requires i < |t|
    ensures i < j <= |t|
    ensures Scan(t[i..], st) == Scan(t[j..], st')
  {
    var ch := t[i];
    var State(rows, row, cell, q) := st;
    j := i + 1;
    if q {
      if ch == QUOTE && i + 1 < |t| && t[i + 1] == QUOTE {
        cell := cell + [QUOTE];
        j := j + 1;
      } else if ch == QUOTE {
        q := false;
      } else {
        cell := cell + [ch];
      }
    } else if ch == QUOTE {
      q := true;
    } else if ch == COMMA {
      row, cell := row + [cell], [];
    } else if ch == LF || ch == CR {
      if ch == CR && i + 1 < |t| && t[i + 1] == LF {
        j := j + 1;
      }
      rows, row, cell := rows + [row + [cell]], [], [];
    } else {
      cell := cell + [ch];
    }
    st' := State(rows, row, cell, q);
    ghost var turn := Turn(t[i..], st);
    assert turn == (st', j - i);
    assert t[i..][turn.1..] == t[j..];
  }

  method ParseCsv(text: Text) returns (result: seq<Row>)
    ensures result == Parsed(text)
  {
    var t := if text != [] && text[0] == BOM then text[1..] else text;
    var st := State([], [], [], false);
    var i := 0;
    assert t[0..] == t;
    while i < |t|
      invariant 0 <= i <= |t|
      invariant Scan(t[i..], st) == Scan(t, State([], [], [], false))
    {
      i, st := Advance(t, i, st);
    }
    assert t[i..] == [];
    var rows := st.rows;
    if st.cell != [] || st.row != [] {
      rows := rows + [st.row + [st.cell]];
    }
    result := KeepNonBlank(rows);
  }

  // ---------------------------------------------------------------- round trip

  /** Inside quotes the doubled text is read back unit by unit, up to the closing
      quote, which what follows must not extend. */
  lemma {:induction false} ScanDoubled(s: Text, rest: Text, st: State)
    requires st.quoted && (rest == [] || rest[0] != QUOTE)
    ensures Scan(Doubled(s) + [QUOTE] + rest, st) == Scan(rest, st.(cell := st.cell + s, quoted := false))
    decreases |s|
  {
    var t := Doubled(s) + [QUOTE] + rest;
    if s == [] {
      assert t[1..] == rest && st.cell + s == st.cell;
    } else {
      var t' := Doubled(s[1..]) + [QUOTE] + rest;
      assert t == (if s[0] == QUOTE then [QUOTE, QUOTE] else [s[0]]) + t';
      assert Turn(t, st).0 == Grow(st, s[0]) && t[Turn(t, st).1..] == t';
      ScanDoubled(s[1..], rest, Grow(st, s[0]));
      assert st.cell + [s[0]] + s[1..] == st.cell + s;
    }
  }

  lemma {:induction false} ScanPlain(s: Text, rest: Text, st: State)
    requires !st.quoted && forall i | 0 <= i < |s| :: !Special(s[i])
    ensures Scan(s + rest, st) == Scan(rest, st.(cell := st.cell + s))
    decreases |s|
  {
    if s == [] {
      assert s + rest == rest && st.cell + s == st.cell;
    } else {
      assert (s + rest)[1..] == s[1..] + rest;
      ScanPlain(s[1..], rest, Grow(st, s[0]));
      assert st.cell + [s[0]] + s[1..] == st.cell + s;
    }
  }

  /** The opening quote of `t`. */
  lemma {:induction false} ScanOpenQuote(t: Text, st: State)
    requires !st.quoted && t != [] && t[0] == QUOTE
    ensures Scan(t, st) == Scan(t[1..], st.(quoted := true))
  {
  }

  lemma {:induction false} ScanQuoted(t: Text, s: Text, rest: Text, st: State)
    requires !st.quoted && st.cell == [] && (rest == [] || rest[0] != QUOTE)
    requires t == [QUOTE] + Doubled(s) + [QUOTE] + rest
    ensures Scan(t, st) == Scan(rest, st.(cell := s))
  {
    ScanOpenQuote(t, st);
    assert t[1..] == Doubled(s) + [QUOTE] + rest;
    ScanDoubled(s, rest, st.(quoted := true));
    assert st.cell + s == s;
  }

  /** A printed cell is read back as its text, quotes, commas and line ends included. */
  lemma {:induction false} ScanCell(v: Value, rest: Text, st: State)
    requires !st.quoted && st.cell == [] && (rest == [] || rest[0] != QUOTE)
    ensures Scan(CsvCell(v) + rest, st) == Scan(rest, st.(cell := v.AsText()))
  {
    var s := v.AsText();
    if exists i | 0 <= i < |s| :: Special(s[i]) {
      ScanQuoted(CsvCell(v) + rest, s, rest, st);
    } else {
      ScanPlain(s, rest, st);
      assert st.cell + s == s;
    }
  }

  function Texts(r: seq<Value>): Row {
    seq(|r|, i requires 0 <= i < |r| => r[i].AsText())
  }

  /** What a printed row parses to: its cells, or one empty cell if it has none. */
  function Line(r: seq<Value>): Row {
    if r == [] then [[]] else Texts(r)
  }

  lemma {:induction false} ScanLineEnd(rest: Text, st: State)
    requires !st.quoted
    ensures Scan([CR, LF] + rest, st) == Scan(rest, EndRow(st))
  {
    assert ([CR, LF] + rest)[2..] == rest;
  }

  lemma {:induction false} ScanComma(rest: Text, st: State)
    requires !st.quoted
    ensures Scan([COMMA] + rest, st) == Scan(rest, EndCell(st))
  {
    assert ([COMMA] + rest)[1..] == rest;
  }

  lemma {:induction false} JoinSplit(r: seq<Value>, rest: Text)
    requires |r| > 1
    ensures JoinCells(r) + rest == CsvCell(r[0]) + ([COMMA] + (JoinCells(r[1..]) + rest))
  {
  }

  lemma LineSplit(row: Row, r: seq<Value>)
    requires r != []
    ensures |r| == 1 ==> row + Line(r) == row + [r[0].AsText()]
    ensures |r| > 1 ==> row + [r[0].AsText()] + Line(r[1..]) == row + Line(r)
  {
  }

  lemma {:induction false} ScanOneCell(v: Value, rest: Text, st: State)
    requires !st.quoted && st.cell == []
    ensures Scan(CsvCell(v) + ([CR, LF] + rest), st) == Scan(rest, State(st.rows + [st.row + [v.AsText()]], [], [], false))
  {
    ScanCell(v, [CR, LF] + rest, st);
    ScanLineEnd(rest, st.(cell := v.AsText()));
  }

  lemma {:induction false} ScanFirstCell(v: Value, rest: Text, st: State)
    requires !st.quoted && st.cell == []
    ensures Scan(CsvCell(v) + ([COMMA] + rest), st) == Scan(rest, State(st.rows, st.row + [v.AsText()], [], false))
  {
    ScanCell(v, [COMMA] + rest, st);
    ScanComma(rest, st.(cell := v.AsText()));
  }

  lemma {:induction false} ScanRow(r: seq<Value>, rest: Text, st: State)
    requires !st.quoted && st.cell == []
    ensures Scan(JoinCells(r) + ([CR, LF] + rest), st) == Scan(rest, State(st.rows + [st.row + Line(r)], [], [], false))
    decreases |r|
  {
    var ending := [CR, LF] + rest;
    if r == [] {
      assert JoinCells(r) + ending == ending;
      ScanLineEnd(rest, st);
    } else if |r| == 1 {
      LineSplit(st.row, r);
      ScanOneCell(r[0], rest, st);
    } else {
      JoinSplit(r, ending);
      LineSplit(st.row, r);
      ScanFirstCell(r[0], JoinCells(r[1..]) + ending, st);
      ScanRow(r[1..], rest, State(st.rows, st.row + [r[0].AsText()], [], false));
    }
  }

  function Lines(rows: seq<seq<Value>>): seq<Row> {
    if rows == [] then [[[]]] else seq(|rows|, i requires 0 <= i < |rows| => Line(rows[i]))
  }

  lemma LinesSplit(done: seq<Row>, rows: seq<seq<Value>>)
    requires |rows| > 1
    ensures done + [Line(rows[0])] + Lines(rows[1..]) == done + Lines(rows)
  {
    assert [Line(rows[0])] + Lines(rows[1..]) == Lines(rows);
  }

  lemma {:induction false} ScanRows(rows: seq<seq<Value>>, done: seq<Row>)
    ensures Scan(ToCsv(rows), State(done, [], [], false)) == State(done + Lines(rows), [], [], false)
    decreases |rows|
  {
    var st := State(done, [], [], false);
    if |rows| <= 1 {
      var r := if rows == [] then [] else rows[0];
      assert [] + Line(r) == Line(r);
      assert Lines(rows) == [Line(r)] && [CR, LF] + [] == [CR, LF];
      ScanRow(r, [], st);
    } else {
      assert [] + Line(rows[0]) == Line(rows[0]);
      ScanRow(rows[0], ToCsv(rows[1..]), st);
      ScanRows(rows[1..], done + [Line(rows[0])]);
      LinesSplit(done, rows);
    }
  }

  /** The rows worth keeping, as text. */
  function Kept(rows: seq<seq<Value>>): seq<Row> {
    if rows == [] then [] else (if NonBlank(Texts(rows[0])) then [Texts(rows[0])] else []) + Kept(rows[1..])
  }

  lemma {:induction false} NonBlankLines(rows: seq<seq<Value>>)
    requires rows != []
    ensures NonBlankRows(Lines(rows)) == Kept(rows)
    decreases |rows|
  {
    assert rows[0] == [] ==> !NonBlank(Line(rows[0])) && !NonBlank(Texts(rows[0]));
    if |rows| == 1 {
      assert Lines(rows)[1..] == [];
    } else {
      NonBlankLines(rows[1..]);
      assert Lines(rows)[1..] == Lines(rows[1..]);
    }
  }

  /** Parsing what was printed behind a byte-order mark returns exactly the rows with
      at least one non-empty cell, in order and cell for cell. */
  lemma {:induction false} RoundTrip(rows: seq<seq<Value>>)
    ensures Parsed([BOM] + ToCsv(rows)) == Kept(rows)
  {
    assert ([BOM] + ToCsv(rows))[1..] == ToCsv(rows);
    ScanRows(rows, []);
    assert [] + Lines(rows) == Lines(rows);
    if rows == [] {
      assert !NonBlank(Line([]));
      assert Lines(rows) == [Line([])];
      assert NonBlankRows([Line([])][1..]) == [];
      assert NonBlankRows(Lines(rows)) == [];
    } else {
      NonBlankLines(rows);
    }
  }

  function RowSize(r: Row): nat {
    if r == [] then 0 else |r[0]| + RowSize(r[1..])
  }

  function Size(rows: seq<Row>): nat {
    if rows == [] then 0 else RowSize(rows[0]) + Size(rows[1..])
  }

  function TotalSize(rows: seq<seq<Value>>): nat {
    if rows == [] then 0 else RowSize(Texts(rows[0])) + TotalSize(rows[1..])
  }

  lemma {:induction false} BlankIsEmpty(r: Row)
    requires !NonBlank(r)
    ensures RowSize(r) == 0
  {
    if r != [] {
      assert r[0] in r && forall c | c in r[1..] :: c in r;
      BlankIsEmpty(r[1..]);
    }
  }

  lemma {:induction false} KeptSize(rows: seq<seq<Value>>)
    ensures Size(Kept(rows)) == TotalSize(rows)
  {
    if rows != [] {
      KeptSize(rows[1..]);
      var r := Texts(rows[0]);
      if NonBlank(r) {
        assert Kept(rows)[1..] == Kept(rows[1..]);
      } else {
        BlankIsEmpty(r);
        assert Kept(rows) == Kept(rows[1..]);
      }
    }
  }

  /** `rows` with the first cell of its first row replaced. */
  function WithFirst(rows: seq<seq<Value>>, s: Text): seq<seq<Value>>
    requires rows != [] && rows[0] != []
  {
    [[Present(s)] + rows[0][1..]] + rows[1..]
  }

  lemma PulledOut(u: Unit, s: Text, x: Text, y: Text)
    ensures ([u] + s) + x + y == [u] + (s + x + y)
  {}

  lemma {:induction false} JoinWithFirst(r: seq<Value>, u: Unit, s: Text, r': seq<Value>)
    requires r != [] && CsvCell(r[0]) == [u] + s && CsvCell(Present(s)) == s && r' == [Present(s)] + r[1..]
    ensures JoinCells(r) == [u] + JoinCells(r')
  {
    if |r| > 1 {
      assert r'[1..] == r[1..];
      PulledOut(u, s, [COMMA], JoinCells(r[1..]));
    }
  }

  lemma PulledOutLine(u: Unit, line: Text, rest: Text)
    ensures ([u] + line) + rest == [u] + (line + rest)
  {}

  lemma {:induction false} WithFirstPrints(rows: seq<seq<Value>>, u: Unit, s: Text)
    requires rows != [] && rows[0] != [] && CsvCell(rows[0][0]) == [u] + s && CsvCell(Present(s)) == s
    ensures ToCsv(rows) == [u] + ToCsv(WithFirst(rows, s))
  {
    var r := [Present(s)] + rows[0][1..];
    var rest := if |rows| == 1 then [CR, LF] else [CR, LF] + ToCsv(rows[1..]);
    JoinWithFirst(rows[0], u, s, r);
    PulledOutLine(u, JoinCells(r), rest);
    assert WithFirst(rows, s)[0] == r;
    assert WithFirst(rows, s)[1..] == rows[1..];
    assert ToCsv(rows) == JoinCells(rows[0]) + rest;
    assert ToCsv(WithFirst(rows, s)) == JoinCells(r) + rest;
  }

  lemma {:induction false} WithFirstSize(rows: seq<seq<Value>>, s: Text)
    requires rows != [] && rows[0] != []
    ensures TotalSize(WithFirst(rows, s)) == TotalSize(rows) - |rows[0][0].AsText()| + |s|
  {
    var r := [Present(s)] + rows[0][1..];
    assert Texts(r)[1..] == Texts(rows[0])[1..];
    assert WithFirst(rows, s)[1..] == rows[1..];
  }

  /** Text that starts with the mark starts with a plain first cell that does. */
  lemma {:induction false} MarkStartsFirstCell(rows: seq<seq<Value>>)
    requires ToCsv(rows)[0] == BOM
    ensures rows != [] && rows[0] != []
    ensures var s := rows[0][0].AsText(); s != [] && s[0] == BOM && CsvCell(rows[0][0]) == s && CsvCell(Present(s[1..])) == s[1..]
  {
    assert rows != [] && rows[0] != [];
    if |rows[0]| > 1 {
      JoinSplit(rows[0], []);
    }
    var c := CsvCell(rows[0][0]);
    assert c != [] && c[0] == BOM;
  }

  /** Without the mark the round trip holds if and only if the printed text does not
      itself start with one: that one is taken for the mark and lost. */
  lemma {:induction false} RoundTripWithoutMark(rows: seq<seq<Value>>)
    ensures Parsed(ToCsv(rows)) == Kept(rows) <==> ToCsv(rows)[0] != BOM
  {
    if ToCsv(rows)[0] != BOM {
      RoundTrip(rows);
      assert ([BOM] + ToCsv(rows))[1..] == ToCsv(rows);
    } else {
      MarkStartsFirstCell(rows);
      var s := rows[0][0].AsText();
      assert s == [BOM] + s[1..];
      var stripped := WithFirst(rows, s[1..]);
      WithFirstPrints(rows, BOM, s[1..]);
      WithFirstSize(rows, s[1..]);
      RoundTrip(stripped);
      KeptSize(rows);
      KeptSize(stripped);
    }
  }
}
