/** Sunday substring search over Go strings, which are byte sequences.

    The skip table is filled by ranging over the pattern, which decodes UTF-8 runes,
    but it is probed with single text bytes.  So the search is exact for a pattern
    if and only if the pattern is ASCII, and that is what is proved here. */
module Sunday {
  type Byte = b: int | 0 <= b < 256

  const RUNE_ERROR := 0xFFFD

  predicate Continuation(b: Byte) { 0x80 <= b <= 0xBF }

  function Low(b: Byte): int { b - 0x80 }

  /** The range of second bytes Go accepts after a three- or four-byte lead. */
  predicate SecondByte(lead: Byte, b: Byte) {
    match lead
    case 0xE0 => 0xA0 <= b <= 0xBF
    case 0xED => 0x80 <= b <= 0x9F
    case 0xF0 => 0x90 <= b <= 0xBF
    case 0xF4 => 0x80 <= b <= 0x8F
    case _ => Continuation(b)
  }

  /** One step of a `range` over a string: the rune at position `i` and its width. */
  function DecodeRune(s: seq<Byte>, i: nat): (r: (int, nat))
    requires i < |s|
    ensures 1 <= r.1 <= |s| - i
    ensures s[i] < 0x80 ==> r == (s[i], 1)
    ensures 0x80 <= r.0 < 0x100 ==> r.1 == 2 && Continuation(s[i + 1]) && s[i + 1] == 0x80 + r.0 % 0x40
  {
    var b: int := s[i];
    if b < 0x80 then (b, 1)
    else if 0xC2 <= b <= 0xDF && i + 1 < |s| && Continuation(s[i + 1]) then
      ((b - 0xC0) * 0x40 + Low(s[i + 1]), 2)
    else if 0xE0 <= b <= 0xEF && i + 2 < |s| && SecondByte(b, s[i + 1]) && Continuation(s[i + 2]) then
      ((b - 0xE0) * 0x1000 + Low(s[i + 1]) * 0x40 + Low(s[i + 2]), 3)
    else if 0xF0 <= b <= 0xF4 && i + 3 < |s| && SecondByte(b, s[i + 1]) && Continuation(s[i + 2]) && Continuation(s[i + 3]) then
      ((b - 0xF0) * 0x40000 + Low(s[i + 1]) * 0x1000 + Low(s[i + 2]) * 0x40 + Low(s[i + 3]), 4)
    else (RUNE_ERROR, 1)
  }

  type Table = map<int, nat>

  /** The skip table after ranging over the pattern from byte `i`. */
  function TableFrom(pattern: seq<Byte>, i: nat, table: Table): Table
    requires i <= |pattern|
    decreases |pattern| - i
  {
    if i == |pattern| then table
    else
      var (rune, width) := DecodeRune(pattern, i);
      TableFrom(pattern, i + width, table[rune := |pattern| - i])
  }

  function Skip(table: Table, b: Byte, m: nat): nat {
    if b in table then table[b] else m + 1
  }

  predicate Proper(table: Table, m: nat) {
    forall r | r in table :: 1 <= table[r] <= m
  }

  /** The search from alignment `i`. */
  predicate Finds(text: seq<Byte>, pattern: seq<Byte>, table: Table, i: nat)
    requires Proper(table, |pattern|)
    decreases |text| - i
  {
    i + |pattern| <= |text| &&
    (text[i..i + |pattern|] == pattern ||
     (i + |pattern| < |text| && Finds(text, pattern, table, i + Skip(table, text[i + |pattern|], |pattern|))))
  }

  predicate OccursAt(text: seq<Byte>, pattern: seq<Byte>, k: int) {
    0 <= k && k + |pattern| <= |text| && text[k..k + |pattern|] == pattern
  }

  ghost predicate Occurs(text: seq<Byte>, pattern: seq<Byte>) {
    exists k :: OccursAt(text, pattern, k)
  }

  predicate Ascii(s: seq<Byte>) {
    forall i | 0 <= i < |s| :: s[i] < 0x80
  }

  ghost predicate Searches(text: seq<Byte>, pattern: seq<Byte>) {
    TableIsProper(pattern, 0, map[]);
    Finds(text, pattern, TableFrom(pattern, 0, map[]), 0)
  }

  method BuildOffsets(pattern: seq<Byte>) returns (offset: Table)
    ensures offset == TableFrom(pattern, 0, map[])
  {
    offset := map[];
    var i := 0;
    while i < |pattern|
      invariant 0 <= i <= |pattern| && TableFrom(pattern, i, offset) == TableFrom(pattern, 0, map[])
    {
      var (rune, width) := DecodeRune(pattern, i);
      offset := offset[rune := |pattern| - i];
      i := i + width;
    }
  }

  method MatchesAt(text: seq<Byte>, pattern: seq<Byte>, i: nat) returns (matched: bool)
    requires i + |pattern| <= |text|
    ensures matched == (text[i..i + |pattern|] == pattern)
  {
    var m := |pattern|;
    var j := 0;
    while j < m && text[i + j] == pattern[j]
      invariant 0 <= j <= m && text[i..i + j] == pattern[..j]
    {
      assert text[i..i + j + 1] == text[i..i + j] + [text[i + j]];
      assert pattern[..j + 1] == pattern[..j] + [pattern[j]];
      j := j + 1;
    }
    assert j < m ==> text[i..i + m][j] != pattern[j];
    assert pattern[..m] == pattern;
    return j == m;
  }

  /** The search: shift by the table until the window matches or runs out. */
  method SundaySearch(text: seq<Byte>, pattern: seq<Byte>) returns (found: bool)
    ensures found == Searches(text, pattern)
  {
    var offset := BuildOffsets(pattern);
    TableIsProper(pattern, 0, map[]);
    var n, m := |text|, |pattern|;
    var i := 0;
    while i <= n - m
      invariant 0 <= i && Finds(text, pattern, offset, i) == Searches(text, pattern)
      decreases n - i
    {
      var matched := MatchesAt(text, pattern, i);
      if matched {
        return true;
      }
      if i + m < n {
        i := i + if text[i + m] in offset then offset[text[i + m]] else m + 1;
      } else {
        break;
      }
    }
    return false;
  }

  lemma {:induction false} TableIsProper(pattern: seq<Byte>, i: nat, table: Table)
    requires i <= |pattern| && Proper(table, |pattern|)
    ensures Proper(TableFrom(pattern, i, table), |pattern|)
    decreases |pattern| - i
  {
    if i < |pattern| {
      var (rune, width) := DecodeRune(pattern, i);
      TableIsProper(pattern, i + width, table[rune := |pattern| - i]);
    }
  }

  lemma {:induction false} HitsAreReal(text: seq<Byte>, pattern: seq<Byte>, table: Table, i: nat)
    requires Proper(table, |pattern|)
    ensures Finds(text, pattern, table, i) ==> Occurs(text, pattern)
    decreases |text| - i
  {
    if Finds(text, pattern, table, i) {
      if text[i..i + |pattern|] == pattern {
        assert OccursAt(text, pattern, i);
      } else {
        HitsAreReal(text, pattern, table, i + Skip(table, text[i + |pattern|], |pattern|));
      }
    }
  }

  /** No byte of the pattern may be skipped past its own position. */
  predicate Safe(table: Table, pattern: seq<Byte>) {
    forall k | 0 <= k < |pattern| :: Skip(table, pattern[k], |pattern|) <= |pattern| - k
  }

  /** A safe table never jumps over an occurrence. */
  lemma {:induction false} SafeTableMissesNothing(text: seq<Byte>, pattern: seq<Byte>, table: Table, i: nat)
    requires Proper(table, |pattern|) && Safe(table, pattern)
    ensures Finds(text, pattern, table, i) <==> exists q :: i <= q && OccursAt(text, pattern, q)
    decreases |text| - i
  {
    var m := |pattern|;
    if i + m < |text| && text[i..i + m] != pattern {
      var next := i + Skip(table, text[i + m], m);
      SafeTableMissesNothing(text, pattern, table, next);
      forall q | i <= q && OccursAt(text, pattern, q)
        ensures next <= q
      {
        if q <= i + m {
          assert text[q..q + m][i + m - q] == pattern[i + m - q];
        }
      }
    } else if i + m <= |text| && text[i..i + m] == pattern {
      assert OccursAt(text, pattern, i);
    }
  }

  lemma {:induction false} AsciiTable(pattern: seq<Byte>, i: nat, table: Table)
    requires i <= |pattern| && Ascii(pattern)
    requires forall k | 0 <= k < i :: pattern[k] in table && table[pattern[k]] <= |pattern| - k
    ensures forall k | 0 <= k < |pattern| ::
              pattern[k] in TableFrom(pattern, i, table) && TableFrom(pattern, i, table)[pattern[k]] <= |pattern| - k
    decreases |pattern| - i
  {
    if i < |pattern| {
      AsciiTable(pattern, i + 1, table[pattern[i] := |pattern| - i]);
    }
  }

  lemma {:induction false} AsciiTableIsSafe(pattern: seq<Byte>)
    requires Ascii(pattern)
    ensures Safe(TableFrom(pattern, 0, map[]), pattern)
  {
    AsciiTable(pattern, 0, map[]);
  }

  /** Every table entry for a rune in U+0080..U+00FF comes from a two-byte sequence
      whose second byte is a continuation byte. */
  ghost predicate Witnessed(pattern: seq<Byte>, table: Table) {
    forall r | r in table && 0x80 <= r < 0x100 :: exists i :: WitnessAt(pattern, table[r], r, i)
  }

  predicate WitnessAt(pattern: seq<Byte>, entry: nat, r: int, i: int) {
    0 <= i && i + 1 < |pattern| && entry == |pattern| - i && Continuation(pattern[i + 1]) && pattern[i + 1] == 0x80 + r % 0x40
  }

  lemma {:induction false} TableIsWitnessed(pattern: seq<Byte>, i: nat, table: Table)
    requires i <= |pattern| && Witnessed(pattern, table)
    ensures Witnessed(pattern, TableFrom(pattern, i, table))
    decreases |pattern| - i
  {
    if i < |pattern| {
      var (rune, width) := DecodeRune(pattern, i);
      var table' := table[rune := |pattern| - i];
      forall r | r in table' && 0x80 <= r < 0x100
        ensures exists j :: WitnessAt(pattern, table'[r], r, j)
      {
        if r == rune {
          assert WitnessAt(pattern, table'[r], r, i);
        } else {
          var j :| WitnessAt(pattern, table[r], r, j);
          assert WitnessAt(pattern, table'[r], r, j);
        }
      }
      TableIsWitnessed(pattern, i + width, table');
    }
  }

  /** A pattern with a non-ASCII byte has an unsafe position. */
  lemma NonAsciiTableIsUnsafe(pattern: seq<Byte>) returns (k: nat)
    requires !Ascii(pattern)
    ensures k < |pattern| && Skip(TableFrom(pattern, 0, map[]), pattern[k], |pattern|) > |pattern| - k
  {
    var table := TableFrom(pattern, 0, map[]);
    TableIsWitnessed(pattern, 0, map[]);
    k :| 0 <= k < |pattern| && pattern[k] >= 0x80;
    if pattern[k] in table {
      // the rune that put it there carries a continuation byte one further on
      var i :| WitnessAt(pattern, table[pattern[k]], pattern[k], i);
      var b := pattern[i + 1];
      k := i + 1;
      if b in table {
        var j :| WitnessAt(pattern, table[b], b, j);
        assert b % 0x40 == b - 0x80;
        assert pattern[j + 1] == b;
        k := j + 1;
      }
    }
  }

  /** A text the search gets wrong: the pattern, pushed right so that the first skip
      jumps over it. */
  lemma UnsafePositionMisses(pattern: seq<Byte>, k: nat) returns (text: seq<Byte>)
    requires k < |pattern| && Skip(TableFrom(pattern, 0, map[]), pattern[k], |pattern|) > |pattern| - k
    ensures Occurs(text, pattern) && !Searches(text, pattern)
  {
    var m := |pattern|;
    var table := TableFrom(pattern, 0, map[]);
    TableIsProper(pattern, 0, map[]);
    var x: Byte := if pattern[0] == 0 then 1 else 0;
    text := seq(m - k, _ => x) + pattern;
    assert text[m - k..m - k + m] == pattern;
    assert OccursAt(text, pattern, m - k);
    assert text[0..0 + m][0] == x != pattern[0];
    assert text[0 + m] == pattern[k];
    assert !Finds(text, pattern, table, 0 + Skip(table, text[0 + m], m));
  }

  /** A hit is always real, whatever the pattern. */
  lemma SearchIsSound(text: seq<Byte>, pattern: seq<Byte>)
    ensures Searches(text, pattern) ==> Occurs(text, pattern)
  {
    TableIsProper(pattern, 0, map[]);
    HitsAreReal(text, pattern, TableFrom(pattern, 0, map[]), 0);
  }

  /** The search is exact on every text if and only if the pattern is ASCII. */
  lemma ExactIffAscii(pattern: seq<Byte>)
    ensures (forall text :: Searches(text, pattern) == Occurs(text, pattern)) <==> Ascii(pattern)
  {
    if Ascii(pattern) {
      forall text
        ensures Searches(text, pattern) == Occurs(text, pattern)
      {
        TableIsProper(pattern, 0, map[]);
        AsciiTableIsSafe(pattern);
        SafeTableMissesNothing(text, pattern, TableFrom(pattern, 0, map[]), 0);
      }
    } else {
      var k := NonAsciiTableIsUnsafe(pattern);
      var text := UnsafePositionMisses(pattern, k);
    }
  }
}
