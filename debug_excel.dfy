/** The spreadsheet column names of the workbook inspector (DebugExcel.java). */
module DebugExcel {

  /** The letter for digit `d` of a column name: 0 is 'A', 25 is 'Z'. */
  function Letter(d: int): (c: char)
    requires 0 <= d < 26
    ensures 'A' <= c <= 'Z'
  {
    ('A' as int + d) as char
  }

  /** The column name of zero-based column `index`: "A" to "Z", then "AA" to "ZZ", then "AAA",
      and so on; the empty string for a negative index. */
  function ColumnLetters(index: int): (name: string)
    ensures name == "" <==> index < 0
    ensures forall k :: 0 <= k < |name| ==> 'A' <= name[k] <= 'Z'
    decreases if index < 0 then 0 else index + 1
  {
    if index < 0 then "" else ColumnLetters(index / 26 - 1) + [Letter(index % 26)]
  }

  /** Builds the column name by the source's loop, which prepends a letter and moves to the
      next, bijective base-26, digit. */
  method GetColumnLetter(index: int) returns (name: string)
    ensures name == ColumnLetters(index)
  {
    name := "";
    var i := index;
    while i >= 0
      invariant ColumnLetters(index) == ColumnLetters(i) + name
      decreases i + 1
    {
      name := [Letter(i % 26)] + name;
      i := i / 26 - 1;
    }
  }

  /** A column name read back as a bijective base-26 numeral, with 'A' = 1 through 'Z' = 26. */
  function BijectiveValue(name: string): int
    decreases |name|
  {
    if name == [] then 0
    else 26 * BijectiveValue(name[..|name| - 1]) + (name[|name| - 1] as int - 'A' as int + 1)
  }

  /** Reading the name of column `index` gives back `index + 1`. */
  lemma {:induction false} ColumnLettersRoundTrip(index: int)
    requires index >= -1
    ensures BijectiveValue(ColumnLetters(index)) == index + 1
    decreases index + 1
  {
    if index >= 0 {
      var prefix := ColumnLetters(index / 26 - 1);
      ColumnLettersRoundTrip(index / 26 - 1);
      var name := prefix + [Letter(index % 26)];
      assert name[..|name| - 1] == prefix;
    }
  }

  /** Distinct columns have distinct names. */
  lemma ColumnLettersInjective(i: int, j: int)
    requires i >= 0 && j >= 0
    requires ColumnLetters(i) == ColumnLetters(j)
    ensures i == j
  {
    ColumnLettersRoundTrip(i);
    ColumnLettersRoundTrip(j);
  }

  /** Names are one letter long exactly for columns 0 to 25 and two letters exactly for 26 to 701. */
  lemma ColumnLettersLength(index: int)
    ensures |ColumnLetters(index)| == 1 <==> 0 <= index <= 25
    ensures |ColumnLetters(index)| == 2 <==> 26 <= index <= 701
  {
    if index >= 0 {
      var q := index / 26 - 1;
      if q >= 0 {
        assert |ColumnLetters(q)| >= 1;
        assert |ColumnLetters(q)| == 1 <==> q <= 25 by {
          if q >= 26 {
            var q2 := q / 26 - 1;
            assert q2 >= 0;
            assert |ColumnLetters(q2)| >= 1;
          }
        }
      }
    }
  }

  /** The names of the first, last one-letter, first two-letter and first three-letter columns. */
  lemma ColumnLettersExamples()
    ensures ColumnLetters(0) == "A" && ColumnLetters(25) == "Z"
    ensures ColumnLetters(26) == "AA" && ColumnLetters(27) == "AB"
    ensures ColumnLetters(701) == "ZZ" && ColumnLetters(702) == "AAA"
  {
    assert ColumnLetters(-1) == "";
    assert ColumnLetters(0) == "A";
    assert ColumnLetters(25) == "Z";
    assert ColumnLetters(1) == "B";
    assert ColumnLetters(26) == "AA";
  }
}
