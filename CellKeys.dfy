/**
 * Cell keys: a position written as "row-col", and read back.
 */
module CellKeys {
  import opened Types
  import opened Text

  /**
   * `getCellKey`: the row, a dash, the column, both in decimal. For a
   * position on or beyond the board's top-left corner the key splits at its
   * one dash into two numerals, worth the row and the column.
   */
  function GetCellKey(row: int, col: int): (key: string)
    ensures row >= 0 && col >= 0 ==> '-' in key && |key| >= 3
    ensures row >= 0 && col >= 0 ==>
      var pieces := Split(key, '-');
      && |pieces| == 2 && AllDigits(pieces[0]) && AllDigits(pieces[1])
      && DigitsValue(pieces[0]) == row && DigitsValue(pieces[1]) == col
  {
    var key := IntToString(row) + "-" + IntToString(col);
    assert key[|IntToString(row)|] == '-';
    if row >= 0 && col >= 0 then
      NumeralsAroundDash(row, col);
      key
    else key
  }

  /** Two non-negative numerals joined by a dash split back into the two. */
  lemma NumeralsAroundDash(row: nat, col: nat)
    ensures var a, b := IntToString(row), IntToString(col);
      && Split(a + "-" + b, '-') == [a, b]
      && DigitsValue(a) == row && DigitsValue(b) == col
  {
    var a, b := IntToString(row), IntToString(col);
    assert '-' !in a && '-' !in b by {
      assert forall i :: 0 <= i < |a| ==> IsDigit(a[i]);
      assert forall i :: 0 <= i < |b| ==> IsDigit(b[i]);
    }
    assert a + "-" + b == a + ['-'] + b;
    SplitJoin(a, b, '-');
    DigitsValueOfNatToString(row);
    DigitsValueOfNatToString(col);
  }

  /**
   * `parsePosition`: the first two dash-separated pieces, read as numbers.
   * A key with fewer than two pieces, or a piece that is not a number, has
   * no position (the code would build one from `undefined` or `NaN`).
   */
  function ParsePosition(key: string): (p: Option<Position>)
    ensures p.Some? ==> p.value.row >= 0 && p.value.col >= 0
    ensures '-' !in key ==> p == None
  {
    var pieces := Split(key, '-');
    if '-' !in key then
      SplitNoSeparator(key, '-');
      None
    else if |pieces| < 2 then None
    else
      match (ParseNumber(pieces[0]), ParseNumber(pieces[1]))
      case (Some(row), Some(col)) => Some(Position(row, col))
      case _ => None
  }

  /** A key made from a non-negative position reads back as that position. */
  lemma KeyRoundTrip(row: int, col: int)
    requires row >= 0 && col >= 0
    ensures ParsePosition(GetCellKey(row, col)) == Some(Position(row, col))
  {
  }

  /**
   * A negative row does not survive: its minus sign is taken for the
   * separator, so the key of (-1, 2) reads back as (0, 1).
   */
  lemma NegativeRowMisread()
    ensures GetCellKey(-1, 2) == "-1-2"
    ensures ParsePosition(GetCellKey(-1, 2)) == Some(Position(0, 1))
  {
    assert IntToString(-1) == "-1";
    assert IntToString(2) == "2";
    var key := "-1-2";
    assert Split("", '-') == [""];
    assert "2"[1..] == "";
    assert ['2'] + "" == "2";
    assert Split("2", '-') == [['2'] + ""] + [""][1..];
    assert "-2"[1..] == "2";
    assert Split("-2", '-') == ["", "2"];
    assert "1-2"[1..] == "-2";
    assert ['1'] + "" == "1";
    assert Split("1-2", '-') == [['1'] + ""] + ["", "2"][1..];
    assert key[1..] == "1-2";
    assert Split(key, '-') == ["", "1", "2"];
    assert DigitsValue("") == 0;
    assert DigitsValue("1") == 1;
  }
}
