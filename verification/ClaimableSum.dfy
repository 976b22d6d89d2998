/** The digit-wise sum of FaucetDatabase.getClaimableAmount (src/db/FaucetDatabase.ts:1140-1248):
    what the query returns as a function of the table, the place-value loop as a method. */
module ClaimableSum {
  import opened Wrappers

  const MAX_DIGITS: nat := 50

  datatype SessionRow = SessionRow(status: string, dropAmount: string)

  /** One row of the query's result. */
  datatype DigitSumRow = DigitSumRow(digitPosition: int, digitSum: string, invalidAmount: bool, oversizedAmount: bool)

  predicate IsDigit(c: char) { '0' <= c <= '9' }

  /** /^[0-9]+$/ */
  predicate IsDecimal(s: string) { s != "" && forall i :: 0 <= i < |s| ==> IsDigit(s[i]) }

  function DigitOf(c: char): nat
    requires IsDigit(c)
  {
    c as int - '0' as int
  }

  function DigitChar(d: nat): char
    requires d < 10
  {
    ('0' as int + d) as char
  }

  /** The number a string of digits denotes; leading zeros are allowed. */
  function Value(s: string): nat
    requires forall i :: 0 <= i < |s| ==> IsDigit(s[i])
  {
    if s == "" then 0 else 10 * Value(s[..|s| - 1]) + DigitOf(s[|s| - 1])
  }

  /** CAST(n AS TEXT). */
  function ToText(n: nat): (s: string)
    ensures IsDecimal(s) && Value(s) == n
  {
    if n < 10 then [DigitChar(n)]
    else
      var front := ToText(n / 10);
      var s := front + [DigitChar(n % 10)];
      assert s[..|s| - 1] == front;
      s
  }

  function Pow10(n: nat): nat { if n == 0 then 1 else 10 * Pow10(n - 1) }

  // ---------------------------------------------------------------- the query

  /** The amounts of the claimable sessions. */
  function Claimable(table: seq<SessionRow>): seq<string> {
    if table == [] then []
    else (if table[0].status == "claimable" then [table[0].dropAmount] else []) + Claimable(table[1..])
  }

  predicate Valid(amounts: seq<string>) { forall i :: 0 <= i < |amounts| ==> IsDecimal(amounts[i]) }

  predicate Fits(amounts: seq<string>) { forall i :: 0 <= i < |amounts| ==> |amounts[i]| <= MAX_DIGITS }

  /** The digit at a position counted from the right, from 1; 0 beyond the first digit. */
  function DigitAt(s: string, position: nat): nat
    requires IsDecimal(s) && position >= 1
  {
    if position <= |s| then DigitOf(s[|s| - position]) else 0
  }

  function DigitSum(amounts: seq<string>, position: nat): nat
    requires Valid(amounts) && position >= 1
  {
    if amounts == [] then 0 else DigitAt(amounts[0], position) + DigitSum(amounts[1..], position)
  }

  function MaxDigits(amounts: seq<string>): nat {
    if amounts == [] then 0
    else
      var rest := MaxDigits(amounts[1..]);
      if |amounts[0]| > rest then |amounts[0]| else rest
  }

  /** The rows of the positions up to n, in order. */
  function PositionRows(amounts: seq<string>, n: nat): (rows: seq<DigitSumRow>)
    requires Valid(amounts)
    ensures |rows| == n
  {
    if n == 0 then []
    else PositionRows(amounts, n - 1) + [DigitSumRow(n, ToText(DigitSum(amounts, n)), false, false)]
  }

  function QueryDigitSums(table: seq<SessionRow>): seq<DigitSumRow> {
    var amounts := Claimable(table);
    if !Valid(amounts) || !Fits(amounts) || amounts == []
    then [DigitSumRow(0, "0", !Valid(amounts), !Fits(amounts))]
    else PositionRows(amounts, MaxDigits(amounts))
  }

  // ---------------------------------------------------------------- the place-value loop

  /** The positions are 1, 2, ... after the rows of position 0, and every sum is a number. */
  predicate Contiguous(rows: seq<DigitSumRow>, expected: nat)
    decreases |rows|
  {
    rows == []
    || (&& !rows[0].oversizedAmount && !rows[0].invalidAmount
        && if rows[0].digitPosition == 0 then Contiguous(rows[1..], expected)
           else rows[0].digitPosition == expected && IsDecimal(rows[0].digitSum) && Contiguous(rows[1..], expected + 1))
  }

  function PlaceValue(rows: seq<DigitSumRow>, expected: nat): nat
    requires expected >= 1 && Contiguous(rows, expected)
    decreases |rows|
  {
    if rows == [] then 0
    else if rows[0].digitPosition == 0 then PlaceValue(rows[1..], expected)
    else Value(rows[0].digitSum) * Pow10(expected - 1) + PlaceValue(rows[1..], expected + 1)
  }

  /** The loop over whatever rows the database returned. */
  method CombineDigitSums(rows: seq<DigitSumRow>) returns (r: Result<nat>)
    ensures r.Ok? <==> Contiguous(rows, 1)
    ensures r.Ok? ==> r.value == PlaceValue(rows, 1)
    ensures |rows| > 0 && rows[0].oversizedAmount ==>
              r == Error("Claimable DropAmount exceeds the 50-digit storage limit.")
    ensures |rows| > 0 && rows[0].invalidAmount && !rows[0].oversizedAmount ==>
              r == Error("Claimable DropAmount must be a non-empty decimal string.")
  {
    var total, place, expectedPosition := 0, 1, 1;
    for i := 0 to |rows|
      invariant expectedPosition >= 1 && place == Pow10(expectedPosition - 1)
      invariant Contiguous(rows, 1) <==> Contiguous(rows[i..], expectedPosition)
      invariant Contiguous(rows, 1) ==> PlaceValue(rows, 1) == total + PlaceValue(rows[i..], expectedPosition)
      invariant i > 0 ==> !rows[0].oversizedAmount && !rows[0].invalidAmount
    {
      var row := rows[i];
      assert rows[i..][0] == row && rows[i..][1..] == rows[i + 1..];
      if row.oversizedAmount { return Error("Claimable DropAmount exceeds the 50-digit storage limit."); }
      if row.invalidAmount { return Error("Claimable DropAmount must be a non-empty decimal string."); }
      if row.digitPosition == 0 { continue; }
      if row.digitPosition != expectedPosition || !IsDecimal(row.digitSum) {
        return Error("Invalid claimable amount aggregate returned by the database.");
      }
      total := total + Value(row.digitSum) * place;
      place := place * 10;
      expectedPosition := expectedPosition + 1;
    }
    r := Ok(total);
  }

  // ---------------------------------------------------------------- sums by digit are sums

  function SumOfValues(amounts: seq<string>): nat
    requires Valid(amounts)
  {
    if amounts == [] then 0 else Value(amounts[0]) + SumOfValues(amounts[1..])
  }

  /** The digit sums of the first n positions at their place values. */
  function Positional(amounts: seq<string>, n: nat): nat
    requires Valid(amounts)
  {
    if n == 0 then 0 else Positional(amounts, n - 1) + DigitSum(amounts, n) * Pow10(n - 1)
  }

  /** The digits of one string at their place values. */
  function Digits(s: string, n: nat): nat
    requires IsDecimal(s)
  {
    if n == 0 then 0 else Digits(s, n - 1) + DigitAt(s, n) * Pow10(n - 1)
  }

  lemma ShiftStep(low: nat, first: nat, rest: nat, digit: nat, place: nat)
    requires low == first + 10 * rest
    ensures low + digit * (10 * place) == first + 10 * (rest + digit * place)
  {}

  /** Dropping the last digit shifts the others down one position. */
  lemma {:induction false} DigitsShift(s: string, n: nat)
    requires IsDecimal(s) && |s| > 1
    ensures Digits(s, n + 1) == DigitAt(s, 1) + 10 * Digits(s[..|s| - 1], n)
  {
    var front := s[..|s| - 1];
    if n == 0 {
      assert Digits(s, 1) == Digits(s, 0) + DigitAt(s, 1) * Pow10(0);
    } else {
      DigitsShift(s, n - 1);
      assert DigitAt(s, n + 1) == DigitAt(front, n);
      ShiftStep(Digits(s, n), DigitAt(s, 1), Digits(front, n - 1), DigitAt(front, n), Pow10(n - 1));
    }
  }

  lemma {:induction false} ZeroBeyond(s: string, n: nat)
    requires IsDecimal(s) && n >= |s|
    ensures Digits(s, n) == Digits(s, |s|)
  {
    if n > |s| {
      ZeroBeyond(s, n - 1);
      assert DigitAt(s, n) == 0;
    }
  }

  lemma {:induction false} DigitsAreValue(s: string)
    requires IsDecimal(s)
    ensures Digits(s, |s|) == Value(s)
  {
    var front := s[..|s| - 1];
    if |s| == 1 {
      assert Digits(s, 1) == Digits(s, 0) + DigitAt(s, 1) * Pow10(0);
      assert Value(front) == 0;
    } else {
      DigitsAreValue(front);
      DigitsShift(s, |s| - 1);
    }
  }

  lemma Distribute(a: nat, b: nat, place: nat)
    ensures (a + b) * place == a * place + b * place
  {}

  /** A column sum splits into the first string and the rest. */
  lemma {:induction false} PositionalSplits(amounts: seq<string>, n: nat)
    requires Valid(amounts) && amounts != []
    ensures Positional(amounts, n) == Digits(amounts[0], n) + Positional(amounts[1..], n)
  {
    if n > 0 {
      PositionalSplits(amounts, n - 1);
      Distribute(DigitAt(amounts[0], n), DigitSum(amounts[1..], n), Pow10(n - 1));
    }
  }

  lemma {:induction false} PositionalNothing(n: nat)
    ensures Positional([], n) == 0
  {
    if n > 0 { PositionalNothing(n - 1); }
  }

  /** Adding digit by digit, up to the longest string or beyond, adds the values. */
  lemma {:induction false} PositionalIsSum(amounts: seq<string>, n: nat)
    requires Valid(amounts) && n >= MaxDigits(amounts)
    ensures Positional(amounts, n) == SumOfValues(amounts)
  {
    if amounts == [] {
      PositionalNothing(n);
    } else {
      PositionalSplits(amounts, n);
      ZeroBeyond(amounts[0], n);
      DigitsAreValue(amounts[0]);
      PositionalIsSum(amounts[1..], n);
    }
  }

  lemma {:induction false} RowsAppend(rows: seq<DigitSumRow>, row: DigitSumRow, expected: nat)
    requires expected >= 1 && Contiguous(rows, expected) && (forall i :: 0 <= i < |rows| ==> rows[i].digitPosition != 0)
    requires !row.oversizedAmount && !row.invalidAmount && row.digitPosition == expected + |rows| && IsDecimal(row.digitSum)
    ensures Contiguous(rows + [row], expected)
    ensures PlaceValue(rows + [row], expected) == PlaceValue(rows, expected) + Value(row.digitSum) * Pow10(expected + |rows| - 1)
    decreases |rows|
  {
    var all := rows + [row];
    if rows == [] {
      assert all[1..] == [];
    } else {
      assert all[1..] == rows[1..] + [row];
      RowsAppend(rows[1..], row, expected + 1);
    }
  }

  /** The query's rows are contiguous from 1 and combine to the positional sum. */
  lemma {:induction false} RowsArePositional(amounts: seq<string>, n: nat)
    requires Valid(amounts)
    ensures var rows := PositionRows(amounts, n);
            && (forall i :: 0 <= i < |rows| ==> rows[i].digitPosition == i + 1)
            && Contiguous(rows, 1) && PlaceValue(rows, 1) == Positional(amounts, n)
  {
    if n > 0 {
      RowsArePositional(amounts, n - 1);
      RowsAppend(PositionRows(amounts, n - 1), DigitSumRow(n, ToText(DigitSum(amounts, n)), false, false), 1);
    }
  }

  /** getClaimableAmount: the sum of the claimable amounts, whatever their number and length up to
      50 digits; anything else in a claimable row is an error. */
  method GetClaimableAmount(table: seq<SessionRow>) returns (r: Result<nat>)
    ensures r.Ok? <==> Valid(Claimable(table)) && Fits(Claimable(table))
    ensures r.Ok? ==> r.value == SumOfValues(Claimable(table))
    ensures !Fits(Claimable(table)) ==> r == Error("Claimable DropAmount exceeds the 50-digit storage limit.")
    ensures Fits(Claimable(table)) && !Valid(Claimable(table)) ==>
              r == Error("Claimable DropAmount must be a non-empty decimal string.")
  {
    var rows := QueryDigitSums(table);
    r := CombineDigitSums(rows);
    ghost var amounts := Claimable(table);
    if Valid(amounts) && Fits(amounts) && amounts != [] {
      RowsArePositional(amounts, MaxDigits(amounts));
      PositionalIsSum(amounts, MaxDigits(amounts));
    }
  }

  lemma {:induction false} SumSplits(a: seq<string>, b: seq<string>)
    requires Valid(a) && Valid(b)
    ensures Valid(a + b) && SumOfValues(a + b) == SumOfValues(a) + SumOfValues(b)
  {
    if a == [] {
      assert a + b == b;
    } else {
      assert (a + b)[1..] == a[1..] + b;
      SumSplits(a[1..], b);
    }
  }

  lemma SameMultiset(a: seq<string>, b: seq<string>)
    requires multiset(a) == multiset(b) && Valid(a)
    ensures |a| == |b| && Valid(b)
  {
    assert |multiset(a)| == |a| && |multiset(b)| == |b|;
    forall i | 0 <= i < |b| ensures IsDecimal(b[i]) { assert b[i] in multiset(b); }
  }

  function Without(b: seq<string>, i: nat): seq<string>
    requires i < |b|
  {
    b[..i] + b[i + 1..]
  }

  lemma WithoutIs(b: seq<string>, i: nat)
    requires i < |b|
    ensures multiset(b) == multiset{b[i]} + multiset(Without(b, i))
  {
    assert b == b[..i] + [b[i]] + b[i + 1..];
  }

  lemma Cancel(x: string, a: multiset<string>, b: multiset<string>)
    requires multiset{x} + a == multiset{x} + b
    ensures a == b
  {
    forall y: string ensures a[y] == b[y] { assert (multiset{x} + a)[y] == (multiset{x} + b)[y]; }
  }

  lemma SumWithout(b: seq<string>, i: nat)
    requires i < |b| && Valid(b)
    ensures SumOfValues(b) == Value(b[i]) + SumOfValues(Without(b, i))
  {
    SumSplits(b[..i], b[i + 1..]);
    SumSplits(b[..i], b[i..]);
    assert b == b[..i] + b[i..] && b[i..][1..] == b[i + 1..];
  }

  /** The sum does not depend on the order of the rows, so the aggregate may visit them in any. */
  lemma {:induction false} SumIgnoresOrder(a: seq<string>, b: seq<string>)
    requires Valid(a) && multiset(a) == multiset(b)
    ensures Valid(b) && SumOfValues(a) == SumOfValues(b)
  {
    SameMultiset(a, b);
    if a != [] {
      assert a[0] in multiset(b);
      var i :| 0 <= i < |b| && b[i] == a[0];
      WithoutIs(a, 0);
      WithoutIs(b, i);
      Cancel(a[0], multiset(Without(a, 0)), multiset(Without(b, i)));
      SumWithout(a, 0);
      SumWithout(b, i);
      SumIgnoresOrder(Without(a, 0), Without(b, i));
    }
  }
}
