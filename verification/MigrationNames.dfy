/** Which number a migration file goes by, told from the numbers people write. */
module MigrationNames {
  import opened Migrations
  import Text

  /** A number below ten as a digit, and any number in decimal, without leading zeros. */
  function Digit(d: nat): char
    requires d < 10
  {
    '0' + d as char
  }

  function Decimal(n: nat): string
  {
    if n < 10 then [Digit(n)] else Decimal(n / 10) + [Digit(n % 10)]
  }

  predicate AllDigits(s: string)
  {
    forall i :: 0 <= i < |s| ==> '0' <= s[i] <= '9'
  }

  lemma {:induction false} DecimalDigits(n: nat)
    ensures Decimal(n) != "" && AllDigits(Decimal(n))
  {
    if n >= 10 {
      DecimalDigits(n / 10);
    }
  }

  lemma {:induction false} DigitsThen(a: string, b: string, acc: int)
    requires AllDigits(a)
    ensures DigitsValue(a + b, acc) == DigitsValue(b, DigitsValue(a, acc))
  {
    if a == "" {
      assert a + b == b;
    } else {
      assert (a + b)[1..] == a[1..] + b && (a + b)[0] == a[0];
      DigitsThen(a[1..], b, acc * 10 + (a[0] - '0') as int);
    }
  }

  lemma OneDigit(d: nat, acc: int)
    requires d < 10
    ensures DigitsValue([Digit(d)], acc) == acc * 10 + d
  {
    assert [Digit(d)][1..] == "";
    assert ('0' + d as char) as int == '0' as int + d;
  }

  lemma {:induction false} ValueOfDecimal(n: nat)
    ensures DigitsValue(Decimal(n), 0) == n
  {
    if n >= 10 {
      ValueOfDecimal(n / 10);
      DecimalDigits(n / 10);
      DigitsThen(Decimal(n / 10), [Digit(n % 10)], 0);
      OneDigit(n % 10, n / 10);
    } else {
      OneDigit(n, 0);
    }
  }

  lemma {:induction false} LeadingZeros(zeros: string, s: string)
    requires forall i :: 0 <= i < |zeros| ==> zeros[i] == '0'
    ensures DigitsValue(zeros + s, 0) == DigitsValue(s, 0)
  {
    if zeros == "" {
      assert zeros + s == s;
    } else {
      assert (zeros + s)[1..] == zeros[1..] + s && (zeros + s)[0] == '0';
      LeadingZeros(zeros[1..], s);
    }
  }

  lemma FirstPiece(stem: string, rest: string)
    requires '_' !in stem
    ensures Text.Split(stem + "_" + rest, '_')[0] == stem
  {
    Text.SplitUnbroken(stem, '_');
    Text.SplitSnoc(stem, '_', '_');
    assert stem + "_" == stem + ['_'];
    assert Text.Split(stem + "_", '_') == [stem, ""];
    Text.SplitAppend(stem + "_", rest, '_');
  }

  /** A file named by a number, padded with zeros or not, an underscore and anything else, goes by that number. */
  lemma NumberIs(zeros: string, n: nat, rest: string)
    requires forall i :: 0 <= i < |zeros| ==> zeros[i] == '0'
    ensures Number(zeros + Decimal(n) + "_" + rest) == n
  {
    var stem := zeros + Decimal(n);
    DecimalDigits(n);
    assert AllDigits(stem) && stem != "";
    FirstPiece(stem, rest);
    LeadingZeros(zeros, Decimal(n));
    ValueOfDecimal(n);
    assert !Text.IsSpace(stem[0]);
  }

  /** A sign in front counts. */
  lemma NegativeNumberIs(n: nat, rest: string)
    ensures Number("-" + Decimal(n) + "_" + rest) + n == 0
  {
    var stem := "-" + Decimal(n);
    DecimalDigits(n);
    FirstPiece(stem, rest);
    ValueOfDecimal(n);
    assert stem[1..] == Decimal(n);
  }

  lemma {:induction false} JoinStarts(pieces: seq<string>)
    requires |pieces| >= 1
    ensures pieces[0] <= Text.Join(pieces, '_')
    ensures pieces[0] == "" && |pieces| > 1 ==> Text.Join(pieces, '_') != "" && Text.Join(pieces, '_')[0] == '_'
  {
    if |pieces| > 1 {
      JoinStarts(pieces[..|pieces| - 1]);
    }
  }

  /** A file whose name starts with a letter goes by zero. */
  lemma NoNumberIsZero(name: string)
    requires name != "" && 'a' <= name[0] <= 'z'
    ensures Number(name) == 0
  {
    Text.SplitJoins(name, '_');
    var pieces := Text.Split(name, '_');
    JoinStarts(pieces);
  }
}
