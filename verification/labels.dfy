/** The two text conversions of the Python script: the total store count read
    from the first run of digits in a label (`get_total_store_count`), and the
    sales figure read from a currency text such as "¥2,000"
    (`create_api_post_data`). */
module Labels {
  import opened Results
  import opened Decimal

  const Yen: char := '¥'
  const Comma: char := ','

  ghost predicate NoDigits(s: string) {
    forall i :: 0 <= i < |s| ==> !IsDigit(s[i])
  }

  /** `s[i..j]` is the first maximal run of digits of `s`: what
      `re.findall(r'\d+', s)[0]` returns. */
  ghost predicate IsFirstDigitRun(s: string, i: int, j: int) {
    && 0 <= i < j <= |s|
    && NoDigits(s[..i])
    && AllDigits(s[i..j])
    && (j == |s| || !IsDigit(s[j]))
  }

  /** There is at most one first run of digits. */
  lemma FirstDigitRunUnique(s: string, i: int, j: int, i': int, j': int)
    requires IsFirstDigitRun(s, i, j) && IsFirstDigitRun(s, i', j')
    ensures i == i' && j == j'
  {
    RunShape(s, i, j);
    RunShape(s, i', j');
    assert IsDigit(s[i]) && IsDigit(s[i']);
    assert i == i';
    assert j == |s| || !IsDigit(s[j]);
    assert j' == |s| || !IsDigit(s[j']);
  }

  /** A first run is a digit preceded only by non-digits, followed by digits
      up to its end. */
  lemma RunShape(s: string, i: int, j: int)
    requires IsFirstDigitRun(s, i, j)
    ensures forall k :: 0 <= k < i ==> !IsDigit(s[k])
    ensures forall k :: i <= k < j ==> IsDigit(s[k])
  {
    forall k | 0 <= k < i
      ensures !IsDigit(s[k])
    {
      assert s[..i][k] == s[k];
    }
    forall k | i <= k < j
      ensures IsDigit(s[k])
    {
      assert s[i..j][k - i] == s[k];
    }
  }

  /** The end of the run of digits that starts at `j`. */
  function RunEnd(s: string, j: nat): (e: nat)
    requires j <= |s|
    ensures j <= e <= |s|
    ensures forall k :: j <= k < e ==> IsDigit(s[k])
    ensures e == |s| || !IsDigit(s[e])
    decreases |s| - j
  {
    if j < |s| && IsDigit(s[j]) then RunEnd(s, j + 1) else j
  }

  /** The bounds of the first run of digits at or after `i`. */
  function FindDigitRunFrom(s: string, i: nat): (r: Option<(nat, nat)>)
    requires i <= |s|
    requires NoDigits(s[..i])
    ensures r.None? <==> NoDigits(s)
    ensures r.Some? ==> IsFirstDigitRun(s, r.value.0, r.value.1)
    decreases |s| - i
  {
    if i == |s| then
      assert s[..i] == s;
      None
    else if IsDigit(s[i]) then
      var e := RunEnd(s, i + 1);
      assert AllDigits(s[i..e]) by {
        forall k | 0 <= k < e - i
          ensures IsDigit(s[i..e][k])
        {
          assert s[i..e][k] == s[i + k];
        }
      }
      assert !NoDigits(s) by {
        assert IsDigit(s[i]);
      }
      Some((i, e))
    else
      assert s[..i + 1] == s[..i] + [s[i]];
      FindDigitRunFrom(s, i + 1)
  }

  function FindDigitRun(s: string): (r: Option<(nat, nat)>)
    ensures r.None? <==> NoDigits(s)
    ensures r.Some? ==> IsFirstDigitRun(s, r.value.0, r.value.1)
  {
    FindDigitRunFrom(s, 0)
  }

  /** `int(re.findall(r'\d+', text)[0])`: the value of the first run of
      digits, or an IndexError when the label has no digit at all. */
  function ParseTotalCount(text: string): (r: Result<nat>)
    ensures r == Failure(NoDigitRun) <==> NoDigits(text)
    ensures forall i, j :: IsFirstDigitRun(text, i, j) ==> r == Success(DigitsValue(text[i..j]))
  {
    match FindDigitRun(text)
    case None => Failure(NoDigitRun)
    case Some((i, j)) =>
      assert forall i', j' :: IsFirstDigitRun(text, i', j') ==> i' == i && j' == j by {
        forall i', j' | IsFirstDigitRun(text, i', j')
          ensures i' == i && j' == j
        {
          FirstDigitRunUnique(text, i, j, i', j');
        }
      }
      Success(DigitsValue(text[i..j]))
  }

  /** `re.sub('¥|,', '', text)`: every yen sign and comma removed. */
  function StripYenAndCommas(s: string): (r: string)
    ensures Yen !in r && Comma !in r
    ensures |r| <= |s|
    ensures Yen !in s && Comma !in s ==> r == s
  {
    if |s| == 0 then ""
    else
      var rest := StripYenAndCommas(s[..|s| - 1]);
      var c := s[|s| - 1];
      assert s == s[..|s| - 1] + [c];
      if c == Yen || c == Comma then rest else rest + [c]
  }

  /** On a single character: a yen sign or a comma is deleted, any other
      character is kept. */
  lemma StripChar(c: char)
    ensures StripYenAndCommas([c]) == if c == Yen || c == Comma then "" else [c]
  {
    assert [c][..0] == "";
  }

  /** Removal works character by character, so it distributes over
      concatenation: together with `StripChar` this determines the function
      completely. */
  lemma {:induction false} StripConcat(a: string, b: string)
    ensures StripYenAndCommas(a + b) == StripYenAndCommas(a) + StripYenAndCommas(b)
    decreases |b|
  {
    if |b| > 0 {
      var b' := b[..|b| - 1];
      assert (a + b)[..|a + b| - 1] == a + b';
      StripConcat(a, b');
    } else {
      assert a + b == a;
    }
  }

  /** Stripping twice is stripping once. */
  lemma StripIdempotent(s: string)
    ensures StripYenAndCommas(StripYenAndCommas(s)) == StripYenAndCommas(s)
  {
  }

  /** The sales figure: `int(re.sub('¥|,', '', text))`. */
  function ParseSales(text: string): (r: Result<nat>)
    ensures r.Success? <==> |StripYenAndCommas(text)| > 0 && AllDigits(StripYenAndCommas(text))
  {
    ParseInt(StripYenAndCommas(text))
  }

  /** Digits grouped by three from the right with commas, as the app shows
      sales: "2000" becomes "2,000". */
  function GroupThousands(d: string): (g: string)
    requires AllDigits(d)
    ensures forall c :: c in g ==> IsDigit(c) || c == Comma
  {
    if |d| <= 3 then d else GroupThousands(d[..|d| - 3]) + [Comma] + d[|d| - 3..]
  }

  /** The currency text the app displays for a sales amount. */
  function FormatYen(n: nat): (s: string)
    ensures |s| > 1 && s[0] == Yen
  {
    [Yen] + GroupThousands(Show(n))
  }

  lemma {:induction false} StripGrouped(d: string)
    requires AllDigits(d)
    ensures StripYenAndCommas(GroupThousands(d)) == d
    decreases |d|
  {
    if |d| > 3 {
      var hi := d[..|d| - 3];
      var lo := d[|d| - 3..];
      assert AllDigits(hi);
      StripGrouped(hi);
      StripConcat(GroupThousands(hi) + [Comma], lo);
      StripConcat(GroupThousands(hi), [Comma]);
      assert Yen !in lo && Comma !in lo by {
        assert forall c :: c in lo ==> IsDigit(c);
      }
      assert hi + lo == d;
    } else {
      assert Yen !in d && Comma !in d by {
        assert forall c :: c in d ==> IsDigit(c);
      }
    }
  }

  /** Round trip: the displayed sales text of any amount parses back to
      that amount ("¥2,000" gives 2000). */
  lemma SalesRoundTrip(n: nat)
    ensures ParseSales(FormatYen(n)) == Success(n)
  {
    var d := Show(n);
    assert StripYenAndCommas([Yen]) == "";
    StripConcat([Yen], GroupThousands(d));
    StripGrouped(d);
    assert FormatYen(n) == [Yen] + GroupThousands(d);
    assert StripYenAndCommas(FormatYen(n)) == d;
    ParseShow(n);
  }

  lemma SalesExample2000()
    ensures ParseSales("¥2,000") == Success(2000)
  {
    assert Show(2000) == "2000" by {
      assert Show(2) == "2" && Show(20) == "20" && Show(200) == "200";
    }
    assert FormatYen(2000) == "¥2,000";
    SalesRoundTrip(2000);
  }

  lemma SalesExample100()
    ensures ParseSales("¥100") == Success(100)
  {
    assert Show(100) == "100" by {
      assert Show(1) == "1" && Show(10) == "10";
    }
    assert FormatYen(100) == "¥100";
    SalesRoundTrip(100);
  }

  lemma SalesExampleZero()
    ensures ParseSales("¥0") == Success(0)
  {
    assert FormatYen(0) == "¥0";
    SalesRoundTrip(0);
  }

  /** A yen sign alone leaves nothing to convert. */
  lemma SalesExampleEmpty()
    ensures ParseSales("¥") == Failure(NotAnInteger(""))
  {
    assert StripYenAndCommas("¥") == "";
  }

  lemma TotalCountExample()
    ensures ParseTotalCount("12 stores") == Success(12)
  {
    var s := "12 stores";
    assert IsFirstDigitRun(s, 0, 2) by {
      assert s[..0] == "";
      assert s[0..2] == "12";
    }
    assert s[0..2] == "12";
    assert DigitsValue("12") == 12 by {
      assert "12"[..1] == "1";
    }
  }
}
