/** The user profile the full rule engine reads off a directory name: the base name of
    the working directory's parent (`dirname(abspath('.'))`), not the data directory the
    user picked. It holds a gender marker and the height and weight written as
    `<digits>_FT` and `<digits>_LB`. */
module Profile {
  import opened Wrappers
  import opened Text
  import opened JsValues

  datatype Gender = Male | Female

  /** `'male' if 'MALE' in dir_name else 'female' if 'FEMALE' in dir_name else None` */
  function GenderOf(dir: string): Option<Gender> {
    if Contains(dir, "MALE") then Some(Male)
    else if Contains(dir, "FEMALE") then Some(Female)
    else None
  }

  /** "FEMALE" contains "MALE", so the female branch is never taken: a directory marked
      FEMALE is read as male. */
  lemma NeverFemale(dir: string)
    ensures GenderOf(dir) != Some(Female)
    ensures Contains(dir, "FEMALE") ==> GenderOf(dir) == Some(Male)
  {
    if Contains(dir, "FEMALE") {
      FemaleContainsMale(dir);
    }
  }

  predicate StartsWith(s: string, t: string) {
    |t| <= |s| && s[..|t|] == t
  }

  /** `re.search(r'(\d+)' + suffix, s)` read with `int(m.group(1))`: the leftmost run of
      decimal digits that is directly followed by the suffix. The suffix starts with a
      non-digit, so a run either matches as a whole or not at all, and the search resumes
      after it. */
  function NumberBefore(s: string, suffix: string): Option<nat>
    decreases |s|
  {
    if |s| == 0 then None
    else if !IsDigit(s[0]) then NumberBefore(s[1..], suffix)
    else
      var k := DigitRun(s);
      if StartsWith(s[k..], suffix) then Some(DigitsValue(s[..k]))
      else NumberBefore(s[k..], suffix)
  }

  lemma {:induction false} DigitRunBeforeNonDigit(d: string, t: string)
    requires AllDigits(d)
    requires |t| == 0 || !IsDigit(t[0])
    ensures DigitRun(d + t) == |d|
  {
    if |d| > 0 {
      assert (d + t)[1..] == d[1..] + t;
      DigitRunBeforeNonDigit(d[1..], t);
    } else {
      assert d + t == t;
    }
  }

  /** Text without digits before the number changes nothing. */
  lemma {:induction false} SkipNoDigits(prefix: string, s: string, suffix: string)
    requires NoDigits(prefix)
    ensures NumberBefore(prefix + s, suffix) == NumberBefore(s, suffix)
    decreases |prefix|
  {
    if |prefix| > 0 {
      assert (prefix + s)[1..] == prefix[1..] + s;
      SkipNoDigits(prefix[1..], s, suffix);
    } else {
      assert prefix + s == s;
    }
  }

  /** A run of digits not followed by the suffix is passed over as a whole. */
  lemma SkipRun(d: string, t: string, suffix: string)
    requires |d| > 0 && AllDigits(d)
    requires |t| > 0 && !IsDigit(t[0]) && !StartsWith(t, suffix)
    ensures NumberBefore(d + t, suffix) == NumberBefore(t, suffix)
  {
    DigitRunBeforeNonDigit(d, t);
    assert (d + t)[|d|..] == t;
  }

  /** A number written in decimal right before the suffix is read back, whatever
      follows. */
  lemma FindsAtStart(n: nat, suffix: string, rest: string)
    requires |suffix| > 0 && !IsDigit(suffix[0])
    ensures NumberBefore(NatText(n) + suffix + rest, suffix) == Some(n)
  {
    var d := NatText(n);
    var s := d + suffix + rest;
    assert s == d + (suffix + rest);
    DigitRunBeforeNonDigit(d, suffix + rest);
    assert s[..|d|] == d;
    assert s[|d|..] == suffix + rest;
    assert (suffix + rest)[..|suffix|] == suffix;
    DigitsValueOfNatText(n);
  }

  /** The round trip: a number written before the suffix, after text without digits, is
      the number read. */
  lemma NumberBeforeFinds(prefix: string, n: nat, suffix: string, rest: string)
    requires NoDigits(prefix)
    requires |suffix| > 0 && !IsDigit(suffix[0])
    ensures NumberBefore(prefix + NatText(n) + suffix + rest, suffix) == Some(n)
  {
    assert prefix + NatText(n) + suffix + rest == prefix + (NatText(n) + suffix + rest);
    SkipNoDigits(prefix, NatText(n) + suffix + rest, suffix);
    FindsAtStart(n, suffix, rest);
  }

  /** Without the suffix in the text there is nothing to read. */
  lemma {:induction false} NumberBeforeNeedsSuffix(s: string, suffix: string)
    requires !Contains(s, suffix)
    ensures NumberBefore(s, suffix) == None
    decreases |s|
  {
    if |s| > 0 {
      if !IsDigit(s[0]) {
        NumberBeforeNeedsSuffix(s[1..], suffix);
      } else {
        var k := DigitRun(s);
        if StartsWith(s[k..], suffix) {
          ContainsInSuffix(s, suffix, k);
          assert false;
        }
        ContainsSuffixes(s, suffix, k);
        NumberBeforeNeedsSuffix(s[k..], suffix);
      }
    }
  }

  lemma {:induction false} ContainsSuffixes(s: string, t: string, k: nat)
    requires k <= |s| && !Contains(s, t)
    ensures !Contains(s[k..], t)
  {
    if Contains(s[k..], t) {
      ContainsInSuffix(s, t, k);
    }
  }

  /** The profile: gender, height in feet and weight in pounds, each where present. */
  datatype UserProfile = UserProfile(gender: Option<Gender>, heightFt: Option<nat>, weightLb: Option<nat>)

  function ProfileOf(dir: string): UserProfile {
    UserProfile(GenderOf(dir), NumberBefore(dir, "_FT"), NumberBefore(dir, "_LB"))
  }

  /** `weight_lb * 703 / (height_in * height_in) > 25` with `height_in = height_ft * 12`;
      a height of 0 feet divides by zero. */
  function BmiAbove25(heightFt: nat, weightLb: nat): Result<bool> {
    var inches := heightFt * 12;
    if inches * inches == 0 then Raise(ZeroDivisionError)
    else Ok((weightLb * 703) as real / (inches * inches) as real > 25.0)
  }

  /** The BMI test raises exactly for a zero height, and otherwise holds exactly when
      703 times the weight exceeds 25 times the squared height in inches. */
  lemma BmiInWholeNumbers(heightFt: nat, weightLb: nat)
    ensures heightFt == 0 <==> BmiAbove25(heightFt, weightLb) == Raise(ZeroDivisionError)
    ensures heightFt > 0 ==>
      BmiAbove25(heightFt, weightLb) == Ok(weightLb * 703 > 25 * ((heightFt * 12) * (heightFt * 12)))
  {
    var inches := heightFt * 12;
    if heightFt > 0 {
      var sq := inches * inches;
      assert sq > 0 by {
        PositiveSquare(inches);
      }
      QuotientAbove((weightLb * 703) as real, sq as real, 25.0);
      assert 25.0 * (sq as real) == (25 * sq) as real;
    }
  }

  lemma PositiveSquare(n: int)
    requires n > 0
    ensures n * n > 0
  {
  }

  lemma QuotientAbove(x: real, y: real, c: real)
    requires y > 0.0
    ensures x / y > c <==> x > c * y
  {
    var q := x / y;
    assert x == q * y;
    if q > c {
      assert q * y > c * y;
    } else {
      assert q * y <= c * y;
    }
  }

  /** A directory naming the height as in "..._5_FT..." yields it. */
  lemma ProfileReadsHeight(prefix: string, ft: nat, rest: string)
    requires NoDigits(prefix)
    ensures ProfileOf(prefix + NatText(ft) + "_FT" + rest).heightFt == Some(ft)
  {
    NumberBeforeFinds(prefix, ft, "_FT", rest);
  }

  /** A directory naming the height and then the weight, as in "..._5_FT_180_LB...",
      yields the weight: the height's digits are passed over. */
  lemma ProfileReadsWeight(prefix: string, ft: nat, lb: nat, rest: string)
    requires NoDigits(prefix)
    ensures ProfileOf(prefix + NatText(ft) + "_FT_" + NatText(lb) + "_LB" + rest).weightLb == Some(lb)
  {
    var tail := NatText(lb) + "_LB" + rest;
    var t := "_FT_" + tail;
    assert prefix + NatText(ft) + "_FT_" + NatText(lb) + "_LB" + rest == prefix + (NatText(ft) + t);
    SkipNoDigits(prefix, NatText(ft) + t, "_LB");
    assert t[..3] == "_FT";
    SkipRun(NatText(ft), t, "_LB");
    assert NoDigits("_FT_");
    SkipNoDigits("_FT_", tail, "_LB");
    FindsAtStart(lb, "_LB", rest);
  }
}
