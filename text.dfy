/** Text as the Python reports and recommendations build it. A line is a sequence of
    literal pieces, fixed phrases and numbers; a number keeps its real value and the
    way it is formatted, so floating-point formatting itself stays outside the model. */
module Text {
  import opened Wording

  /** How a number is turned into text: as it is, through `int(...)`, through
      `abs(round(...))`, or as a `%Y-%m-%d` date (the number counts days). */
  datatype Format = AsIs | Truncated | AbsRounded | IsoDate

  /** A piece of a line: literal text, a fixed phrase (its text is `Words(p)`), a phrase
      as a sentence (`f"{words.capitalize()}."`), or a number. */
  datatype Piece = Lit(s: string) | Said(p: Phrase) | Sentence(p: Phrase) | Value(x: real, format: Format)

  /** The text of a piece that is not a number. */
  function Render(piece: Piece): string
    requires !piece.Value?
  {
    match piece
    case Lit(s) => s
    case Said(p) => Words(p)
    case Sentence(p) => Capitalize(Words(p)) + "."
  }

  type Line = seq<Piece>

  /** A line of literal text. */
  function L(s: string): Line {
    [Lit(s)]
  }

  /** A line holding one fixed phrase. */
  function S(p: Phrase): Line {
    [Said(p)]
  }

  lemma AppendAssociative<T>(a: seq<T>, b: seq<T>, c: seq<T>)
    ensures (a + b) + c == a + (b + c)
  {
  }

  /** The line begins with the phrase. */
  predicate Opens(line: Line, p: Phrase) {
    |line| > 0 && line[0] == Said(p)
  }

  /** The number of lines that begin with the phrase. */
  function CountOpening(lines: seq<Line>, p: Phrase): (n: nat)
    ensures n <= |lines|
  {
    if |lines| == 0 then 0 else (if Opens(lines[0], p) then 1 else 0) + CountOpening(lines[1..], p)
  }

  lemma {:induction false} CountOpeningAppend(a: seq<Line>, b: seq<Line>, p: Phrase)
    ensures CountOpening(a + b, p) == CountOpening(a, p) + CountOpening(b, p)
  {
    if |a| > 0 {
      assert (a + b)[1..] == a[1..] + b;
      CountOpeningAppend(a[1..], b, p);
    } else {
      assert a + b == b;
    }
  }

  /** A single line counts once for the phrase it opens with, and not for any other. */
  lemma CountOpeningOne(line: Line)
    ensures forall p :: CountOpening([line], p) == (if Opens(line, p) then 1 else 0)
  {
    assert [line][1..] == [];
  }

  /** Appending one line counts it when it opens with the phrase. */
  lemma CountOpeningPush(lines: seq<Line>, line: Line, p: Phrase)
    ensures CountOpening(lines + [line], p) == CountOpening(lines, p) + (if Opens(line, p) then 1 else 0)
  {
    CountOpeningAppend(lines, [line], p);
  }

  /** An integer counter such as the `i` of `f"{i}. {rec}"`. */
  function Int(i: int): Piece {
    Value(i as real, Truncated)
  }

  /** `c * n` */
  function Repeat(c: char, n: nat): (r: string)
    ensures |r| == n
    ensures forall i :: 0 <= i < n ==> r[i] == c
  {
    if n == 0 then "" else Repeat(c, n - 1) + [c]
  }

  /** `sep.join(lines)` */
  function Join(lines: seq<Line>, sep: string): Line {
    if |lines| == 0 then []
    else if |lines| == 1 then lines[0]
    else lines[0] + [Lit(sep)] + Join(lines[1..], sep)
  }

  predicate EndsWith(s: Line, t: Line) {
    |t| <= |s| && s[|s| - |t|..] == t
  }

  /** The joined text begins with the first line. */
  lemma JoinStartsWithFirst(lines: seq<Line>, sep: string)
    requires |lines| > 0
    ensures lines[0] <= Join(lines, sep)
  {
  }

  /** The joined text ends with the last line. */
  lemma {:induction false} JoinEndsWithLast(lines: seq<Line>, sep: string)
    requires |lines| > 0
    ensures EndsWith(Join(lines, sep), lines[|lines| - 1])
  {
    if |lines| > 1 {
      JoinEndsWithLast(lines[1..], sep);
      var rest := Join(lines[1..], sep);
      var j := Join(lines, sep);
      assert j == (lines[0] + [Lit(sep)]) + rest;
      assert lines[1..][|lines[1..]| - 1] == lines[|lines| - 1];
      assert j[|j| - |rest|..] == rest;
      var last := lines[|lines| - 1];
      assert j[|j| - |last|..] == rest[|rest| - |last|..];
    }
  }

  /** Joining n lines puts n - 1 separators between them. */
  lemma {:induction false} JoinLength(lines: seq<Line>, sep: string)
    requires |lines| > 0
    ensures |Join(lines, sep)| == SumLengths(lines) + |lines| - 1
  {
    if |lines| > 1 {
      JoinLength(lines[1..], sep);
    }
  }

  function SumLengths(lines: seq<Line>): nat {
    if |lines| == 0 then 0 else |lines[0]| + SumLengths(lines[1..])
  }

  // ----- Python string operations -----

  /** `t in s` for strings: t occurs in s as a contiguous substring. */
  predicate Contains(s: string, t: string) {
    (|t| <= |s| && s[..|t|] == t) || (|s| > 0 && Contains(s[1..], t))
  }

  lemma {:induction false} ContainsInSuffix(s: string, t: string, k: nat)
    requires k <= |s| && Contains(s[k..], t)
    ensures Contains(s, t)
    decreases k
  {
    if k > 0 {
      assert s[k..] == s[1..][k - 1..];
      ContainsInSuffix(s[1..], t, k - 1);
    }
  }

  /** Every text that contains "FEMALE" contains "MALE". */
  lemma {:induction false} FemaleContainsMale(s: string)
    requires Contains(s, "FEMALE")
    ensures Contains(s, "MALE")
  {
    if |"FEMALE"| <= |s| && s[..6] == "FEMALE" {
      assert s[2..][..4] == "MALE";
      ContainsInSuffix(s, "MALE", 2);
    } else {
      FemaleContainsMale(s[1..]);
    }
  }

  /** `s.split(c)` */
  function Split(s: string, c: char): (parts: seq<string>)
    ensures |parts| >= 1
  {
    if |s| == 0 then [""]
    else
      var rest := Split(s[1..], c);
      if s[0] == c then [""] + rest else [[s[0]] + rest[0]] + rest[1..]
  }

  lemma {:induction false} SplitWithout(s: string, c: char)
    requires c !in s
    ensures Split(s, c) == [s]
  {
    if |s| > 0 {
      SplitWithout(s[1..], c);
      assert [s[0]] + s[1..] == s;
    }
  }

  /** Splitting cuts at the first separator. */
  lemma {:induction false} SplitAtFirst(a: string, c: char, b: string)
    requires c !in a
    ensures Split(a + [c] + b, c) == [a] + Split(b, c)
  {
    if |a| == 0 {
      assert a + [c] + b == [c] + b;
      assert ([c] + b)[1..] == b;
    } else {
      SplitAtFirst(a[1..], c, b);
      assert (a + [c] + b)[1..] == a[1..] + [c] + b;
      assert [a[0]] + a[1..] == a;
    }
  }

  function Upper(c: char): char {
    if 'a' <= c <= 'z' then (c as int - 32) as char else c
  }

  function Lower(c: char): char {
    if 'A' <= c <= 'Z' then (c as int + 32) as char else c
  }

  /** `s.capitalize()` for ASCII text: first letter upper case, the rest lower case. */
  function Capitalize(s: string): (r: string)
    ensures |r| == |s|
  {
    if |s| == 0 then "" else [Upper(s[0])] + LowerAll(s[1..])
  }

  function LowerAll(s: string): (r: string)
    ensures |r| == |s|
  {
    if |s| == 0 then "" else [Lower(s[0])] + LowerAll(s[1..])
  }

  /** Python's `a < b` on strings: a is a proper prefix of b, or a has the smaller
      character where they first differ. */
  predicate LexLess(a: string, b: string) {
    if |a| == 0 then |b| > 0
    else if |b| == 0 then false
    else if a[0] == b[0] then LexLess(a[1..], b[1..])
    else a[0] < b[0]
  }

  lemma {:induction false} LexLessIrreflexive(a: string)
    ensures !LexLess(a, a)
  {
    if |a| > 0 {
      LexLessIrreflexive(a[1..]);
    }
  }

  lemma {:induction false} LexLessAsymmetric(a: string, b: string)
    requires LexLess(a, b)
    ensures !LexLess(b, a)
  {
    if |a| > 0 && |b| > 0 && a[0] == b[0] {
      LexLessAsymmetric(a[1..], b[1..]);
    }
  }

  lemma {:induction false} LexLessTransitive(a: string, b: string, c: string)
    requires LexLess(a, b) && LexLess(b, c)
    ensures LexLess(a, c)
  {
    if |a| > 0 && |b| > 0 && |c| > 0 && a[0] == b[0] && b[0] == c[0] {
      LexLessTransitive(a[1..], b[1..], c[1..]);
    }
  }

  lemma {:induction false} LexLessTotal(a: string, b: string)
    requires a != b
    ensures LexLess(a, b) || LexLess(b, a)
  {
    if |a| > 0 && |b| > 0 && a[0] == b[0] {
      assert a == [a[0]] + a[1..] && b == [b[0]] + b[1..];
      LexLessTotal(a[1..], b[1..]);
    }
  }

  /** The empty text sorts below every other text. */
  lemma EmptyIsLeast(a: string)
    requires a != ""
    ensures LexLess("", a)
  {
  }
}
