/**
 * The pieces of Java's string library the harness relies on: how a
 * concatenation renders `null`, `int` and `boolean` values, how a `List`
 * prints itself, and `String.trim`. Each rendering comes with the inverse
 * or the characterisation the rest of the model uses to reason about it.
 */
module JavaText {
  import opened Wrappers

  /** The text Java's `+` and `%s` produce for a possibly-null string. */
  function Show(s: Option<string>): string {
    match s
    case None => "null"
    case Some(v) => v
  }

  /** `String.valueOf(boolean)` and `%b`. */
  function BoolToString(b: bool): string {
    if b then "true" else "false"
  }

  predicate IsDigit(c: char) {
    '0' <= c <= '9'
  }

  predicate AllDigits(s: string) {
    forall i | 0 <= i < |s| :: IsDigit(s[i])
  }

  function DigitChar(d: nat): (c: char)
    requires d < 10
    ensures IsDigit(c)
  {
    "0123456789"[d]
  }

  function DigitValue(c: char): (d: nat)
    requires IsDigit(c)
    ensures d < 10
  {
    c as int - '0' as int
  }

  /** Decimal digits of a natural number, most significant first, no leading zero. */
  function DigitsOf(n: nat): (r: string)
    ensures |r| >= 1 && AllDigits(r)
    ensures r[0] == '0' ==> n == 0
    decreases n
  {
    if n < 10 then [DigitChar(n)] else DigitsOf(n / 10) + [DigitChar(n % 10)]
  }

  /** The number a run of decimal digits denotes. */
  function ValueOfDigits(s: string): nat
    requires AllDigits(s)
    decreases |s|
  {
    if |s| == 0 then 0
    else ValueOfDigits(s[..|s| - 1]) * 10 + DigitValue(s[|s| - 1])
  }

  /** Reading back the digits of `n` gives `n`. */
  lemma {:induction false} ValueOfDigitsOf(n: nat)
    ensures ValueOfDigits(DigitsOf(n)) == n
    decreases n
  {
    if n >= 10 {
      ValueOfDigitsOf(n / 10);
      var d := DigitsOf(n / 10);
      var r := d + [DigitChar(n % 10)];
      assert r[..|r| - 1] == d;
    }
  }

  /** `String.valueOf(int)`, `Integer.toString` and `%d` with ASCII digits: a minus sign, then the digits. */
  function IntToString(i: int): string {
    if i < 0 then "-" + DigitsOf(-i) else DigitsOf(i)
  }

  /** Decimal integer syntax: an optional minus sign and at least one digit. */
  function ParseInt(s: string): Option<int> {
    if |s| > 1 && s[0] == '-' && AllDigits(s[1..]) then Some(-(ValueOfDigits(s[1..]) as int))
    else if |s| > 0 && AllDigits(s) then Some(ValueOfDigits(s))
    else None
  }

  /** Every rendered integer reads back as itself, so the rendering loses nothing. */
  lemma IntToStringRoundTrip(i: int)
    ensures ParseInt(IntToString(i)) == Some(i)
  {
    if i < 0 {
      var d := DigitsOf(-i);
      var s := "-" + d;
      assert s[1..] == d;
      ValueOfDigitsOf(-i);
      assert ParseInt(s) == Some(-(ValueOfDigits(d) as int));
    } else {
      var d := DigitsOf(i);
      assert IsDigit(d[0]);
      ValueOfDigitsOf(i);
      assert ParseInt(d) == Some(ValueOfDigits(d) as int);
    }
  }

  /** The elements joined by ", ", as `AbstractCollection.toString` writes them. */
  function Join(xs: seq<string>): string
    decreases |xs|
  {
    if |xs| == 0 then ""
    else if |xs| == 1 then xs[0]
    else xs[0] + ", " + Join(xs[1..])
  }

  /** `List.toString` of a list of non-null strings. */
  function ListToString(xs: seq<string>): string {
    "[" + Join(xs) + "]"
  }

  /** `needle` occurs as a contiguous piece of `hay`. */
  ghost predicate Occurs(needle: string, hay: string) {
    exists k :: OccursAt(needle, hay, k)
  }

  predicate OccursAt(needle: string, hay: string, k: int) {
    0 <= k <= |hay| - |needle| && hay[k..k + |needle|] == needle
  }

  lemma OccursPrefix(needle: string, rest: string)
    ensures Occurs(needle, needle + rest)
  {
    assert OccursAt(needle, needle + rest, 0);
  }

  lemma OccursExtend(needle: string, front: string, hay: string, back: string)
    requires Occurs(needle, hay)
    ensures Occurs(needle, front + hay + back)
  {
    var k :| OccursAt(needle, hay, k);
    var whole := front + hay + back;
    assert whole[|front| + k..|front| + k + |needle|] == hay[k..k + |needle|];
    assert OccursAt(needle, whole, |front| + k);
  }

  /** Every element of the list is visible in the joined text. */
  lemma {:induction false} JoinContainsEach(xs: seq<string>, i: nat)
    requires i < |xs|
    ensures Occurs(xs[i], Join(xs))
    decreases |xs|
  {
    if |xs| == 1 {
      OccursPrefix(xs[0], "");
      assert xs[0] + "" == xs[0];
    } else if i == 0 {
      OccursPrefix(xs[0], ", " + Join(xs[1..]));
      assert xs[0] + ", " + Join(xs[1..]) == xs[0] + (", " + Join(xs[1..]));
    } else {
      JoinContainsEach(xs[1..], i - 1);
      OccursExtend(xs[i], xs[0] + ", ", Join(xs[1..]), "");
      assert xs[0] + ", " + Join(xs[1..]) + "" == Join(xs);
    }
  }

  /** Every element of the list is visible in its `toString`. */
  lemma ListToStringContainsEach(xs: seq<string>, i: nat)
    requires i < |xs|
    ensures Occurs(xs[i], ListToString(xs))
  {
    JoinContainsEach(xs, i);
    OccursExtend(xs[i], "[", Join(xs), "]");
  }

  predicate Blank(s: string) {
    forall i | 0 <= i < |s| :: s[i] <= ' '
  }

  function TrimStart(s: string): (r: string)
    decreases |s|
  {
    if |s| > 0 && s[0] <= ' ' then TrimStart(s[1..]) else s
  }

  function TrimEnd(s: string): (r: string)
    decreases |s|
  {
    if |s| > 0 && s[|s| - 1] <= ' ' then TrimEnd(s[..|s| - 1]) else s
  }

  /** `String.trim`: drop every leading and trailing character at or below U+0020. */
  function Trim(s: string): string {
    TrimEnd(TrimStart(s))
  }

  lemma {:induction false} TrimStartShape(s: string)
    ensures TrimStart(s) == [] <==> Blank(s)
    ensures TrimStart(s) != [] ==> TrimStart(s)[0] > ' '
    decreases |s|
  {
    if |s| > 0 && s[0] <= ' ' {
      TrimStartShape(s[1..]);
      assert Blank(s[1..]) ==> Blank(s) by {
        if Blank(s[1..]) {
          forall i | 0 <= i < |s| ensures s[i] <= ' ' {
            if i > 0 { assert s[i] == s[1..][i - 1]; }
          }
        }
      }
    }
  }

  lemma {:induction false} TrimEndKeepsHead(s: string)
    requires |s| > 0 && s[0] > ' '
    ensures TrimEnd(s) != []
    decreases |s|
  {
    if s[|s| - 1] <= ' ' {
      assert |s| > 1;
      TrimEndKeepsHead(s[..|s| - 1]);
    }
  }

  /** `s.trim().isEmpty()` holds exactly when every character of `s` is at or below U+0020. */
  lemma TrimEmptyIffBlank(s: string)
    ensures Trim(s) == [] <==> Blank(s)
  {
    TrimStartShape(s);
    if TrimStart(s) != [] {
      TrimEndKeepsHead(TrimStart(s));
    }
  }
}
