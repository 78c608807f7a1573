/**
 * The date label text of draw_date (src/Dial.c:67-72): the weekday's
 * three-letter name, a space and the day of the month, formatted with
 * snprintf("%s %d") into a 7-byte static buffer.
 */
module DateLabel {

  /** days_of_week, indexed by tm_wday (0 is Sunday). */
  const DAYS_OF_WEEK: seq<string> := ["SUN", "MON", "TUE", "WED", "THU", "FRI", "SAT"]

  /** sizeof(buffer): room for six characters and the terminating NUL. */
  const BUFFER_SIZE := 7

  predicate IsDigit(c: char) {
    '0' <= c <= '9'
  }

  function DigitChar(d: int): char
    requires 0 <= d < 10
  {
    ('0' as int + d) as char
  }

  /** The value of a digit character; the inverse of DigitChar. */
  function DigitValue(c: char): (v: nat)
    requires IsDigit(c)
    ensures v < 10 && DigitChar(v) == c
  {
    c as int - '0' as int
  }

  /**
   * The decimal digits of n, most significant first, without padding: one
   * digit below ten, two below a hundred, and no leading zero.
   */
  function Digits(n: nat): (s: string)
    ensures |s| >= 1 && forall i :: 0 <= i < |s| ==> IsDigit(s[i])
    ensures n > 0 ==> s[0] != '0'
    ensures n < 10 ==> |s| == 1
    ensures 10 <= n < 100 ==> |s| == 2
    decreases n
  {
    if n < 10 then [DigitChar(n)] else Digits(n / 10) + [DigitChar(n % 10)]
  }

  /** The number a string of decimal digits denotes. */
  function ParseDigits(s: string): nat
    requires forall i :: 0 <= i < |s| ==> IsDigit(s[i])
  {
    if s == [] then 0 else ParseDigits(s[..|s| - 1]) * 10 + DigitValue(s[|s| - 1])
  }

  /** Reading the digits back gives the number: no information is lost. */
  lemma {:induction false} ParseDigitsOfDigits(n: nat)
    ensures ParseDigits(Digits(n)) == n
    decreases n
  {
    if n >= 10 {
      var s := Digits(n / 10);
      ParseDigitsOfDigits(n / 10);
      assert (s + [DigitChar(n % 10)])[..|s|] == s;
    }
  }

  /**
   * printf's %d: a minus sign exactly for negative values, then at least one
   * digit with no leading zero (so no padding), and the digits read back as
   * the magnitude of n.
   */
  function FormatDecimal(n: int): (s: string)
    ensures |s| >= 1 && (s[0] == '-' <==> n < 0)
    ensures var digits := if n < 0 then s[1..] else s;
      |digits| >= 1 && (forall i :: 0 <= i < |digits| ==> IsDigit(digits[i])) &&
      (|digits| > 1 ==> digits[0] != '0') &&
      ParseDigits(digits) == if n < 0 then -n else n
  {
    if n < 0 then
      ParseDigitsOfDigits(-n);
      assert ("-" + Digits(-n))[1..] == Digits(-n);
      "-" + Digits(-n)
    else
      ParseDigitsOfDigits(n);
      Digits(n)
  }

  /**
   * What snprintf leaves in a buffer of `size` bytes, NUL excluded: the text
   * cut to at most size - 1 characters.
   */
  function Snprintf(text: string, size: nat): (r: string)
    requires size >= 1
    ensures |r| < size && r <= text
    ensures |text| < size ==> r == text
    ensures |text| >= size ==> r == text[..size - 1]
  {
    text[..if |text| < size then |text| else size - 1]
  }

  /**
   * The label draw_date writes. tm_wday indexes days_of_week without a check,
   * so a weekday outside 0..6 is a caller error.
   */
  function DateText(wday: int, mday: int): (r: string)
    requires 0 <= wday < |DAYS_OF_WEEK|
    ensures |r| < BUFFER_SIZE
    ensures |r| >= 5 && r[..4] == DAYS_OF_WEEK[wday] + " "
  {
    Snprintf(DAYS_OF_WEEK[wday] + " " + FormatDecimal(mday), BUFFER_SIZE)
  }

  /**
   * For every weekday and day of a month the whole label fits the buffer:
   * it is the weekday name, a space and the unpadded day, at most six
   * characters, and snprintf cuts nothing.
   */
  lemma DateTextFits(wday: int, mday: int)
    requires 0 <= wday < |DAYS_OF_WEEK| && 1 <= mday <= 31
    ensures DateText(wday, mday) == DAYS_OF_WEEK[wday] + " " + Digits(mday)
    ensures |DateText(wday, mday)| <= BUFFER_SIZE - 1
  {
  }

  /**
   * The label determines the date it was made from: its first three
   * characters name exactly one weekday, and the digits after the space
   * read back as the day of the month.
   */
  lemma DateTextDecodes(wday: int, mday: int)
    requires 0 <= wday < |DAYS_OF_WEEK| && 1 <= mday <= 31
    ensures var t := DateText(wday, mday);
      |t| >= 5 && t[3] == ' ' &&
      (forall w :: 0 <= w < |DAYS_OF_WEEK| ==> (DAYS_OF_WEEK[w] == t[..3] <==> w == wday)) &&
      (forall i :: 4 <= i < |t| ==> IsDigit(t[i])) &&
      ParseDigits(t[4..]) == mday && t[4] != '0'
  {
    DateTextFits(wday, mday);
    var name := DAYS_OF_WEEK[wday];
    var t := DateText(wday, mday);
    assert |name| == 3;
    assert t[..3] == name;
    assert t[4..] == Digits(mday);
    ParseDigitsOfDigits(mday);
  }

  /** The example Wednesday the 15th. */
  lemma WednesdayFifteenth()
    ensures DateText(3, 15) == "WED 15"
  {
  }
}
