/**
 * The day gate at the top of the daily cycle (AI_youtuber.py, `main`): the
 * date of the last completed cycle is kept as a `YYYYMMDD` string in a file;
 * while that string is `>=` today's, the process sleeps and looks again.
 * The file is a parameter (`None` when it does not exist) and the clock is a
 * function from the number of the reading to the `YYYYMMDD` string it gives.
 */
module DayGate {
  import opened Wrappers
  import opened Text

  /** A calendar date as `datetime` holds it (years of four digits). */
  datatype Date = Date(year: nat, month: nat, day: nat)

  predicate ValidDate(d: Date) {
    1000 <= d.year <= 9999 && 1 <= d.month <= 12 && 1 <= d.day <= 31
  }

  /** Calendar order: by year, then month, then day. */
  predicate CalendarLe(a: Date, b: Date) {
    a.year < b.year
    || (a.year == b.year && (a.month < b.month || (a.month == b.month && a.day <= b.day)))
  }

  function Pow10(w: nat): (p: nat)
    ensures p >= 1
  {
    if w == 0 then 1 else 10 * Pow10(w - 1)
  }

  /** The last `w` decimal digits of `n`, zero-padded, most significant first. */
  function Digits(n: nat, w: nat): (s: string)
    ensures |s| == w
  {
    if w == 0 then [] else Digits(n / 10, w - 1) + [DigitChar(n % 10)]
  }

  /** `strftime('%Y%m%d')`. */
  function Format(d: Date): string {
    Digits(d.year, 4) + Digits(d.month, 2) + Digits(d.day, 2)
  }

  /** The loop condition `date >= today`: wait while the stored date is not before today. */
  predicate MustWait(stored: Option<string>, today: string) {
    stored.Some? && LexLe(today, stored.value)
  }

  /**
   * For numbers that fit in `w` digits, comparing their zero-padded digit
   * strings agrees with comparing the numbers, and equal strings mean equal numbers.
   */
  lemma {:induction false} DigitsOrder(a: nat, b: nat, w: nat)
    requires a < Pow10(w) && b < Pow10(w)
    ensures LexLe(Digits(a, w), Digits(b, w)) <==> a <= b
    ensures Digits(a, w) == Digits(b, w) <==> a == b
  {
    if w > 0 {
      var x, y := Digits(a / 10, w - 1), Digits(b / 10, w - 1);
      var c, d := DigitChar(a % 10), DigitChar(b % 10);
      assert a / 10 < Pow10(w - 1) && b / 10 < Pow10(w - 1);
      DigitsOrder(a / 10, b / 10, w - 1);
      LexLeSnoc(x, y, c, d);
      assert c <= d <==> a % 10 <= b % 10;
      assert c == d <==> a % 10 == b % 10;
      assert a == 10 * (a / 10) + a % 10 && b == 10 * (b / 10) + b % 10;
      assert x + [c] == y + [d] <==> x == y && c == d by {
        if x + [c] == y + [d] {
          assert (x + [c])[..|x|] == x && (y + [d])[..|y|] == y;
          assert (x + [c])[|x|] == c && (y + [d])[|y|] == d;
        }
      }
    }
  }

  /** The digits of `a * 10^k + b`, for `b` below `10^k`, are those of `a` followed by those of `b`. */
  lemma {:induction false} DigitsConcat(a: nat, b: nat, w: nat, k: nat)
    requires b < Pow10(k)
    ensures Digits(a * Pow10(k) + b, w + k) == Digits(a, w) + Digits(b, k)
  {
    if k == 0 {
      assert b == 0 && a * Pow10(k) + b == a;
    } else {
      var n := a * Pow10(k) + b;
      assert Pow10(k) == 10 * Pow10(k - 1);
      assert n == 10 * (a * Pow10(k - 1) + b / 10) + b % 10;
      assert n / 10 == a * Pow10(k - 1) + b / 10 && n % 10 == b % 10;
      assert b / 10 < Pow10(k - 1);
      DigitsConcat(a, b / 10, w, k - 1);
    }
  }

  /** The eight-digit number whose digits `Format` prints. */
  function Key(d: Date): nat {
    d.year * 10000 + d.month * 100 + d.day
  }

  lemma FormatIsKeyDigits(d: Date)
    requires ValidDate(d)
    ensures Format(d) == Digits(Key(d), 8)
  {
    assert Pow10(2) == 100 && Pow10(4) == 10000;
    DigitsConcat(d.year, d.month, 4, 2);
    DigitsConcat(d.year * 100 + d.month, d.day, 6, 2);
    assert (d.year * 100 + d.month) * 100 + d.day == Key(d);
  }

  /**
   * For well-formed dates, the string comparison the loop makes is calendar
   * order: it waits exactly while today is not later than the stored date.
   */
  lemma FormatOrder(stored: Date, today: Date)
    requires ValidDate(stored) && ValidDate(today)
    ensures MustWait(Some(Format(stored)), Format(today)) <==> CalendarLe(today, stored)
    ensures Format(today) == Format(stored) <==> today == stored
  {
    FormatIsKeyDigits(stored);
    FormatIsKeyDigits(today);
    assert Pow10(8) == 100000000;
    DigitsOrder(Key(today), Key(stored), 8);
  }

  /** Once a day has been recorded, the gate stays shut for that day and every earlier one. */
  lemma RecordedDayBlocks(recorded: Date, today: Date)
    requires ValidDate(recorded) && ValidDate(today) && CalendarLe(today, recorded)
    ensures MustWait(Some(Format(recorded)), Format(today))
  {
    FormatOrder(recorded, today);
  }

  /** Without a stored date, and on any later day, the cycle starts at once. */
  lemma LaterDayOpens(recorded: Option<Date>, today: Date)
    requires recorded.Some? ==> ValidDate(recorded.value) && ValidDate(today) && !CalendarLe(today, recorded.value)
    ensures !MustWait(if recorded.Some? then Some(Format(recorded.value)) else None, Format(today))
  {
    if recorded.Some? {
      FormatOrder(recorded.value, today);
    }
  }

  /**
   * The waiting loop: reading `t` of the clock gives `clock(t)`; the loop
   * sleeps while the stored date is `>=` the reading. It returns the number of
   * sleeps, and it reads and changes nothing else, so asking again with the
   * same file and clock gives the same answer.
   */
  method WaitForNextDay(stored: Option<string>, clock: nat -> string) returns (polls: nat)
    requires stored.Some? ==> exists t: nat :: !LexLe(clock(t), stored.value)
    ensures !MustWait(stored, clock(polls))
    ensures forall t: nat :: t < polls ==> MustWait(stored, clock(t))
    ensures stored.None? ==> polls == 0
  {
    polls := 0;
    if stored.None? {
      return;
    }
    ghost var open: nat :| !LexLe(clock(open), stored.value);
    while LexLe(clock(polls), stored.value)
      invariant polls <= open
      invariant forall t: nat :: t < polls ==> MustWait(stored, clock(t))
      decreases open - polls
    {
      polls := polls + 1;
    }
  }
}
