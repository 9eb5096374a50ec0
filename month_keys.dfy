/**
 * The two month-key generators of the reporting service. Each walks back from
 * an end date one calendar month at a time (LocalDate.minusMonths(1)) and
 * collects the dates it visits for as long as a start date is strictly before
 * them. The profit/loss report then has one bucket per key.
 */
module MonthKeys {
  import opened Dates
  import opened Seqs

  /**
   * The list both generators build: hi, hi minus one month, hi minus two
   * months, ... for as long as lo is strictly before the date reached.
   */
  function KeysAbove(lo: Date, hi: Date): (keys: seq<Date>)
    requires Valid(lo) && Valid(hi)
    ensures keys == [] <==> !IsBefore(lo, hi)
    ensures |keys| > 0 ==> keys[0] == hi
    ensures forall i | 0 <= i < |keys| :: Valid(keys[i]) && IsBefore(lo, keys[i])
    ensures forall i | 0 <= i < |keys| :: MonthIndex(keys[i]) == MonthIndex(hi) - i && keys[i].day <= hi.day
    ensures |keys| > 0 ==> !IsBefore(lo, MinusOneMonth(keys[|keys| - 1]))
    decreases MonthIndex(hi) - MonthIndex(lo) + 1
  {
    if IsBefore(lo, hi) then
      IsBeforeMonthIndex(lo, hi);
      [hi] + KeysAbove(lo, MinusOneMonth(hi))
    else
      []
  }

  /** Each key is the one listed ahead of it moved back by one month (LocalDate.minusMonths(1)). */
  lemma {:induction false} KeysStep(lo: Date, hi: Date, i: int)
    requires Valid(lo) && Valid(hi)
    requires 0 < i < |KeysAbove(lo, hi)|
    ensures KeysAbove(lo, hi)[i] == MinusOneMonth(KeysAbove(lo, hi)[i - 1])
    decreases i
  {
    var next := MinusOneMonth(hi);
    assert KeysAbove(lo, hi) == [hi] + KeysAbove(lo, next);
    if i > 1 {
      KeysStep(lo, next, i - 1);
    }
  }

  /** Consecutive keys are strictly descending: each is before the one listed ahead of it. */
  lemma KeysDescending(lo: Date, hi: Date, i: int, j: int)
    requires Valid(lo) && Valid(hi)
    requires 0 <= i < j < |KeysAbove(lo, hi)|
    ensures IsBefore(KeysAbove(lo, hi)[j], KeysAbove(lo, hi)[i])
  {
    var keys := KeysAbove(lo, hi);
    IsBeforeMonthIndex(keys[j], keys[i]);
  }

  /**
   * How many keys there are: every month from hi's month down to the month
   * after lo's is listed, and lo's own month is listed too when the date
   * reached in it falls after lo's day.
   */
  lemma KeysCount(lo: Date, hi: Date)
    requires Valid(lo) && Valid(hi) && IsBefore(lo, hi)
    ensures MonthIndex(hi) - MonthIndex(lo) <= |KeysAbove(lo, hi)| <= MonthIndex(hi) - MonthIndex(lo) + 1
  {
    var keys := KeysAbove(lo, hi);
    var last := keys[|keys| - 1];
    IsBeforeMonthIndex(lo, last);
    IsBeforeMonthIndex(lo, MinusOneMonth(last));
  }

  /** One step of the walk back: the date reached moves from the keys still to come to the keys emitted. */
  lemma KeysPeel(emitted: seq<Date>, lo: Date, hi: Date)
    requires Valid(lo) && Valid(hi) && IsBefore(lo, hi)
    ensures emitted + KeysAbove(lo, hi) == (emitted + [hi]) + KeysAbove(lo, MinusOneMonth(hi))
    ensures MonthIndex(lo) <= MonthIndex(hi)
  {
    IsBeforeMonthIndex(lo, hi);
    assert KeysAbove(lo, hi) == [hi] + KeysAbove(lo, MinusOneMonth(hi));
    AppendAssoc(emitted, [hi], KeysAbove(lo, MinusOneMonth(hi)));
  }

  /**
   * The loop both key generators share: add the date reached and step back a
   * month while the lower bound is before it.
   */
  method WalkBack(lo: Date, hi: Date) returns (mapKeys: seq<Date>)
    requires Valid(lo) && Valid(hi)
    ensures mapKeys == KeysAbove(lo, hi)
  {
    mapKeys := [];
    var now := hi;
    while IsBefore(lo, now)
      invariant Valid(now)
      invariant mapKeys + KeysAbove(lo, now) == KeysAbove(lo, hi)
      decreases MonthIndex(now) - MonthIndex(lo)
    {
      KeysPeel(mapKeys, lo, now);
      mapKeys := mapKeys + [now];
      now := MinusOneMonth(now);
    }
    assert mapKeys + [] == mapKeys;
  }

  /**
   * mapKeyGenerator(LocalDateTime): walks back from today while
   * signup.minusMonths(1) is before the date reached.
   */
  method MonthKeysSinceSignup(signup: Date, today: Date) returns (mapKeys: seq<Date>)
    requires Valid(signup) && Valid(today)
    ensures mapKeys == KeysAbove(MinusOneMonth(signup), today)
  {
    mapKeys := WalkBack(MinusOneMonth(signup), today);
  }

  /** The bounds the year-bounded generator walks between. */
  datatype Window = Window(start: Date, end: Date)

  /**
   * The start and end dates mapKeyGenerator(LocalDateTime, int) picks for a
   * target year: its three branches come down to two independent choices.
   */
  function YearWindow(signup: Date, year: int, today: Date): (w: Window)
    requires Valid(signup) && Valid(today)
    ensures Valid(w.start) && Valid(w.end)
    ensures w.start.year == year && w.end.year == year
    ensures w.end == if year == today.year then today else Date(year, 12, 31)
    ensures w.start == if MinusOneMonth(signup).year == year then MinusOneMonth(signup) else Date(year, 1, 1)
  {
    var startDate := MinusOneMonth(signup);
    if startDate.year == year && year == today.year then Window(startDate, today)
    else if startDate.year == year then Window(startDate, Date(year, 12, 31))
    else Window(Date(year, 1, 1), if year == today.year then today else Date(year, 12, 31))
  }

  /** mapKeyGenerator(LocalDateTime, int): walks back from the window's end while its start is before the date reached. */
  method MonthKeysForYear(signup: Date, year: int, today: Date) returns (mapKeys: seq<Date>)
    requires Valid(signup) && Valid(today)
    ensures mapKeys == KeysAbove(YearWindow(signup, year, today).start, YearWindow(signup, year, today).end)
  {
    var startDate := MinusOneMonth(signup);
    var endDate: Date;
    if startDate.year == year && year == today.year {
      endDate := today;
    } else if startDate.year == year {
      endDate := Date(year, 12, 31);
    } else {
      if year == today.year {
        endDate := today;
      } else {
        endDate := Date(year, 12, 31);
      }
      startDate := Date(year, 1, 1);
    }
    assert Window(startDate, endDate) == YearWindow(signup, year, today);
    mapKeys := WalkBack(startDate, endDate);
  }

  /**
   * Every key of the year-bounded generator lies in the target year, none is
   * after today when that year is the current one, there are at most twelve,
   * and when the target year is not before the signup month's predecessor all
   * keys are after signup minus one month.
   */
  lemma YearKeysWithinYear(signup: Date, year: int, today: Date)
    requires Valid(signup) && Valid(today)
    ensures var w := YearWindow(signup, year, today);
            var keys := KeysAbove(w.start, w.end);
            && |keys| <= 12
            && (forall i | 0 <= i < |keys| :: keys[i].year == year)
            && (year == today.year ==> forall i | 0 <= i < |keys| :: !IsBefore(today, keys[i]))
            && (MinusOneMonth(signup).year <= year ==>
                  forall i | 0 <= i < |keys| :: IsBefore(MinusOneMonth(signup), keys[i]))
  {
    var w := YearWindow(signup, year, today);
    var keys := KeysAbove(w.start, w.end);
    forall i | 0 <= i < |keys|
      ensures keys[i].year == year && !IsBefore(w.end, keys[i])
    {
      IsBeforeMonthIndex(w.start, keys[i]);
      IsBeforeMonthIndex(w.end, keys[i]);
      IsBeforeMonthIndex(keys[i], w.end);
    }
    if |keys| > 0 {
      IsBeforeMonthIndex(w.start, keys[|keys| - 1]);
    }
  }

  /**
   * When hi's day is not after lo's day, lo's own month gets no key: the keys
   * are exactly the months after lo's month up to hi's.
   */
  lemma KeysCountNoDayOverhang(lo: Date, hi: Date)
    requires Valid(lo) && Valid(hi) && IsBefore(lo, hi) && hi.day <= lo.day
    ensures |KeysAbove(lo, hi)| == MonthIndex(hi) - MonthIndex(lo)
  {
    KeysCount(lo, hi);
    var keys := KeysAbove(lo, hi);
    var last := keys[|keys| - 1];
    assert last.day <= lo.day && IsBefore(lo, last);
    IsBeforeMonthIndex(lo, last);
  }

  /**
   * A company that signed up on 2022-01-10, seen on 2023-06-01, gets eighteen
   * keys, from June 2023 back to January 2022.
   */
  lemma SinceSignupExample(signup: Date, today: Date)
    requires signup.year == 2022 && signup.month == 1 && signup.day == 10
    requires today.year == 2023 && today.month == 6 && today.day == 1
    ensures var keys := KeysAbove(MinusOneMonth(signup), today);
            |keys| == 18 && keys[0] == today && keys[17].year == 2022 && keys[17].month == 1
  {
    var lo := MinusOneMonth(signup);
    assert lo == Date(2021, 12, 10);
    assert MonthIndex(lo) == 2021 * 12 + 11 && MonthIndex(today) == 2023 * 12 + 5;
    assert IsBefore(lo, today) && today.day <= lo.day;
    KeysCountNoDayOverhang(lo, today);
    var keys := KeysAbove(lo, today);
    assert |keys| == 18;
    assert MonthIndex(keys[17]) == MonthIndex(today) - 17 == 2022 * 12;
  }

  // The lower bound of both generators compares days as well as months, so
  // whether a boundary month gets a key depends on the day of the month.

  /** The key list as evidently intended: one date per calendar month, from hi's month down to month index `first`. */
  function KeysFromMonth(first: int, hi: Date): (keys: seq<Date>)
    requires Valid(hi)
    ensures |keys| == if MonthIndex(hi) >= first then MonthIndex(hi) - first + 1 else 0
    ensures |keys| > 0 ==> keys[0] == hi
    ensures forall i | 0 <= i < |keys| :: Valid(keys[i]) && MonthIndex(keys[i]) == MonthIndex(hi) - i
    decreases MonthIndex(hi) - first + 1
  {
    if MonthIndex(hi) >= first then [hi] + KeysFromMonth(first, MinusOneMonth(hi)) else []
  }

  /** Since-signup keys as intended: exactly the months from today's back to the signup month, one key each. */
  function IntendedKeysSinceSignup(signup: Date, today: Date): (keys: seq<Date>)
    requires Valid(signup) && Valid(today)
    ensures forall i | 0 <= i < |keys| :: MonthIndex(signup) <= MonthIndex(keys[i]) <= MonthIndex(today)
    ensures MonthIndex(signup) <= MonthIndex(today) ==> |keys| == MonthIndex(today) - MonthIndex(signup) + 1
    ensures MonthIndex(signup) > MonthIndex(today) ==> keys == []
    ensures forall i | 0 <= i < |keys| :: MonthIndex(keys[i]) == MonthIndex(today) - i
  {
    KeysFromMonth(MonthIndex(signup), today)
  }

  /**
   * Year-bounded keys as intended: exactly the months of the target year from
   * January (or the signup month, if later) up to the window's end, one key each.
   */
  function IntendedKeysForYear(signup: Date, year: int, today: Date): (keys: seq<Date>)
    requires Valid(signup) && Valid(today)
    ensures var first := if MonthIndex(signup) > year * 12 then MonthIndex(signup) else year * 12;
            var last := MonthIndex(YearWindow(signup, year, today).end);
            && (forall i | 0 <= i < |keys| :: keys[i].year == year && first <= MonthIndex(keys[i]) <= last)
            && (first <= last ==> |keys| == last - first + 1)
            && (first > last ==> keys == [])
            && (forall i | 0 <= i < |keys| :: MonthIndex(keys[i]) == last - i)
  {
    var w := YearWindow(signup, year, today);
    KeysFromMonth(if MonthIndex(signup) > year * 12 then MonthIndex(signup) else year * 12, w.end)
  }

  /**
   * As written, a company that signed up on 2023-03-15 gets a February 2023
   * key on 2023-03-20, a month before it existed; on 2023-03-10 it would not.
   */
  lemma SinceSignupKeyBeforeSignup()
    ensures KeysAbove(MinusOneMonth(Date(2023, 3, 15)), Date(2023, 3, 20)) == [Date(2023, 3, 20), Date(2023, 2, 20)]
    ensures KeysAbove(MinusOneMonth(Date(2023, 3, 15)), Date(2023, 3, 10)) == [Date(2023, 3, 10)]
    ensures IntendedKeysSinceSignup(Date(2023, 3, 15), Date(2023, 3, 20)) == [Date(2023, 3, 20)]
  {
    assert MinusOneMonth(Date(2023, 3, 15)) == Date(2023, 2, 15);
    assert MinusOneMonth(Date(2023, 3, 20)) == Date(2023, 2, 20);
    assert MinusOneMonth(Date(2023, 3, 10)) == Date(2023, 2, 10);
  }

  /**
   * As written, on the first day of a month the current year's January gets
   * no key (January 1 is not before January 1).
   */
  lemma YearKeysMissJanuary()
    ensures var w := YearWindow(Date(2020, 5, 10), 2024, Date(2024, 3, 1));
            KeysAbove(w.start, w.end) == [Date(2024, 3, 1), Date(2024, 2, 1)]
  {
    var jan1 := Date(2024, 1, 1);
    assert YearWindow(Date(2020, 5, 10), 2024, Date(2024, 3, 1)) == Window(jan1, Date(2024, 3, 1));
    assert KeysAbove(jan1, Date(2024, 1, 1)) == [];
    assert KeysAbove(jan1, Date(2024, 2, 1)) == [Date(2024, 2, 1)];
    assert KeysAbove(jan1, Date(2024, 3, 1)) == [Date(2024, 3, 1), Date(2024, 2, 1)];
  }

  /** A day later, as written, January is back. */
  lemma YearKeysKeepJanuaryNextDay()
    ensures var w := YearWindow(Date(2020, 5, 10), 2024, Date(2024, 3, 2));
            KeysAbove(w.start, w.end) == [Date(2024, 3, 2), Date(2024, 2, 2), Date(2024, 1, 2)]
  {
    var jan1 := Date(2024, 1, 1);
    assert YearWindow(Date(2020, 5, 10), 2024, Date(2024, 3, 2)) == Window(jan1, Date(2024, 3, 2));
    assert KeysAbove(jan1, Date(2023, 12, 2)) == [];
    assert KeysAbove(jan1, Date(2024, 1, 2)) == [Date(2024, 1, 2)];
    assert KeysAbove(jan1, Date(2024, 2, 2)) == [Date(2024, 2, 2), Date(2024, 1, 2)];
  }

  /** The intended year keys on that first day of March include January. */
  lemma IntendedYearKeysKeepJanuary()
    ensures IntendedKeysForYear(Date(2020, 5, 10), 2024, Date(2024, 3, 1))
         == [Date(2024, 3, 1), Date(2024, 2, 1), Date(2024, 1, 1)]
  {
    var keys := IntendedKeysForYear(Date(2020, 5, 10), 2024, Date(2024, 3, 1));
    assert YearWindow(Date(2020, 5, 10), 2024, Date(2024, 3, 1)).end == Date(2024, 3, 1);
    assert keys == KeysFromMonth(2024 * 12, Date(2024, 3, 1));
    assert MinusOneMonth(Date(2024, 1, 1)) == Date(2023, 12, 1);
    assert MinusOneMonth(Date(2024, 2, 1)) == Date(2024, 1, 1);
    assert MinusOneMonth(Date(2024, 3, 1)) == Date(2024, 2, 1);
    assert KeysFromMonth(2024 * 12, Date(2023, 12, 1)) == [];
    assert KeysFromMonth(2024 * 12, Date(2024, 1, 1)) == [Date(2024, 1, 1)];
    assert KeysFromMonth(2024 * 12, Date(2024, 2, 1)) == [Date(2024, 2, 1), Date(2024, 1, 1)];
  }

  /** The walk clamps days only to month lengths, so no key's day falls below hi's day or 28. */
  lemma {:induction false} KeysDayFloor(lo: Date, hi: Date)
    requires Valid(lo) && Valid(hi)
    ensures forall i | 0 <= i < |KeysAbove(lo, hi)| ::
              KeysAbove(lo, hi)[i].day >= (if hi.day < 28 then hi.day else 28)
    decreases MonthIndex(hi) - MonthIndex(lo) + 1
  {
    if IsBefore(lo, hi) {
      IsBeforeMonthIndex(lo, hi);
      var next := MinusOneMonth(hi);
      KeysDayFloor(lo, next);
      assert KeysAbove(lo, hi) == [hi] + KeysAbove(lo, next);
    }
  }

  /** The walk from 2021-12-31 down to the bound 2021-01-01 gives twelve keys, the last on January 28. */
  lemma KeysOf2021()
    ensures var keys := KeysAbove(Date(2021, 1, 1), Date(2021, 12, 31));
            |keys| == 12 && keys[0] == Date(2021, 12, 31) && keys[11] == Date(2021, 1, 28)
  {
    var lo, hi := Date(2021, 1, 1), Date(2021, 12, 31);
    var keys := KeysAbove(lo, hi);
    KeysCount(lo, hi);
    KeysDayFloor(lo, hi);
    // Eleven keys would end in February on a day of at least 28, and its
    // January successor would still be after the bound.
    var feb := keys[10];
    assert feb.year == 2021 && feb.month == 2 && feb.day == 28;
    assert MinusOneMonth(feb) == Date(2021, 1, 28);
    assert |keys| == 12;
    KeysStep(lo, hi, 11);
  }

  /**
   * The corrected year keys also differ for a year before signup: as written
   * a whole calendar year of keys, as intended none.
   */
  lemma YearKeysBeforeSignupYear()
    ensures var w := YearWindow(Date(2023, 5, 10), 2021, Date(2024, 6, 1));
            var keys := KeysAbove(w.start, w.end);
            |keys| == 12 && keys[0] == Date(2021, 12, 31) && keys[11] == Date(2021, 1, 28)
    ensures IntendedKeysForYear(Date(2023, 5, 10), 2021, Date(2024, 6, 1)) == []
  {
    var w := YearWindow(Date(2023, 5, 10), 2021, Date(2024, 6, 1));
    assert MinusOneMonth(Date(2023, 5, 10)) == Date(2023, 4, 10);
    var lo := Date(2021, 1, 1);
    assert w == Window(lo, Date(2021, 12, 31));
    KeysOf2021();
  }
}
