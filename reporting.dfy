/**
 * The reporting service apart from its month-key generators: assembling the
 * (label, amount) lists, paging them, the chart scale and the year choices.
 * The profit/loss figures themselves come from queries outside this model and
 * are passed in as functions.
 */
module Reporting {
  import opened Errors
  import opened Text
  import opened Dates

  /** A Map.Entry<String, BigDecimal> of a report, with the amount as an integer. */
  datatype Entry = Entry(key: string, amount: int)

  /** The product fields the product report reads. */
  datatype ProductRow = ProductRow(id: int, name: string)

  // ---------------------------------------------------------------- labels

  /** English month names, as the "MMMM" pattern prints them. */
  function MonthName(month: int): string
    requires 1 <= month <= 12
  {
    ["January", "February", "March", "April", "May", "June", "July",
     "August", "September", "October", "November", "December"][month - 1]
  }

  /** The upper-case month names, which the labels end with. */
  function UpperMonthName(month: int): string
    requires 1 <= month <= 12
  {
    ["JANUARY", "FEBRUARY", "MARCH", "APRIL", "MAY", "JUNE", "JULY",
     "AUGUST", "SEPTEMBER", "OCTOBER", "NOVEMBER", "DECEMBER"][month - 1]
  }

  /** A number below 10000 in exactly four digits, zero-padded. */
  function FourDigits(n: int): (s: string)
    requires 0 <= n <= 9999
    ensures |s| == 4
  {
    var tens := n / 10;
    var hundreds := tens / 10;
    [DigitChar(hundreds / 10), DigitChar(hundreds % 10), DigitChar(tens % 10), DigitChar(n % 10)]
  }

  /** The "yyyy" field: the year of era, at least four digits, with a '+' when it needs more. */
  function YearText(year: int): string {
    var yearOfEra := if year >= 1 then year else 1 - year;
    if yearOfEra <= 9999 then FourDigits(yearOfEra) else "+" + Dec(yearOfEra)
  }

  /** The label of a month bucket: the date formatted as "yyyy MMMM", upper-cased. */
  function MonthLabel(d: Date): string
    requires Valid(d)
  {
    ToUpper(YearText(d.year) + " " + MonthName(d.month))
  }

  lemma UpperMonthNameIsUpper(month: int)
    requires 1 <= month <= 12
    ensures ToUpper(MonthName(month)) == UpperMonthName(month)
  {
    var n, u := MonthName(month), UpperMonthName(month);
    assert |ToUpper(n)| == |u|;
    forall i | 0 <= i < |n| ensures ToUpper(n)[i] == u[i] {
      assert ToUpper(n)[i] == UpperChar(n[i]);
    }
  }

  lemma UpperDigits(s: string)
    requires forall i | 0 <= i < |s| :: '0' <= s[i] <= '9'
    ensures ToUpper(s) == s
  {
  }

  /** For years 1 to 9999 a label is the four-digit year, a space and the upper-case month name. */
  lemma MonthLabelShape(d: Date)
    requires Valid(d) && 1 <= d.year <= 9999
    ensures MonthLabel(d) == FourDigits(d.year) + " " + UpperMonthName(d.month)
  {
    ToUpperConcat(FourDigits(d.year) + " ", MonthName(d.month));
    ToUpperConcat(FourDigits(d.year), " ");
    UpperDigits(FourDigits(d.year));
    UpperMonthNameIsUpper(d.month);
  }

  lemma FourDigitsInjective(a: int, b: int)
    requires 0 <= a <= 9999 && 0 <= b <= 9999 && FourDigits(a) == FourDigits(b)
    ensures a == b
  {
    var fa, fb := FourDigits(a), FourDigits(b);
    assert fa[0] == fb[0] && fa[1] == fb[1] && fa[2] == fb[2] && fa[3] == fb[3];
    assert a / 10 / 10 == b / 10 / 10;
    assert a / 10 == b / 10;
  }

  lemma UpperMonthNameInjective(m: int, n: int)
    requires 1 <= m <= 12 && 1 <= n <= 12 && UpperMonthName(m) == UpperMonthName(n)
    ensures m == n
  {
    var names := ["JANUARY", "FEBRUARY", "MARCH", "APRIL", "MAY", "JUNE", "JULY",
                  "AUGUST", "SEPTEMBER", "OCTOBER", "NOVEMBER", "DECEMBER"];
    assert UpperMonthName(m) == names[m - 1] && UpperMonthName(n) == names[n - 1];
    assert |names[m - 1]| == |names[n - 1]| && names[m - 1][0] == names[n - 1][0];
  }

  /** Labels tell months apart: two dates of years 1 to 9999 with the same label are in the same month. */
  lemma MonthLabelInjective(a: Date, b: Date)
    requires Valid(a) && Valid(b) && 1 <= a.year <= 9999 && 1 <= b.year <= 9999
    requires MonthLabel(a) == MonthLabel(b)
    ensures a.year == b.year && a.month == b.month
  {
    MonthLabelShape(a);
    MonthLabelShape(b);
    var la, lb := MonthLabel(a), MonthLabel(b);
    assert FourDigits(a.year) == la[..4] == lb[..4] == FourDigits(b.year);
    FourDigitsInjective(a.year, b.year);
    assert UpperMonthName(a.month) == la[5..] == lb[5..] == UpperMonthName(b.month);
    UpperMonthNameInjective(a.month, b.month);
  }

  // ------------------------------------------------------- list assembly

  /**
   * getMonthlyProfitLossListMapByKeys: one entry per key, in key order,
   * labelled with the key's month and carrying that month's profit or loss.
   */
  method MonthlyProfitLossByKeys(keys: seq<Date>, companyId: int,
                                 profitLossOfMonth: (int, int, int) -> int)
    returns (listOfMap: seq<Entry>)
    requires forall i | 0 <= i < |keys| :: Valid(keys[i])
    ensures |listOfMap| == |keys|
    ensures forall i | 0 <= i < |keys| ::
              listOfMap[i] == Entry(MonthLabel(keys[i]), profitLossOfMonth(keys[i].year, keys[i].month, companyId))
  {
    listOfMap := [];
    for i := 0 to |keys|
      invariant |listOfMap| == i
      invariant forall j | 0 <= j < i ::
                  listOfMap[j] == Entry(MonthLabel(keys[j]), profitLossOfMonth(keys[j].year, keys[j].month, companyId))
    {
      var currentKey := keys[i];
      var key := YearText(currentKey.year) + " " + MonthName(currentKey.month);
      var profitLoss := profitLossOfMonth(currentKey.year, currentKey.month, companyId);
      listOfMap := listOfMap + [Entry(ToUpper(key), profitLoss)];
    }
  }

  /**
   * getProductProfitLossListMap: one entry per listed product, in list order,
   * labelled with the product's name.
   */
  method ProductProfitLossList(allProducts: seq<ProductRow>, companyId: int,
                               profitLossOfProduct: (int, int) -> int)
    returns (listOfMap: seq<Entry>)
    ensures |listOfMap| == |allProducts|
    ensures forall i | 0 <= i < |allProducts| ::
              listOfMap[i] == Entry(allProducts[i].name, profitLossOfProduct(allProducts[i].id, companyId))
  {
    listOfMap := [];
    for i := 0 to |allProducts|
      invariant |listOfMap| == i
      invariant forall j | 0 <= j < i ::
                  listOfMap[j] == Entry(allProducts[j].name, profitLossOfProduct(allProducts[j].id, companyId))
    {
      var product := allProducts[i];
      listOfMap := listOfMap + [Entry(product.name, profitLossOfProduct(product.id, companyId))];
    }
  }

  // ------------------------------------------------------------- paging

  /**
   * Java's int division, which truncates toward zero: b * q is the multiple
   * of b nearest a on zero's side, so q rounds down for a non-negative a and
   * up for a negative one.
   */
  function TruncDiv(a: int, b: int): (q: int)
    requires b > 0
    ensures a >= 0 ==> 0 <= a - b * q < b
    ensures a < 0 ==> -b < a - b * q <= 0
  {
    if a >= 0 then a / b else -((-a) / b)
  }

  /** Java's int remainder, which takes the sign of the dividend. */
  function TruncRem(a: int, b: int): (r: int)
    requires b > 0
    ensures a == b * TruncDiv(a, b) + r
    ensures a >= 0 ==> 0 <= r < b
    ensures a < 0 ==> -b < r <= 0
  {
    a - b * TruncDiv(a, b)
  }

  function PageLabel(page: nat): string {
    "Page " + Dec(page)
  }

  /**
   * generatePageOptions: "Page 1", "Page 2", ... one label per page of ten
   * items, ceil(dataSize / 10) of them for a non-negative size. Java's
   * truncating division gives sizes -9 to -1 a single page.
   */
  method GeneratePageOptions(dataSize: int) returns (pageOptions: seq<string>)
    ensures dataSize >= 0 ==> 10 * |pageOptions| - 10 < dataSize <= 10 * |pageOptions|
    ensures dataSize < 0 ==> |pageOptions| == if dataSize > -10 then 1 else 0
    ensures forall i | 0 <= i < |pageOptions| :: pageOptions[i] == PageLabel(i + 1)
  {
    pageOptions := [];
    var pageNum := TruncDiv(dataSize, 10);
    var overPageNum := TruncRem(dataSize, 10);
    var last := if overPageNum != 0 then pageNum + 1 else pageNum;
    var i := 1;
    while i <= last
      invariant 1 <= i && (i <= last + 1 || i == 1)
      invariant |pageOptions| == i - 1
      invariant forall j | 0 <= j < |pageOptions| :: pageOptions[j] == PageLabel(j + 1)
    {
      pageOptions := pageOptions + ["Page " + Dec(i)];
      i := i + 1;
    }
  }

  /**
   * getSublistByPage: the items of page `pageNumber` (counting from 1) of
   * pages of `pageSize` items; the last page may be short. The end index is
   * clipped to the list's size, so ArrayList.subList can only fail in two
   * ways: IndexOutOfBoundsException for a page starting before the list,
   * and IllegalArgumentException for one starting past its end or a
   * negative page size (the start is then after the end).
   */
  function SublistByPage<T>(originalList: seq<T>, pageNumber: int, pageSize: int): (r: Result<seq<T>>)
    ensures r.Ok? <==> 0 <= (pageNumber - 1) * pageSize <= |originalList| && pageSize >= 0
    ensures r.Err? ==> r.error == if (pageNumber - 1) * pageSize < 0 then IndexOutOfBounds else IllegalArgument
    ensures r.Ok? ==> var start := (pageNumber - 1) * pageSize;
                      && |r.value| == (if start + pageSize <= |originalList| then pageSize else |originalList| - start)
                      && forall i | 0 <= i < |r.value| :: r.value[i] == originalList[start + i]
  {
    var size := |originalList|;
    var startIndex := (pageNumber - 1) * pageSize;
    var endIndex := if startIndex + pageSize < size then startIndex + pageSize else size;
    if startIndex < 0 then Err(IndexOutOfBounds)
    else if startIndex > endIndex then Err(IllegalArgument)
    else Ok(originalList[startIndex..endIndex])
  }

  /** Past the end, and with a negative size, the request is an illegal argument; before the start, out of bounds. */
  lemma SublistByPageErrors()
    ensures SublistByPage(seq(25, i => i + 1), 4, 10) == Err(IllegalArgument)
    ensures SublistByPage(seq(25, i => i + 1), 1, -5) == Err(IllegalArgument)
    ensures SublistByPage(seq(25, i => i + 1), 0, 10) == Err(IndexOutOfBounds)
  {
  }

  /** Page 3 of the numbers 1 to 25, ten to a page, is 21 to 25. */
  lemma SublistByPageExample()
    ensures SublistByPage(seq(25, i => i + 1), 3, 10) == Ok([21, 22, 23, 24, 25])
  {
    var list := seq(25, i => i + 1);
    var page := SublistByPage(list, 3, 10).value;
    assert |page| == 5;
    assert page[0] == 21 && page[1] == 22 && page[2] == 23 && page[3] == 24 && page[4] == 25;
    assert page == [21, 22, 23, 24, 25];
  }

  /** Pages 1 to k of a list, put back together (a page that cannot be taken adds nothing). */
  function FirstPages<T>(list: seq<T>, pageSize: int, k: nat): seq<T>
    requires pageSize > 0
  {
    if k == 0 then []
    else FirstPages(list, pageSize, k - 1) + (match SublistByPage(list, k, pageSize) case Ok(page) => page case Err(_) => [])
  }

  /** Pages 1 to k together are the first k * pageSize items (or the whole list, if shorter). */
  lemma {:induction false} FirstPagesPrefix<T>(list: seq<T>, pageSize: int, k: nat)
    requires pageSize > 0
    ensures FirstPages(list, pageSize, k) == list[..if k * pageSize <= |list| then k * pageSize else |list|]
  {
    if k > 0 {
      FirstPagesPrefix(list, pageSize, k - 1);
      var start := (k - 1) * pageSize;
      assert k * pageSize == start + pageSize;
      if start <= |list| {
        var page := SublistByPage(list, k, pageSize).value;
        var hi := if start + pageSize <= |list| then start + pageSize else |list|;
        assert page == list[start..hi];
        assert list[..start] + list[start..hi] == list[..hi];
      }
    }
  }

  /**
   * The pages generatePageOptions offers for a list of items cover it: with
   * k pages for n items (10k - 10 < n <= 10k), every page 1..k can be taken,
   * none is empty, and together they are the list, in order.
   */
  lemma OfferedPagesCoverList<T>(list: seq<T>, k: nat)
    requires 10 * k - 10 < |list| <= 10 * k
    ensures forall p | 1 <= p <= k :: SublistByPage(list, p, 10).Ok? && SublistByPage(list, p, 10).value != []
    ensures FirstPages(list, 10, k) == list
  {
    FirstPagesPrefix(list, 10, k);
  }

  // --------------------------------------------------------- chart scale

  /** The largest amount of a non-empty report (Stream.max over the values). */
  function MaxAmount(data: seq<Entry>): (m: int)
    requires |data| > 0
    ensures exists i | 0 <= i < |data| :: data[i].amount == m
    ensures forall i | 0 <= i < |data| :: data[i].amount <= m
  {
    if |data| == 1 then data[0].amount
    else
      var rest := MaxAmount(data[1..]);
      assert forall i | 1 <= i < |data| :: data[i] == data[1..][i - 1];
      if data[0].amount >= rest then data[0].amount else rest
  }

  /**
   * BigDecimal.divide(100, HALF_UP) of an integer: the nearest whole number of
   * hundreds, ties rounded away from zero.
   */
  function HundredsHalfUp(x: int): (q: int)
    ensures -50 <= x - 100 * q <= 50
    ensures x - 100 * q == 50 ==> x < 0
    ensures x - 100 * q == -50 ==> x > 0
  {
    if x >= 0 then (x + 50) / 100 else -((-x + 50) / 100)
  }

  /**
   * getScaleNum(data): the largest amount in hundreds, rounded half-up, plus
   * two. An empty report has no maximum and Optional.get throws.
   */
  function ScaleNum(data: seq<Entry>): (r: Result<int>)
    ensures r.Err? <==> data == []
    ensures r.Err? ==> r.error == NoSuchElement
    ensures r.Ok? ==> r.value == HundredsHalfUp(MaxAmount(data)) + 2
  {
    if data == [] then Err(NoSuchElement)
    else
      var maxProfit := MaxAmount(data);
      Ok(HundredsHalfUp(maxProfit) + 2)
  }

  /** The scale of a report whose largest amount is 250 is 5 (2.5 rounds up to 3). */
  lemma ScaleNumExample()
    ensures ScaleNum([Entry("A", 10), Entry("B", 250), Entry("C", 80)]) == Ok(5)
  {
    var data := [Entry("A", 10), Entry("B", 250), Entry("C", 80)];
    assert data[1].amount == 250;
    assert MaxAmount(data) == 250;
  }

  // -------------------------------------------------------- year choices

  /** The year choices from `from` on, `n` of them: each year's decimal text, ascending. */
  function YearOptions(from: int, n: nat): (years: seq<string>)
    ensures |years| == n
    ensures forall i | 0 <= i < n :: years[i] == IntText(from + i)
  {
    if n == 0 then [] else YearOptions(from, n - 1) + [IntText(from + n - 1)]
  }

  /**
   * generatePageOptionsForProfitLoss: the years from the company's
   * registration year to the current year, ascending, as text; none when
   * the registration year is later.
   */
  method GeneratePageOptionsForProfitLoss(registeredYear: int, currentYear: int) returns (pageOptions: seq<string>)
    ensures pageOptions == YearOptions(registeredYear, if registeredYear <= currentYear then currentYear - registeredYear + 1 else 0)
  {
    pageOptions := [];
    var year := registeredYear;
    while year <= currentYear
      invariant registeredYear <= year && (year <= currentYear + 1 || year == registeredYear)
      invariant pageOptions == YearOptions(registeredYear, year - registeredYear)
    {
      pageOptions := pageOptions + [IntText(year)];
      year := year + 1;
    }
  }
}
