# my-accounting-app service core, modelled in Dafny

This project models three service classes of the my-accounting-app Spring
application. Each one is written in Dafny and proved against a specification.

- **Product service** (`products.dfy`, module `Products`). The product
  repository is a `map<int, Product>` field of a `ProductService` class, and
  its methods change it in place. Covered:
  - looking a product up;
  - updating a product while keeping its stock;
  - soft-deleting a product that is out of stock and on no invoice;
  - decreasing stock (refused when it would go negative) and increasing stock;
  - checking, on create and on update, that a product name is unique within
    its category and company; the errors go into a `BindingResult`;
  - the low-stock alert raised for an invoice.

  Each method is tied to a pure function of the old repository contents
  (`DecreasedStock`, `Updated`, `SoftDeleted`, `NameErrorsOnUpdate`, ...). The
  properties are proved about those functions.
- **Reporting service** (`month_keys.dfy` and `reporting.dfy`, modules
  `MonthKeys` and `Reporting`). Covered:
  - both month-key generators ("since signup" and "within a year");
  - building the profit/loss entry lists and their "yyyy MMMM" upper-case
    labels;
  - page labels and page slicing;
  - the chart scale;
  - the list of year choices.

  Each key generator loop is proved equal to `KeysAbove`. That recursive
  function describes the keys: descending, one calendar month apart, all after
  the lower bound.
- **Payment service** (`payments.dfy`, module `Payments`). The payment
  repository is a `seq<Payment>` field. `GenerateMonthlyPayments` appends
  twelve unpaid payments at the monthly fee for every company except the
  platform owner "CYDEO", company by company and month by month.

Supporting modules:

- `dates.dfy`: `java.time.LocalDate`'s `minusMonths(1)`, `withMonth` and
  `isBefore`, with day-of-month clamping.
- `text.dfy`: decimal rendering, `Collectors.joining` and ASCII upper-casing.
- `errors.dfy`: one constructor per exception the services throw, plus
  `Result`/`Outcome` wrappers.
- `seqs.dfy`: two facts about sequence concatenation that the loop proofs use.

Some inputs are parameters rather than collaborators:

- "today" (`LocalDate.now()`);
- the logged-in user's company id;
- repository contents;
- the profit/loss figures, which come from invoice queries outside these
  classes and are passed in as functions.

Some behaviour of the code is worth knowing before reading the model:

- **A key for the month before signup.** A company that signed up on 2023-03-15 gets
  two keys on 2023-03-20: 2023-03-20 and 2023-02-20 (see Findings).
- **Signup 2022-01-10, today 2023-06-01.** The since-signup generator gives
  18 keys, from 2023-06-01 back to 2022-01-01 (`SinceSignupExample`).
- **Bad page bounds.** `getSublistByPage` does not return an empty page; it
  throws. `SublistByPage` returns `Err(IndexOutOfBounds)` for a page starting
  before the list and `Err(IllegalArgument)` for one starting past its end or
  a negative page size, as `ArrayList.subList` does.
- **Payment schedule.** `generateMonthlyPayments` is scheduled on the first
  of every month and again at every application start, and every run
  appends a full year of payments again (`GenerateTwice`).

## Model

| member | source | states |
|---|---|---|
| Dates.MinusOneMonth | src/main/java/com/cydeo/service/impl/ReportingServiceImpl.java:103-105 | minusMonths(1) gives a valid date exactly one calendar month earlier. It keeps the day, or clamps it to that month's last day, and is before the original date. |
| Dates.WithMonth | src/main/java/com/cydeo/service/impl/PaymentServiceImpl.java:42 | withMonth(m) keeps the year, sets the month, and keeps the day or clamps it to the month's length. |
| Dates.IsBeforeMonthIndex | src/main/java/com/cydeo/service/impl/ReportingServiceImpl.java:129 | isBefore agrees with calendar-month order: an earlier month is before, and "before" never goes to a later month. |
| MonthKeys.KeysAbove | src/main/java/com/cydeo/service/impl/ReportingServiceImpl.java:103-106 | The keys of a walk back from hi while lo is before the date reached. Empty iff lo is not before hi. Otherwise hi comes first, every key is valid, after lo and not later in its month than hi's day, key i is i months before hi, and one more step would no longer be after lo. |
| MonthKeys.KeysStep | src/main/java/com/cydeo/service/impl/ReportingServiceImpl.java:105 | Each key is the previous key moved back one month. |
| MonthKeys.KeysDescending | src/main/java/com/cydeo/service/impl/ReportingServiceImpl.java:105 | Keys are in strictly descending date order. |
| MonthKeys.KeysCount | src/main/java/com/cydeo/service/impl/ReportingServiceImpl.java:103-106 | There are between M(hi)-M(lo) and M(hi)-M(lo)+1 keys, where M is the month index. |
| MonthKeys.KeysDayFloor | src/main/java/com/cydeo/service/impl/ReportingServiceImpl.java:103-106 | minusMonths(1) only clamps to a month's length, so no key's day falls below hi's day or 28, whichever is smaller. |
| MonthKeys.KeysOf2021 | src/main/java/com/cydeo/service/impl/ReportingServiceImpl.java:126-132 | The walk from 2021-12-31 with bound 2021-01-01 gives exactly 12 keys, the last on 2021-01-28. |
| MonthKeys.KeysCountNoDayOverhang | src/main/java/com/cydeo/service/impl/ReportingServiceImpl.java:129-132 | When hi's day is not after lo's day, lo's own month gets no key: exactly M(hi)-M(lo) keys. |
| MonthKeys.KeysPeel | src/main/java/com/cydeo/service/impl/ReportingServiceImpl.java:104-105 | One loop step: emitting the date reached and stepping back leaves emitted-plus-remaining keys unchanged. |
| MonthKeys.WalkBack | src/main/java/com/cydeo/service/impl/ReportingServiceImpl.java:129-132 | The shared while loop returns exactly KeysAbove(lo, hi). |
| MonthKeys.MonthKeysSinceSignup | src/main/java/com/cydeo/service/impl/ReportingServiceImpl.java:94-108 | mapKeyGenerator(signup) returns KeysAbove(signup minus one month, today). |
| MonthKeys.YearWindow | src/main/java/com/cydeo/service/impl/ReportingServiceImpl.java:111-127 | The three branches choose the start independently of the end. The start is signup minus one month when that falls in the target year, else January 1. The end is today in the current year, else December 31. Both are valid and in the target year. |
| MonthKeys.MonthKeysForYear | src/main/java/com/cydeo/service/impl/ReportingServiceImpl.java:110-135 | mapKeyGenerator(signup, year) returns KeysAbove of the year window. |
| MonthKeys.YearKeysWithinYear | src/main/java/com/cydeo/service/impl/ReportingServiceImpl.java:110-135 | The year keys number at most 12 and all lie in the target year. None is after today in the current year. When that year is not before signup's previous month, all keys are after it. |
| MonthKeys.SinceSignupExample | src/main/java/com/cydeo/service/impl/ReportingServiceImpl.java:94-108 | Signup 2022-01-10 seen on 2023-06-01: 18 keys, first 2023-06-01, last January 2022. |
| MonthKeys.KeysFromMonth | src/main/java/com/cydeo/service/impl/ReportingServiceImpl.java:103-106 | Corrected walk: one key per calendar month from hi's month down to a given month index. It has exactly that many keys, key i is i months before hi, and key 0 is hi. |
| MonthKeys.IntendedKeysSinceSignup | src/main/java/com/cydeo/service/impl/ReportingServiceImpl.java:94-108 | Corrected since-signup keys: key i is i months before today's month, every key lies between signup's month and today's, and the count is exactly the number of months in that range (none when signup is later): one key per month. |
| MonthKeys.IntendedKeysForYear | src/main/java/com/cydeo/service/impl/ReportingServiceImpl.java:110-135 | Corrected year keys: one key per month of the target year, from January (or the signup month, if later) to the window's end: key i is i months before the window's end's month, all are in the year, and the count is exact. |
| MonthKeys.SinceSignupKeyBeforeSignup | src/main/java/com/cydeo/service/impl/ReportingServiceImpl.java:103 | As written: signup 2023-03-15 gets a February 2023 key on 2023-03-20 but not on 2023-03-10. The corrected version gives one key. |
| MonthKeys.YearKeysMissJanuary | src/main/java/com/cydeo/service/impl/ReportingServiceImpl.java:126-129 | As written: in 2024 on March 1 the year keys are March and February only. |
| MonthKeys.YearKeysKeepJanuaryNextDay | src/main/java/com/cydeo/service/impl/ReportingServiceImpl.java:126-129 | As written: a day later (March 2) the year keys include January. |
| MonthKeys.IntendedYearKeysKeepJanuary | src/main/java/com/cydeo/service/impl/ReportingServiceImpl.java:110-135 | Corrected: on March 1, 2024 the year keys are March, February and January. |
| MonthKeys.YearKeysBeforeSignupYear | src/main/java/com/cydeo/service/impl/ReportingServiceImpl.java:120-127 | For a year before signup (signup 2023-05-10, year 2021) the code walks the whole calendar year: exactly 12 keys, from 2021-12-31 down to 2021-01-28. The corrected version gives none. |
| Reporting.MonthLabelShape | src/main/java/com/cydeo/service/impl/ReportingServiceImpl.java:65-72 | For years 1-9999, a label is the four-digit year, a space and the upper-case English month name. |
| Reporting.MonthLabelInjective | src/main/java/com/cydeo/service/impl/ReportingServiceImpl.java:65-72 | Two keys with the same label are in the same year and month. |
| Reporting.MonthlyProfitLossByKeys | src/main/java/com/cydeo/service/impl/ReportingServiceImpl.java:60-75 | One entry per key, in key order. Each entry is the key's month label and that month's profit/loss for the company. |
| Reporting.ProductProfitLossList | src/main/java/com/cydeo/service/impl/ReportingServiceImpl.java:77-92 | One entry per listed product, in list order: its name and its profit/loss. |
| Reporting.TruncDiv | src/main/java/com/cydeo/service/impl/ReportingServiceImpl.java:140 | Java int division rounds toward zero: for a non-negative dividend the remainder a - b*q lies in [0, b), for a negative one in (-b, 0]. |
| Reporting.TruncRem | src/main/java/com/cydeo/service/impl/ReportingServiceImpl.java:141 | Java int remainder: dividend = divisor * quotient + remainder. The remainder takes the dividend's sign and is smaller than the divisor. |
| Reporting.GeneratePageOptions | src/main/java/com/cydeo/service/impl/ReportingServiceImpl.java:138-153 | Labels "Page 1".."Page k", where k is the least page count with 10k >= dataSize (ceil(n/10)). A negative size gives one page from -9 to -1, else none. |
| Reporting.SublistByPage | src/main/java/com/cydeo/service/impl/ReportingServiceImpl.java:154-163 | Succeeds iff the page start lies within the list and the size is non-negative. A start before the list gives IndexOutOfBounds; any other failure (start past the end, negative size) gives IllegalArgument. On success it returns the items from the start, pageSize of them or up to the list's end. |
| Reporting.SublistByPageExample | src/main/java/com/cydeo/service/impl/ReportingServiceImpl.java:154-163 | Page 3 of 1..25 at ten per page is 21..25. |
| Reporting.SublistByPageErrors | src/main/java/com/cydeo/service/impl/ReportingServiceImpl.java:154-163 | For 25 items: page 4 of 10 and page 1 of -5 are illegal arguments, page 0 of 10 is out of bounds. |
| Reporting.FirstPagesPrefix | src/main/java/com/cydeo/service/impl/ReportingServiceImpl.java:154-163 | Pages 1..k put together are the list's first k*pageSize items. |
| Reporting.OfferedPagesCoverList | src/main/java/com/cydeo/service/impl/ReportingServiceImpl.java:138-163 | With the page count that generatePageOptions offers, every offered page can be taken and is non-empty. Together the pages are the whole list, in order. |
| Reporting.MaxAmount | src/main/java/com/cydeo/service/impl/ReportingServiceImpl.java:175-176 | The maximum of a non-empty report: one of its amounts, and no amount exceeds it. |
| Reporting.HundredsHalfUp | src/main/java/com/cydeo/service/impl/ReportingServiceImpl.java:177 | Divide by 100 with HALF_UP rounding: the nearest integer, with ties away from zero. |
| Reporting.ScaleNum | src/main/java/com/cydeo/service/impl/ReportingServiceImpl.java:174-180 | NoSuchElement iff the report is empty; otherwise the rounded hundreds of the maximum, plus 2. |
| Reporting.ScaleNumExample | src/main/java/com/cydeo/service/impl/ReportingServiceImpl.java:174-180 | Amounts 10, 250, 80 give scale 5. |
| Reporting.YearOptions | src/main/java/com/cydeo/service/impl/ReportingServiceImpl.java:187-190 | n year choices from a given year: entry i is the text of that year plus i. |
| Reporting.GeneratePageOptionsForProfitLoss | src/main/java/com/cydeo/service/impl/ReportingServiceImpl.java:183-192 | The result is YearOptions from the registration year, current - registered + 1 of them, or none when registration is later: every year from registration to now, ascending, as text. |
| Text.Dec | src/main/java/com/cydeo/service/impl/ReportingServiceImpl.java:144 | The text is a non-empty digit string whose value is n, with no leading zero ("0" for zero). |
| Text.DecInjective | src/main/java/com/cydeo/service/impl/ReportingServiceImpl.java:144 | Distinct page numbers get distinct texts. |
| Text.IntTextIsDecimal | src/main/java/com/cydeo/service/impl/ReportingServiceImpl.java:188 | IntText(i) starts with '-' exactly when i is negative; the rest is a digit string, without leading zero, whose value is the magnitude of i. |
| Text.IntTextInjective | src/main/java/com/cydeo/service/impl/ReportingServiceImpl.java:188 | Distinct years get distinct texts: the text can be read back. |
| Text.Join | src/main/java/com/cydeo/service/impl/ProductServiceImpl.java:186 | Joining no names gives "", and joining one name gives that name. |
| Text.ToUpper | src/main/java/com/cydeo/service/impl/ReportingServiceImpl.java:72 | Upper-casing keeps the length, turns each 'a'..'z' into its capital, keeps every other character, and leaves no lower-case ASCII letter. |
| Text.ToUpperConcat | src/main/java/com/cydeo/service/impl/ReportingServiceImpl.java:72 | Upper-casing distributes over concatenation. |
| Text.ToUpperIdempotent | src/main/java/com/cydeo/service/impl/ReportingServiceImpl.java:72 | Upper-casing twice is upper-casing once. |
| Products.LinesOfInvoice | src/main/java/com/cydeo/repository/InvoiceProductRepository.java:12 | findByInvoiceId: exactly the lines of that invoice. |
| Products.DecreasedStock | src/main/java/com/cydeo/service/impl/ProductServiceImpl.java:90-103 | Cases: an unknown product gives ProductNotFound; a decrease below zero gives NegativeQuantity; otherwise it succeeds. On success only that product's stock changes, to old minus quantity, and non-negative stock stays non-negative. |
| Products.IncreasedStock | src/main/java/com/cydeo/service/impl/ProductServiceImpl.java:106-115 | Fails iff the product is unknown. Otherwise only its stock changes, to old plus quantity, and non-negative stock stays non-negative for a non-negative quantity. |
| Products.IncreaseThenDecrease | src/main/java/com/cydeo/service/impl/ProductServiceImpl.java:90-115 | Increasing then decreasing by the same quantity restores the repository. |
| Products.DecreaseThenIncrease | src/main/java/com/cydeo/service/impl/ProductServiceImpl.java:90-115 | A successful decrease is undone by an increase of the same quantity. |
| Products.Updated | src/main/java/com/cydeo/service/impl/ProductServiceImpl.java:65-71 | An unknown id changes nothing. Otherwise the submitted product replaces the stored one but keeps the stored stock, and every other product is unchanged. |
| Products.SoftDeleted | src/main/java/com/cydeo/service/impl/ProductServiceImpl.java:74-87 | Nothing is removed and other products are unchanged. The product becomes deleted iff it was already deleted, or it has zero stock and no invoice line. |
| Products.NameErrorsOnCreate | src/main/java/com/cydeo/service/impl/ProductServiceImpl.java:139-151 | One "name" error iff the form has a category and the name already exists in that category of the company; otherwise none. |
| Products.NameErrorsOnUpdate | src/main/java/com/cydeo/service/impl/ProductServiceImpl.java:154-171 | The cases, in order: <br>• an unknown id gives NoSuchElement; <br>• a form category over a stored product without one gives NullReference; <br>• no form category gives no errors; <br>• otherwise the create check runs only when the name or the category description changed. |
| Products.UnchangedEditIsAccepted | src/main/java/com/cydeo/service/impl/ProductServiceImpl.java:139-171 | Resubmitting a product unchanged passes the update check, although the create check would reject its own name. |
| Products.BelowLowLimitNames | src/main/java/com/cydeo/service/impl/ProductServiceImpl.java:178-184 | Every name in the list belongs to a line below its low limit, and every such line's name is in it; empty iff no line is below. |
| Products.BelowLowLimitNamesAppend | src/main/java/com/cydeo/service/impl/ProductServiceImpl.java:178-184 | The names of two runs of lines are the first run's names followed by the second's: names are kept in line order, once per line. |
| Products.BelowLowLimitNamesOne | src/main/java/com/cydeo/service/impl/ProductServiceImpl.java:179-182 | One line contributes its product's name exactly when its stock is below its low limit. |
| Products.BindingResult.AddError | src/main/java/com/cydeo/service/impl/ProductServiceImpl.java:146-147 | Appends one field error. |
| Products.ProductService.FindById | src/main/java/com/cydeo/service/impl/ProductServiceImpl.java:42-46 | The stored product under that id, or ProductNotFound iff absent. |
| Products.ProductService.Update | src/main/java/com/cydeo/service/impl/ProductServiceImpl.java:65-71 | The new repository is Updated(old), and ids stay consistent. |
| Products.ProductService.Delete | src/main/java/com/cydeo/service/impl/ProductServiceImpl.java:74-87 | The new repository is SoftDeleted(old). |
| Products.ProductService.DecreaseProductQuantityInStock | src/main/java/com/cydeo/service/impl/ProductServiceImpl.java:90-103 | Passes with the repository DecreasedStock(old), or fails with its error and leaves the repository unchanged. |
| Products.ProductService.IncreaseProductQuantityInStock | src/main/java/com/cydeo/service/impl/ProductServiceImpl.java:106-115 | Passes with the repository IncreasedStock(old), or fails with ProductNotFound and leaves the repository unchanged. |
| Products.ProductService.AddProductNameValidation | src/main/java/com/cydeo/service/impl/ProductServiceImpl.java:139-151 | Appends exactly NameErrorsOnCreate to the binding result. |
| Products.ProductService.AddUpdateProductNameValidation | src/main/java/com/cydeo/service/impl/ProductServiceImpl.java:154-171 | Appends exactly NameErrorsOnUpdate's errors, or fails with its error without adding any. |
| Products.ProductService.CheckProductLowLimitAlert | src/main/java/com/cydeo/service/impl/ProductServiceImpl.java:174-191 | Passes iff no line of the invoice is below its low limit. Otherwise it fails with "Stock of <names joined by ', '> decreased below low limit!". |
| Payments.Ordinal | src/main/java/com/cydeo/service/impl/PaymentServiceImpl.java:38-42 | A month's ordinal is its position in values(). |
| Payments.Billable | src/main/java/com/cydeo/service/impl/PaymentServiceImpl.java:32 | removeIf keeps exactly the companies not titled "CYDEO", and no more of them than were listed. |
| Payments.BillableAppend | src/main/java/com/cydeo/service/impl/PaymentServiceImpl.java:32 | Filtering two runs of companies filters each in turn: order and every occurrence are kept. |
| Payments.BillableOne | src/main/java/com/cydeo/service/impl/PaymentServiceImpl.java:32 | A single company is kept exactly when it is not titled "CYDEO". |
| Payments.MonthlyPayment | src/main/java/com/cydeo/service/impl/PaymentServiceImpl.java:39-46 | The payment has this year, a fee of 250, unpaid, the month, the company, and the date withMonth(today, ordinal + 1): today's day clamped to that month. |
| Payments.YearOfPayments | src/main/java/com/cydeo/service/impl/PaymentServiceImpl.java:38-49 | Twelve payments, one per month in order. |
| Payments.PaymentsForLength | src/main/java/com/cydeo/service/impl/PaymentServiceImpl.java:37-50 | 12 payments per company. |
| Payments.PaymentAt | src/main/java/com/cydeo/service/impl/PaymentServiceImpl.java:37-50 | Payment 12i+m is company i's payment for month m. |
| Payments.PaymentsForFields | src/main/java/com/cydeo/service/impl/PaymentServiceImpl.java:37-50 | Every payment is for a listed company, this year, at the fee, unpaid, dated today moved to its month. |
| Payments.EveryCompanyBilled | src/main/java/com/cydeo/service/impl/PaymentServiceImpl.java:37-50 | Every listed company gets a payment. |
| Payments.GeneratedPayments | src/main/java/com/cydeo/service/impl/PaymentServiceImpl.java:30-51 | 12 payments per kept company and none for "CYDEO"; every non-owner company is billed; payment 12k+m is the k-th kept company's payment for month m. |
| Payments.TwoCompaniesExample | src/main/java/com/cydeo/service/impl/PaymentServiceImpl.java:30-51 | "CYDEO" plus one client gives exactly 12 payments, all for the client. |
| Payments.PaymentService.GenerateMonthlyPayments | src/main/java/com/cydeo/service/impl/PaymentServiceImpl.java:30-51 | The repository becomes the old records followed by PaymentsFor(Billable(companies), today). |
| Payments.GenerateTwice | src/main/java/com/cydeo/service/impl/PaymentServiceImpl.java:53-57 | Two runs append the same year of payments twice. Nothing prevents duplicates. |

## Left out

- listAllProducts, save, findProductsByCompanyAndHaveStock and getProductsByCategory: plain repository reads and writes through the DTO mapper, with no logic of their own.
- getMonthlyProfitLossListMap, its by-year variant and the parameterless getScaleNum: they only fetch the company and call the modelled operations.
- The invoice profit/loss queries: they are outside these classes and are parameters here.
- The DTO mapper (MapperUtil) and the ProductDTO / entity distinction: FindById returns the stored product itself.
- Security context lookups (the logged-in user's company): the company id is a parameter.
- LocalDate.now(): "today" is a parameter.
- Scheduling (@Scheduled, @EventListener): modelled only as repeated calls (GenerateTwice).
- Transactions, concurrency and lost updates on quantityInStock: not modelled.
- Java's 32-bit int overflow: quantities and sizes are unbounded integers.
- LocalDate's year range (±999999999): not modelled.
- Exception messages other than the low-limit alert's: the Error constructors carry no text.
- Null fields other than a missing category (null name, null description, null quantity): not modelled.
- Soft-delete query filters on the product repository: not modelled. No filter appears in the code of these classes.
- The low-limit check reads each line's product as loaded with the line; the model takes those product snapshots as given.
- Reporting.ScaleNum: amounts are integers taken at scale 0, not BigDecimal. Only scale-0 amounts are modelled: a fractional maximum (for example 249.5) is not, and neither is an integer amount stored with a scale, such as 250.00, for which divide(…, HALF_UP) keeps scale 2, gives 2.50, and intValue() truncates it to 2 (scale 4 instead of 5 for amounts 10, 250.00 and 80). intValue()'s 32-bit truncation is ignored.
- Reporting.MonthLabelInjective: proved only for years 1 to 9999, where the label's year has exactly four digits.
- Text.ToUpper: upper-cases only ASCII letters. Labels contain no other letters under the English locale assumed here.
- Text.Join: states only the empty and one-element cases; longer lists are given by its definition.

## Findings

| source | as written | input that shows it | evidently intended | confidence | as-written member | corrected member |
|---|---|---|---|---|---|---|
| src/main/java/com/cydeo/service/impl/ReportingServiceImpl.java:103 | keys are emitted while signup minus one month is before the date reached, so the month before signup gets a key whenever the walk reaches that month on a day after signup-minus-one-month's day | signup 2023-03-15, today 2023-03-20 gives keys 2023-03-20 and 2023-02-20; with today 2023-03-10 only 2023-03-10 | one key per calendar month from the signup month to today's month (here only 2023-03) | not executed | MonthKeys.SinceSignupKeyBeforeSignup | MonthKeys.IntendedKeysSinceSignup |
| src/main/java/com/cydeo/service/impl/ReportingServiceImpl.java:126-129 | the year walk starts at January 1 and stops as soon as January 1 is not before the date reached, so January is dropped when today's day is the 1st | signup 2020-05-10, year 2024, today 2024-03-01 gives 2024-03-01 and 2024-02-01 (no January); today 2024-03-02 gives March, February and January | every month of the target year from January (or the signup month) to the window's end: 2024-03, 2024-02, 2024-01. The corrected version also gives no keys for a year before signup, where the code walks the whole year (signup 2023-05-10, year 2021: from 2021-12-31 down; MonthKeys.YearKeysBeforeSignupYear); the year choices offered start at the registration year | not executed | MonthKeys.YearKeysMissJanuary | MonthKeys.IntendedKeysForYear |
