/**
 * The monthly payment generator: twelve unpaid subscription payments of the
 * current year for every company except the platform owner.
 */
module Payments {
  import opened Dates
  import opened Seqs

  /** The Months enum, whose values() are January to December in that order. */
  datatype Month = JANUARY | FEBRUARY | MARCH | APRIL | MAY | JUNE
                 | JULY | AUGUST | SEPTEMBER | OCTOBER | NOVEMBER | DECEMBER

  const MonthValues: seq<Month> :=
    [JANUARY, FEBRUARY, MARCH, APRIL, MAY, JUNE, JULY, AUGUST, SEPTEMBER, OCTOBER, NOVEMBER, DECEMBER]

  /** The enum's ordinal: its position in values(). */
  function Ordinal(m: Month): (k: nat)
    ensures k < 12 && MonthValues[k] == m
  {
    match m
    case JANUARY => 0 case FEBRUARY => 1 case MARCH => 2 case APRIL => 3
    case MAY => 4 case JUNE => 5 case JULY => 6 case AUGUST => 7
    case SEPTEMBER => 8 case OCTOBER => 9 case NOVEMBER => 10 case DECEMBER => 11
  }

  datatype Company = Company(id: int, title: string)

  datatype Payment = Payment(year: int, amount: int, paymentDate: Date, paid: bool,
                             month: Month, company: Company)

  /** The title of the platform owner, which pays no subscription. */
  const PlatformOwner: string := "CYDEO"

  /** The monthly subscription fee. */
  const MonthlyFee: int := 250

  /** companies.removeIf(title equals "CYDEO"): the others, in their order. */
  function Billable(companies: seq<Company>): (r: seq<Company>)
    ensures |r| <= |companies|
    ensures forall c :: c in r <==> c in companies && c.title != PlatformOwner
  {
    if companies == [] then []
    else Billable(companies[..|companies| - 1])
         + (if companies[|companies| - 1].title != PlatformOwner then [companies[|companies| - 1]] else [])
  }

  /** removeIf keeps order and every occurrence: filtering two runs of companies filters each in turn. */
  lemma {:induction false} BillableAppend(a: seq<Company>, b: seq<Company>)
    ensures Billable(a + b) == Billable(a) + Billable(b)
    decreases |b|
  {
    if b == [] {
      assert a + b == a;
    } else {
      var front := b[..|b| - 1];
      assert (a + b)[..|a + b| - 1] == a + front;
      assert (a + b)[|a + b| - 1] == b[|b| - 1];
      BillableAppend(a, front);
    }
  }

  /** A single company is kept exactly when it is not the platform owner. */
  lemma BillableOne(c: Company)
    ensures Billable([c]) == if c.title != PlatformOwner then [c] else []
  {
    assert [c][..0] == [];
  }

  /** The payment for one company and month: this year, the fee, unpaid, dated today moved to that month. */
  function MonthlyPayment(company: Company, month: Month, today: Date): (p: Payment)
    requires Valid(today)
    ensures p.year == today.year && p.amount == MonthlyFee && !p.paid
    ensures p.month == month && p.company == company
    ensures Valid(p.paymentDate) && p.paymentDate.year == today.year
    ensures p.paymentDate == WithMonth(today, Ordinal(month) + 1)
    ensures p.paymentDate.month == Ordinal(month) + 1
    ensures p.paymentDate.day <= today.day
  {
    Payment(today.year, MonthlyFee, WithMonth(today, Ordinal(month) + 1), false, month, company)
  }

  /** One company's payments, in month order. */
  function YearOfPayments(company: Company, today: Date): (ps: seq<Payment>)
    requires Valid(today)
    ensures |ps| == 12
    ensures forall m | 0 <= m < 12 :: ps[m] == MonthlyPayment(company, MonthValues[m], today)
  {
    seq(12, m requires 0 <= m < 12 => MonthlyPayment(company, MonthValues[m], today))
  }

  /** The payments for a list of companies: company by company, each in month order. */
  function PaymentsFor(companies: seq<Company>, today: Date): seq<Payment>
    requires Valid(today)
  {
    if companies == [] then []
    else PaymentsFor(companies[..|companies| - 1], today) + YearOfPayments(companies[|companies| - 1], today)
  }

  lemma {:induction false} PaymentsForLength(companies: seq<Company>, today: Date)
    requires Valid(today)
    ensures |PaymentsFor(companies, today)| == 12 * |companies|
  {
    if companies != [] {
      PaymentsForLength(companies[..|companies| - 1], today);
    }
  }

  /** Payments are saved company by company, each in month order: payment 12 * i + m is company i's for month m. */
  lemma {:induction false} PaymentAt(companies: seq<Company>, today: Date, i: int, m: int)
    requires Valid(today) && 0 <= i < |companies| && 0 <= m < 12
    ensures |PaymentsFor(companies, today)| == 12 * |companies|
    ensures PaymentsFor(companies, today)[12 * i + m] == MonthlyPayment(companies[i], MonthValues[m], today)
  {
    var front := companies[..|companies| - 1];
    PaymentsForLength(companies, today);
    PaymentsForLength(front, today);
    if i < |front| {
      PaymentAt(front, today, i, m);
      assert front[i] == companies[i];
    }
  }

  /** Every payment is for one of the listed companies and has this year, the fee, unpaid, and today's date moved to its month. */
  lemma {:induction false} PaymentsForFields(companies: seq<Company>, today: Date)
    requires Valid(today)
    ensures forall p | p in PaymentsFor(companies, today) ::
              && p.company in companies
              && p.year == today.year && p.amount == MonthlyFee && !p.paid
              && p.paymentDate == WithMonth(today, Ordinal(p.month) + 1)
  {
    if companies != [] {
      var front := companies[..|companies| - 1];
      PaymentsForFields(front, today);
      var last := YearOfPayments(companies[|companies| - 1], today);
      assert PaymentsFor(companies, today) == PaymentsFor(front, today) + last;
      forall p | p in PaymentsFor(companies, today)
        ensures p.company in companies
        ensures p.year == today.year && p.amount == MonthlyFee && !p.paid
        ensures p.paymentDate == WithMonth(today, Ordinal(p.month) + 1)
      {
        if p in PaymentsFor(front, today) {
          assert p.company in front;
        } else {
          var m :| 0 <= m < 12 && last[m] == p;
          assert p == MonthlyPayment(companies[|companies| - 1], MonthValues[m], today);
        }
      }
    }
  }

  /** Some payment in ps is for company c. */
  predicate HasPaymentFor(ps: seq<Payment>, c: Company)
  {
    exists i | 0 <= i < |ps| :: ps[i].company == c
  }

  /** Every listed company gets a payment (its January one, at 12 times its position). */
  lemma {:induction false} EveryCompanyBilled(companies: seq<Company>, today: Date)
    requires Valid(today)
    ensures forall c | c in companies :: HasPaymentFor(PaymentsFor(companies, today), c)
  {
    var ps := PaymentsFor(companies, today);
    forall c | c in companies
      ensures HasPaymentFor(ps, c)
    {
      var k :| 0 <= k < |companies| && companies[k] == c;
      PaymentAt(companies, today, k, 0);
      assert ps[12 * k].company == c;
    }
  }

  /**
   * What one run generates: 12 payments per company other than the platform
   * owner, none for the owner, 12 times the number of such companies in all,
   * the kept companies' twelve months one company after another.
   */
  lemma GeneratedPayments(companies: seq<Company>, today: Date)
    requires Valid(today)
    ensures var ps := PaymentsFor(Billable(companies), today);
            && |ps| == 12 * |Billable(companies)|
            && (forall p | p in ps :: p.company in companies && p.company.title != PlatformOwner)
            && (forall c | c in companies && c.title != PlatformOwner :: HasPaymentFor(ps, c))
            && (forall k, m | 0 <= k < |Billable(companies)| && 0 <= m < 12 ::
                  ps[12 * k + m] == MonthlyPayment(Billable(companies)[k], MonthValues[m], today))
  {
    var billable := Billable(companies);
    PaymentsForLength(billable, today);
    forall k, m | 0 <= k < |billable| && 0 <= m < 12
      ensures PaymentsFor(billable, today)[12 * k + m] == MonthlyPayment(billable[k], MonthValues[m], today)
    {
      PaymentAt(billable, today, k, m);
    }
    PaymentsForFields(billable, today);
    EveryCompanyBilled(billable, today);
  }

  /** Two companies, one of them the platform owner: exactly the other's twelve payments. */
  lemma TwoCompaniesExample(owner: Company, client: Company, today: Date)
    requires Valid(today) && owner.title == PlatformOwner && client.title != PlatformOwner
    ensures var ps := PaymentsFor(Billable([owner, client]), today);
            |ps| == 12 && forall p | p in ps :: p.company == client
  {
    assert [owner, client][..1] == [owner];
    assert Billable([owner]) == Billable([]) + [];
    assert Billable([owner, client]) == [client];
    PaymentsForLength([client], today);
    PaymentsForFields([client], today);
  }

  /** PaymentServiceImpl over the payment repository, which only ever grows. */
  class PaymentService {
    /** The payment repository's records, in the order they were saved. */
    var payments: seq<Payment>

    constructor (initial: seq<Payment>)
      ensures payments == initial
    {
      payments := initial;
    }

    /**
     * generateMonthlyPayments: appends twelve payments per company other than
     * the platform owner, company by company, in month order; existing
     * records are left as they were.
     */
    method GenerateMonthlyPayments(allCompanies: seq<Company>, today: Date)
      requires Valid(today)
      modifies this
      ensures payments == old(payments) + PaymentsFor(Billable(allCompanies), today)
    {
      var companies: seq<Company> := [];
      for k := 0 to |allCompanies|
        invariant companies == Billable(allCompanies[..k])
        invariant payments == old(payments)
      {
        BillableStep(allCompanies, k);
        if allCompanies[k].title != PlatformOwner {
          companies := companies + [allCompanies[k]];
        }
      }
      assert allCompanies[..|allCompanies|] == allCompanies;

      var currentDate := today;
      var currentYear := currentDate.year;
      assert companies[..0] == [];
      assert old(payments) + [] == old(payments);
      for ci := 0 to |companies|
        invariant payments == old(payments) + PaymentsFor(companies[..ci], today)
      {
        var company := companies[ci];
        ghost var before := payments;
        ghost var year := YearOfPayments(company, today);
        for mi := 0 to |MonthValues|
          invariant payments == before + year[..mi]
        {
          var month := MonthValues[mi];
          var payment := Payment(currentYear, MonthlyFee, WithMonth(currentDate, Ordinal(month) + 1),
                                 false, month, company);
          assert payment == year[mi];
          AppendNext(before, year, mi);
          payments := payments + [payment];
        }
        assert year[..12] == year;
        PaymentsForStep(companies, ci, today);
        AppendAssoc(old(payments), PaymentsFor(companies[..ci], today), year);
      }
      assert companies[..|companies|] == companies;
    }
  }

  /**
   * Nothing stops a second run in the same year: it appends the same
   * payments again, so every generated payment is then stored twice.
   */
  method GenerateTwice(service: PaymentService, companies: seq<Company>, today: Date)
    requires Valid(today)
    modifies service
    ensures service.payments
         == old(service.payments) + PaymentsFor(Billable(companies), today) + PaymentsFor(Billable(companies), today)
  {
    service.GenerateMonthlyPayments(companies, today);
    service.GenerateMonthlyPayments(companies, today);
  }

  lemma BillableStep(companies: seq<Company>, k: int)
    requires 0 <= k < |companies|
    ensures Billable(companies[..k + 1])
         == Billable(companies[..k]) + (if companies[k].title != PlatformOwner then [companies[k]] else [])
  {
    assert companies[..k + 1][..k] == companies[..k];
  }

  lemma PaymentsForStep(companies: seq<Company>, k: int, today: Date)
    requires Valid(today) && 0 <= k < |companies|
    ensures PaymentsFor(companies[..k + 1], today) == PaymentsFor(companies[..k], today) + YearOfPayments(companies[k], today)
  {
    assert companies[..k + 1][..k] == companies[..k];
  }
}
