/** The rows of the supermarket sales dataset, as the dashboard loads them
  once at start-up: the columns the aggregation reads, already typed.
 */
module Sales {
  import opened Ordering

  /** A calendar date; the dataset's dates carry no time of day. */
  datatype Date = Date(year: int, month: int, day: int)

  /** One sale. */
  datatype Record = Record(
    city: string,
    gender: string,
    payment: string,
    productLine: string,
    date: Date,
    grossIncome: real,
    rating: real)

  /** Chronological order of dates. */
  predicate DateLess(a: Date, b: Date) {
    || a.year < b.year
    || (a.year == b.year && a.month < b.month)
    || (a.year == b.year && a.month == b.month && a.day < b.day)
  }

  lemma DateLessIsStrictTotalOrder()
    ensures StrictTotalOrder(DateLess)
  {
  }

  // The grouping keys and the analysed columns, as functions of a row.

  function CityOf(r: Record): (c: string) { r.city }
  function PaymentOf(r: Record): (p: string) { r.payment }
  function GenderCityOf(r: Record): (k: (string, string)) { (r.gender, r.city) }
  function ProductCityOf(r: Record): (k: (string, string)) { (r.productLine, r.city) }
  function DateOf(r: Record): (d: Date) { r.date }
  function GrossIncomeOf(r: Record): (g: real) { r.grossIncome }
  function RatingOf(r: Record): (x: real) { r.rating }
}
