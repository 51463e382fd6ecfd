/** The ledger: one row per broker transaction, with the columns every
    broker loader produces (Date, Action, Ticker, Qty, Price, Amount, Tax,
    Commission, Country, Currency, Type). Text columns stay strings because
    the pipelines compare them as strings. */
module Orders {
  import opened Calendar

  datatype Order = Order(
    date: Date,
    action: string,
    ticker: string,
    qty: real,
    price: real,
    amount: real,
    tax: real,
    commission: real,
    country: string,
    currency: string,
    kind: string)

  function OrderAmount(o: Order): real { o.amount }
}

/** `generate_mocking_orders`: the fourteen-row ledger the program's tests
    start from. It has no Tax, Commission or Type columns; here they are
    zero and empty. Row `i` is dated 2024-(3 + i mod 7)-(14 + i mod 15),
    and its Amount is its Qty times its Price. */
module Fixture {
  import opened Calendar
  import opened Orders

  const MockLedger: seq<Order> := [
    Order(19796, "Deposit", "GOOGL", 1.0, 1000.0, 1000.0, 0.0, 0.0, "Usa", "USD", ""),
    Order(19828, "Buy", "GOOGL", 8.0, 34.45, 275.6, 0.0, 0.0, "Usa", "USD", ""),
    Order(19859, "Dividend", "GOOGL", 1.0, 1.34, 1.34, 0.0, 0.0, "Usa", "USD", ""),
    Order(19891, "Buy", "GOOGL", 4.0, 32.5, 130.0, 0.0, 0.0, "Usa", "USD", ""),
    Order(19922, "Buy", "GOOGL", 10.0, 36.0, 360.0, 0.0, 0.0, "Usa", "USD", ""),
    Order(19954, "Sell", "GOOGL", 4.0, 35.4, 141.6, 0.0, 0.0, "Usa", "USD", ""),
    Order(19986, "Sell", "GOOGL", 8.0, 36.4, 291.2, 0.0, 0.0, "Usa", "USD", ""),
    Order(19803, "Buy", "APPL", 5.70, 107.48, 612.636, 0.0, 0.0, "Usa", "USD", ""),
    Order(19835, "Buy", "GOOGL", 10.0, 34.3, 343.0, 0.0, 0.0, "Usa", "USD", ""),
    Order(19866, "Sell", "APPL", 3.0, 134.6, 403.8, 0.0, 0.0, "Usa", "USD", ""),
    Order(19898, "Buy", "APPL", 10.5, 95.60, 1003.8, 0.0, 0.0, "Usa", "USD", ""),
    Order(19929, "Dividend", "GOOGL", 1.0, 1.92, 1.92, 0.0, 0.0, "Usa", "USD", ""),
    Order(19961, "Dividend", "APPL", 1.0, 2.75, 2.75, 0.0, 0.0, "Usa", "USD", ""),
    Order(19993, "Split", "GOOGL", 0.5, 0.0, 0.0, 0.0, 0.0, "Usa", "USD", "")
  ]

  function MockOrders(): (r: seq<Order>)
    ensures |r| == 14
  {
    MockLedger
  }

  /** A day of 2024, a leap year starting on day 19723. */
  lemma Day2024(m: int, d: int)
    ensures DaysFromCivil(Civil(2024, m, d)) == 19723 + DaysBeforeMonth(m, true) + d - 1
  {
  }

  /** Row `i` is dated 2024-(3 + i mod 7)-(14 + i mod 15). */
  lemma MockDates(i: nat)
    requires i < 14
    ensures MockOrders()[i].date == DaysFromCivil(Civil(2024, 3 + i % 7, 14 + i % 15))
  {
    assert i % 15 == i;
    if i < 7 {
      assert i % 7 == i;
      Day2024(3 + i, 14 + i);
      MockDatesEarly(i);
    } else {
      assert i % 7 == i - 7;
      Day2024(i - 4, 14 + i);
      MockDatesLate(i);
    }
  }

  lemma MockDatesEarly(i: nat)
    requires i < 7
    ensures MockOrders()[i].date == 19723 + DaysBeforeMonth(3 + i, true) + 13 + i
  {
    if i == 0 {} else if i == 1 {} else if i == 2 {} else if i == 3 {} else if i == 4 {} else if i == 5 {} else {}
  }

  lemma MockDatesLate(i: nat)
    requires 7 <= i < 14
    ensures MockOrders()[i].date == 19723 + DaysBeforeMonth(i - 4, true) + 13 + i
  {
    if i == 7 {} else if i == 8 {} else if i == 9 {} else if i == 10 {} else if i == 11 {} else if i == 12 {} else {}
  }

  /** Every row's Amount is its Qty times its Price, and every row is a
      US-dollar row of a US company. */
  lemma MockAmounts(o: Order)
    requires o in MockOrders()
    ensures o.amount == o.qty * o.price
    ensures o.currency == "USD" && o.country == "Usa"
  {
  }
}
