/**
 * The `quotes` table of the combined quotation tool (comb.py) and the three
 * operations on it: saving a quote under a freshly generated quote number,
 * looking a quote up by its number, and listing a client's quotes.
 *
 * The database is an in-memory sequence of records in storage (row id)
 * order. The random quote number, and whether the database commits or
 * answers a query, come from outside and are parameters.
 */
module Quotes {

  import opened Wrappers
  import opened QuoteItems

  /** A calendar date, kept as given. */
  datatype Date = Date(year: int, month: int, day: int)

  /** One row of the `quotes` table. `remarks` is the one nullable column. */
  datatype Quote = Quote(
    id: int,
    quoteNumber: string,
    clientName: string,
    quoteDate: Date,
    items: seq<LineItem>,
    shippingCost: real,
    totalCost: real,
    shippingTime: string,
    shippingMethod: string,
    remarks: Option<string>,
    discount: real)

  /** The unique constraint on `quote_number`. */
  predicate UniqueNumbers(rows: seq<Quote>)
  {
    forall i, j :: 0 <= i < j < |rows| ==> rows[i].quoteNumber != rows[j].quoteNumber
  }

  /**
   * Inserting a row keeps the unique constraint exactly when its number is
   * not yet in the table.
   */
  lemma UniqueNumbersAppend(rows: seq<Quote>, q: Quote)
    ensures UniqueNumbers(rows + [q]) <==> UniqueNumbers(rows) && !HasNumber(rows, q.quoteNumber)
  {
    var all := rows + [q];
    assert forall i :: 0 <= i < |rows| ==> all[i] == rows[i];
    assert all[|rows|] == q;
  }

  /** Row ids are positive and grow in storage order (an integer primary key). */
  predicate IdsIncreasing(rows: seq<Quote>)
  {
    && (forall i :: 0 <= i < |rows| ==> rows[i].id >= 1)
    && (forall i, j :: 0 <= i < j < |rows| ==> rows[i].id < rows[j].id)
  }

  /** The invariant every state of the table satisfies. */
  predicate WellFormed(rows: seq<Quote>)
  {
    UniqueNumbers(rows) && IdsIncreasing(rows)
  }

  /** Whether some row carries the quote number `number`. */
  predicate HasNumber(rows: seq<Quote>, number: string)
  {
    exists i :: 0 <= i < |rows| && rows[i].quoteNumber == number
  }

  /** The row id the next insert receives: one past the largest id in use. */
  function NextId(rows: seq<Quote>): (id: int)
    requires IdsIncreasing(rows)
    ensures id >= 1
    ensures forall i :: 0 <= i < |rows| ==> rows[i].id < id
  {
    if rows == [] then 1 else rows[|rows| - 1].id + 1
  }

  /**
   * The position of the first row, in storage order, whose quote number is
   * `number`, or `None` when no row has it.
   */
  function FirstWithNumber(rows: seq<Quote>, number: string): (r: Option<nat>)
    ensures r.Some? ==> r.value < |rows| && rows[r.value].quoteNumber == number
    ensures r.Some? ==> forall j :: 0 <= j < r.value ==> rows[j].quoteNumber != number
    ensures r.None? <==> !HasNumber(rows, number)
  {
    if rows == [] then None
    else if rows[0].quoteNumber == number then Some(0)
    else match FirstWithNumber(rows[1..], number)
      case None =>
        assert forall i :: 1 <= i < |rows| ==> rows[i] == rows[1..][i - 1];
        None
      case Some(k) =>
        assert rows[k + 1] == rows[1..][k];
        assert forall j :: 1 <= j < k + 1 ==> rows[j] == rows[1..][j - 1];
        Some(k + 1)
  }

  /** The lookup by quote number: the first matching row, or not found. */
  function QuoteByNumber(rows: seq<Quote>, number: string): (r: Option<Quote>)
    ensures r.None? <==> !HasNumber(rows, number)
    ensures r.Some? ==> r.value in rows && r.value.quoteNumber == number
    ensures r.Some? ==>
      exists k :: 0 <= k < |rows| && rows[k] == r.value && (forall j :: 0 <= j < k ==> rows[j].quoteNumber != number)
  {
    match FirstWithNumber(rows, number)
    case None => None
    case Some(k) => Some(rows[k])
  }

  /** Under the unique constraint, the row found by number is the only row with that number. */
  lemma OnlyMatch(rows: seq<Quote>, number: string)
    requires UniqueNumbers(rows)
    ensures QuoteByNumber(rows, number).Some? ==>
      forall i :: 0 <= i < |rows| && rows[i].quoteNumber == number ==> rows[i] == QuoteByNumber(rows, number).value
  {
    match FirstWithNumber(rows, number)
    case None =>
    case Some(k) =>
      assert forall i :: 0 <= i < |rows| && rows[i].quoteNumber == number ==> i == k;
  }

  /** The lookup by client name: every row whose client name is exactly `name`, in storage order. */
  function QuotesByClient(rows: seq<Quote>, name: string): (r: seq<Quote>)
    ensures forall q :: q in r <==> q in rows && q.clientName == name
    ensures r == [] <==> forall i :: 0 <= i < |rows| ==> rows[i].clientName != name
    ensures |r| <= |rows|
  {
    if rows == [] then []
    else
      var rest := QuotesByClient(rows[1..], name);
      assert forall q :: q in rows <==> q == rows[0] || q in rows[1..];
      assert forall i :: 1 <= i < |rows| ==> rows[i] == rows[1..][i - 1];
      if rows[0].clientName == name then [rows[0]] + rest else rest
  }

  /**
   * Storage order: a row added at the end shows up at the end of its
   * client's list, and no other client's list changes.
   */
  lemma {:induction false} QuotesByClientAppend(rows: seq<Quote>, q: Quote, name: string)
    ensures QuotesByClient(rows + [q], name)
         == QuotesByClient(rows, name) + (if q.clientName == name then [q] else [])
  {
    if rows == [] {
      assert rows + [q] == [q];
    } else {
      assert (rows + [q])[0] == rows[0];
      assert (rows + [q])[1..] == rows[1..] + [q];
      QuotesByClientAppend(rows[1..], q, name);
    }
  }

  /** A quote whose number is new to the table is found by its number once appended. */
  lemma AppendedIsFound(rows: seq<Quote>, q: Quote)
    requires !HasNumber(rows, q.quoteNumber)
    ensures QuoteByNumber(rows + [q], q.quoteNumber) == Some(q)
  {
    var all := rows + [q];
    assert all[|rows|] == q;
    assert HasNumber(all, q.quoteNumber);
    assert forall i :: 0 <= i < |rows| ==> all[i] == rows[i];
  }

  /** What the save button leads to: a form missing required fields, a rolled-back save, or a saved quote. */
  datatype SubmitOutcome = MissingFields | SaveFailed | Saved(quoteNumber: string)

  /** The answer of a query, or the storage error raised while running it. */
  datatype Fetch<T> = Fetched(value: T) | StorageError

  /** The `quotes` table: its rows in storage order. Rows are only ever appended. */
  class QuoteTable {

    var quotes: seq<Quote>

    ghost predicate Valid()
      reads this
    {
      WellFormed(quotes)
    }

    /** Connects to a table that already holds `existing` (empty on first use). */
    constructor Open(existing: seq<Quote>)
      requires WellFormed(existing)
      ensures Valid() && quotes == existing
    {
      quotes := existing;
    }

    /**
     * Saves a quote under the generated number `quoteNumber`. The insert is
     * committed when the database commits (`commitSucceeds`) and the unique
     * constraint holds; then one new row with the given fields is appended
     * and its number returned. Otherwise the transaction is rolled back: no
     * row is added and `None` is returned.
     */
    method Save(clientName: string, quoteDate: Date, items: seq<LineItem>,
                shippingCost: real, totalCost: real, shippingTime: string,
                shippingMethod: string, remarks: Option<string>, discount: real,
                quoteNumber: string, commitSucceeds: bool) returns (r: Option<string>)
      requires Valid()
      modifies this
      ensures Valid()
      ensures r.Some? <==> commitSucceeds && !HasNumber(old(quotes), quoteNumber)
      ensures r.Some? ==> r.value == quoteNumber
      ensures r.Some? ==> quotes == old(quotes) + [Quote(NextId(old(quotes)), quoteNumber, clientName,
          quoteDate, items, shippingCost, totalCost, shippingTime, shippingMethod, remarks, discount)]
      ensures r.Some? ==> QuoteByNumber(quotes, quoteNumber) == Some(quotes[|quotes| - 1])
      ensures r.Some? ==>
        QuotesByClient(quotes, clientName) == QuotesByClient(old(quotes), clientName) + [quotes[|quotes| - 1]]
      ensures r.None? ==> quotes == old(quotes)
    {
      var quote := Quote(NextId(quotes), quoteNumber, clientName, quoteDate, items,
                         shippingCost, totalCost, shippingTime, shippingMethod, remarks, discount);
      if commitSucceeds && !HasNumber(quotes, quoteNumber) {
        assert UniqueNumbers(quotes + [quote]) by { UniqueNumbersAppend(quotes, quote); }
        AppendedIsFound(quotes, quote);
        QuotesByClientAppend(quotes, quote, clientName);
        quotes := quotes + [quote];
        r := Some(quoteNumber);
      } else {
        r := None;
      }
    }

    /**
     * The lookup by quote number: the first row with that number (under the
     * unique constraint, the only one), not found, or a storage error.
     */
    method FindByNumber(number: string, readSucceeds: bool) returns (r: Fetch<Option<Quote>>)
      requires Valid()
      ensures r.StorageError? <==> !readSucceeds
      ensures r.Fetched? ==> (r.value.None? <==> !HasNumber(quotes, number))
      ensures r.Fetched? && r.value.Some? ==>
        forall i :: 0 <= i < |quotes| && quotes[i].quoteNumber == number ==> quotes[i] == r.value.value
      ensures r.Fetched? && r.value.Some? ==> r.value.value in quotes && r.value.value.quoteNumber == number
    {
      if readSucceeds {
        OnlyMatch(quotes, number);
        r := Fetched(QuoteByNumber(quotes, number));
      } else {
        r := StorageError;
      }
    }

    /**
     * The lookup by client name: all rows with exactly that client name in
     * storage order (empty when there are none), or a storage error.
     */
    method FindByClient(name: string, readSucceeds: bool) returns (r: Fetch<seq<Quote>>)
      ensures r.StorageError? <==> !readSucceeds
      ensures r.Fetched? ==> r.value == QuotesByClient(quotes, name)
    {
      if readSucceeds {
        r := Fetched(QuotesByClient(quotes, name));
      } else {
        r := StorageError;
      }
    }

    /**
     * The save button: a quote is saved only with a client name and at least
     * one item, with the total computed from the items and a stored discount
     * of 10%; the saved row's total agrees with its items, discount and
     * shipping.
     */
    method SubmitQuote(clientName: string, quoteDate: Date, items: seq<LineItem>,
                       shippingCost: real, shippingTime: string, shippingMethod: string,
                       remarks: string, quoteNumber: string, commitSucceeds: bool)
      returns (outcome: SubmitOutcome)
      requires Valid()
      modifies this
      ensures Valid()
      ensures outcome.MissingFields? <==> clientName == [] || items == []
      ensures outcome.Saved? <==>
        clientName != [] && items != [] && commitSucceeds && !HasNumber(old(quotes), quoteNumber)
      ensures outcome.Saved? ==> outcome.quoteNumber == quoteNumber
      ensures outcome.Saved? ==> quotes == old(quotes) + [Quote(NextId(old(quotes)), quoteNumber,
          clientName, quoteDate, items, shippingCost, ComputeTotals(items, shippingCost).totalCost,
          shippingTime, shippingMethod, Some(remarks), SaveDiscount)]
      ensures outcome.Saved? ==> var saved := quotes[|quotes| - 1];
        saved.totalCost == Subtotal(saved.items) * (1.0 - saved.discount) + saved.shippingCost
      ensures !outcome.Saved? ==> quotes == old(quotes)
    {
      if clientName != [] && |items| > 0 {
        var totalCost := ComputeTotals(items, shippingCost).totalCost;
        var r := Save(clientName, quoteDate, items, shippingCost, totalCost, shippingTime,
                      shippingMethod, Some(remarks), SaveDiscount, quoteNumber, commitSucceeds);
        outcome := if r.Some? then Saved(r.value) else SaveFailed;
      } else {
        outcome := MissingFields;
      }
    }
  }
}
