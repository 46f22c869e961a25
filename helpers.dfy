/**
 The data helpers of the money tracker's services layer: the month table of the
 statistics selector, the list of transaction years and the USD/EUR quote table
 built from a currency-rate feed.
 */
module Helpers {
  import opened Wrappers
  import opened StringSort

  // ---------------------------------------------------------------------------
  // Month options
  // ---------------------------------------------------------------------------

  /** A month option; `title` holds the option's `label` (a reserved word in Dafny). */
  datatype MonthOption = MonthOption(value: int, title: string)

  /** The options of the month selector, January to December. */
  function OptionsMonth(): (months: seq<MonthOption>)
    ensures |months| == 12
    ensures forall i :: 0 <= i < |months| ==> months[i].value == i + 1
  {
    [ MonthOption(1, "January"), MonthOption(2, "February"), MonthOption(3, "March"),
      MonthOption(4, "April"), MonthOption(5, "May"), MonthOption(6, "June"),
      MonthOption(7, "July"), MonthOption(8, "August"), MonthOption(9, "September"),
      MonthOption(10, "October"), MonthOption(11, "November"), MonthOption(12, "December") ]
  }

  // ---------------------------------------------------------------------------
  // Transaction years
  // ---------------------------------------------------------------------------

  /**
   The year of a transaction date: its first four characters, or the whole date
   when it is shorter (`slice(0, 4)` clamps its end instead of failing).
   */
  function GetYear(date: string): (year: string)
    ensures |year| == if |date| < 4 then |date| else 4
    ensures year == date[..|year|]
  {
    if |date| < 4 then date else date[..4]
  }

  /** `y` is the year of some transaction among the first `n`. */
  ghost predicate YearAmong(y: string, dates: seq<string>, n: int)
    requires n <= |dates|
  {
    exists k :: 0 <= k < n && GetYear(dates[k]) == y
  }

  /**
   The distinct years of the transactions, ascending. `dates` holds the
   `transactionDate` of every fetched transaction, in the order fetched.
   */
  method GetAllYears(dates: seq<string>) returns (years: seq<string>)
    ensures StrictlySorted(years)
    ensures NoDuplicates(years)
    ensures forall y :: y in years <==> YearAmong(y, dates, |dates|)
    ensures |years| <= |dates|
  {
    var collected: seq<string> := [];
    for i := 0 to |dates|
      invariant NoDuplicates(collected)
      invariant forall y :: y in collected <==> YearAmong(y, dates, i)
      invariant |collected| <= i
    {
      var year := GetYear(dates[i]);
      if year !in collected {
        collected := collected + [year];
      }
      assert forall y :: YearAmong(y, dates, i + 1) <==> YearAmong(y, dates, i) || y == year;
    }
    years := SortStrings(collected);
    SortKeepsDistinct(collected, years);
    forall y
      ensures y in years <==> y in collected
    {
      assert y in years <==> y in multiset(years);
      assert y in collected <==> y in multiset(collected);
    }
  }

  /**
   The years are fixed by the set of transaction years alone: two transaction
   lists with the same years give the same result, whatever their order.
   */
  lemma YearsDetermined(dates: seq<string>, dates': seq<string>, years: seq<string>, years': seq<string>)
    requires StrictlySorted(years) && StrictlySorted(years')
    requires forall y :: y in years <==> YearAmong(y, dates, |dates|)
    requires forall y :: y in years' <==> YearAmong(y, dates', |dates'|)
    requires forall y :: YearAmong(y, dates, |dates|) <==> YearAmong(y, dates', |dates'|)
    ensures years == years'
  {
    StrictlySortedUnique(years, years');
  }

  /** Three transactions in two years give those two years, in ascending order. */
  method YearsOfSampleTransactions() returns (years: seq<string>)
    ensures years == ["2021", "2022"]
  {
    var dates := ["2022-05-01", "2022-11-03", "2021-01-01"];
    years := GetAllYears(dates);
    assert GetYear(dates[0]) == "2022" && GetYear(dates[2]) == "2021";
    forall y
      ensures y in years <==> y in ["2021", "2022"]
    {
      assert YearAmong(y, dates, |dates|) ==> y == "2022" || y == "2021";
    }
    assert StrictlySorted(["2021", "2022"]) by {
      assert StrLe("2021", "2022");
    }
    StrictlySortedUnique(years, ["2021", "2022"]);
  }

  // ---------------------------------------------------------------------------
  // Currency quotes
  // ---------------------------------------------------------------------------

  /** One element of the rate feed. */
  datatype Rate = Rate(rateBuy: real, rateSell: real)

  /** One row of the quote table; `buy` and `sell` are absent until they are set. */
  datatype Quote = Quote(currency: string, buy: Option<string>, sell: Option<string>)

  /**
   What the quote table build ends in: the table, or the index whose row does not
   exist (assigning a property of `undefined` throws a TypeError).
   */
  datatype MonoResult = Parsed(quotes: seq<Quote>) | MissingSlot(index: nat)

  /** The currency named by row `i` of the quote table. */
  function SlotCurrency(i: nat): string
  {
    if i == 0 then "USD" else "EUR"
  }

  /**
   Builds the two-row USD/EUR table and fills row `idx` from `arr[idx]`, in
   place. `format` is the two-decimal number formatting.
   */
  method ParseMono(arr: seq<Rate>, format: real -> string) returns (r: MonoResult)
    ensures r.Parsed? <==> |arr| <= 2
    ensures r.MissingSlot? ==> r.index == 2
    ensures r.Parsed? ==> |r.quotes| == 2
    ensures r.Parsed? ==> forall i :: 0 <= i < |r.quotes| ==> r.quotes[i].currency == SlotCurrency(i)
    ensures r.Parsed? ==> forall i :: 0 <= i < |arr| ==>
      r.quotes[i].buy == Some(format(arr[i].rateBuy)) && r.quotes[i].sell == Some(format(arr[i].rateSell))
    ensures r.Parsed? ==> forall i :: |arr| <= i < |r.quotes| ==>
      r.quotes[i].buy == None && r.quotes[i].sell == None
  {
    var rez := new Quote[2];
    rez[0] := Quote("USD", None, None);
    rez[1] := Quote("EUR", None, None);
    for idx := 0 to |arr|
      invariant idx <= rez.Length
      invariant forall i :: 0 <= i < rez.Length ==> rez[i].currency == SlotCurrency(i)
      invariant forall i :: 0 <= i < idx ==>
        rez[i].buy == Some(format(arr[i].rateBuy)) && rez[i].sell == Some(format(arr[i].rateSell))
      invariant forall i :: idx <= i < rez.Length ==> rez[i].buy == None && rez[i].sell == None
    {
      if idx >= rez.Length {
        return MissingSlot(idx);
      }
      rez[idx] := rez[idx].(buy := Some(format(arr[idx].rateBuy)));
      rez[idx] := rez[idx].(sell := Some(format(arr[idx].rateSell)));
    }
    r := Parsed(rez[..]);
  }

  /**
   The quote table from the rate feed `data`: only its first two elements are
   passed on, so the table is always built, whatever the length of the feed.
   */
  method GetCurrency(data: seq<Rate>, format: real -> string) returns (quotes: seq<Quote>)
    ensures |quotes| == 2
    ensures forall i :: 0 <= i < |quotes| ==> quotes[i].currency == SlotCurrency(i)
    ensures forall i :: 0 <= i < |quotes| && i < |data| ==>
      quotes[i].buy == Some(format(data[i].rateBuy)) && quotes[i].sell == Some(format(data[i].rateSell))
    ensures forall i :: |data| <= i < |quotes| ==> quotes[i].buy == None && quotes[i].sell == None
  {
    var head := data[..if |data| < 2 then |data| else 2];
    var r := ParseMono(head, format);
    quotes := r.quotes;
  }
}
