/**
 * The expense store: one persisted slot named 'expenses' holding the whole
 * list of records, read in full and rewritten in full, and the monthly
 * aggregation over what it holds.
 */
module Storage {
  import opened Wrappers
  import opened Expenses

  /**
   * The records of `s` that fall in the month `now`, in stored order
   * (an order-preserving filter).
   */
  function CurrentMonth(s: seq<Expense>, now: YearMonth): (r: seq<Expense>)
    ensures |r| <= |s|
    ensures forall i :: 0 <= i < |r| ==> InMonth(r[i], now)
    ensures forall e :: e in r <==> e in s && InMonth(e, now)
  {
    if s == [] then []
    else (if InMonth(s[0], now) then [s[0]] else []) + CurrentMonth(s[1..], now)
  }

  /** The sum of the amounts, accumulated left to right from 0. */
  function Total(s: seq<Expense>): int
  {
    if s == [] then 0 else Total(s[..|s| - 1]) + s[|s| - 1].amount
  }

  /** The month total: the amounts of the records of month `now`, summed. */
  function MonthTotal(s: seq<Expense>, now: YearMonth): int
  {
    Total(CurrentMonth(s, now))
  }

  /** Filtering distributes over concatenation: the filter keeps the stored order. */
  lemma {:induction false} CurrentMonthAppend(s: seq<Expense>, t: seq<Expense>, now: YearMonth)
    ensures CurrentMonth(s + t, now) == CurrentMonth(s, now) + CurrentMonth(t, now)
  {
    if s == [] {
      assert s + t == t;
    } else {
      assert (s + t)[1..] == s[1..] + t;
      CurrentMonthAppend(s[1..], t, now);
    }
  }

  /**
   * Each record occurs in the filtered list exactly as often as it is stored
   * when it falls in month `now`, and never otherwise.
   */
  lemma {:induction false} CurrentMonthCount(s: seq<Expense>, now: YearMonth, e: Expense)
    ensures multiset(CurrentMonth(s, now))[e] == if InMonth(e, now) then multiset(s)[e] else 0
  {
    if s != [] {
      assert s == [s[0]] + s[1..];
      CurrentMonthCount(s[1..], now, e);
    }
  }

  /** A list whose records all fall in month `now` is left as it is. */
  lemma {:induction false} CurrentMonthOfMonthOnly(s: seq<Expense>, now: YearMonth)
    requires forall i :: 0 <= i < |s| ==> InMonth(s[i], now)
    ensures CurrentMonth(s, now) == s
  {
    if s != [] {
      CurrentMonthOfMonthOnly(s[1..], now);
    }
  }

  /** The total of a concatenation is the sum of the totals. */
  lemma {:induction false} TotalAppend(s: seq<Expense>, t: seq<Expense>)
    ensures Total(s + t) == Total(s) + Total(t)
  {
    if t == [] {
      assert s + t == s;
    } else {
      var t' := t[..|t| - 1];
      assert (s + t)[..|s + t| - 1] == s + t';
      assert (s + t)[|s + t| - 1] == t[|t| - 1];
      TotalAppend(s, t');
    }
  }

  /** The month total of no records of month `now` is 0. */
  lemma {:induction false} MonthTotalOfNone(s: seq<Expense>, now: YearMonth)
    requires forall i :: 0 <= i < |s| ==> !InMonth(s[i], now)
    ensures CurrentMonth(s, now) == []
    ensures MonthTotal(s, now) == 0
  {
    if s != [] {
      MonthTotalOfNone(s[1..], now);
    }
  }

  /**
   * Appending one record changes the month total by its amount when it falls
   * in month `now`, and leaves the total unchanged otherwise.
   */
  lemma MonthTotalAfterAppend(s: seq<Expense>, e: Expense, now: YearMonth)
    ensures MonthTotal(s + [e], now) == MonthTotal(s, now) + (if InMonth(e, now) then e.amount else 0)
  {
    CurrentMonthAppend(s, [e], now);
    assert CurrentMonth([e], now) == if InMonth(e, now) then [e] else [];
    TotalAppend(CurrentMonth(s, now), CurrentMonth([e], now));
  }

  /**
   * The store. `slot` stands for the persisted 'expenses' slot: `None` when
   * nothing was ever saved, otherwise the list it holds (serialisation to
   * text and back is taken to be the identity).
   */
  class ExpenseStorage {
    var slot: Option<seq<Expense>>

    /** A store over storage where the slot has never been written. */
    constructor ()
      ensures slot == None
    {
      slot := None;
    }

    /** What the slot holds: an absent slot reads as the empty list. */
    function Contents(): seq<Expense>
      reads this
    {
      slot.GetOr([])
    }

    /** Reads the slot; an absent slot yields the empty list. Changes nothing. */
    method GetExpenses() returns (r: seq<Expense>)
      ensures slot == None ==> r == []
      ensures slot != None ==> r == slot.value
    {
      match slot
      case None => r := [];
      case Some(stored) => r := stored;
    }

    /**
     * Reads the whole list, appends `expense` and writes the whole list back;
     * returns the record it was given.
     */
    method AddExpense(expense: Expense) returns (r: Expense)
      modifies this
      ensures slot == Some(old(Contents()) + [expense])
      ensures |Contents()| == |old(Contents())| + 1
      ensures Contents()[|Contents()| - 1] == expense
      ensures forall i :: 0 <= i < |old(Contents())| ==> Contents()[i] == old(Contents())[i]
      ensures r == expense
    {
      var expenses := GetExpenses();
      expenses := expenses + [expense];
      slot := Some(expenses);
      r := expense;
    }

    /** The stored records of month `now`, in stored order. Changes nothing. */
    method GetCurrentMonthExpenses(now: YearMonth) returns (r: seq<Expense>)
      ensures r == CurrentMonth(Contents(), now)
      ensures forall i :: 0 <= i < |r| ==> InMonth(r[i], now)
    {
      var expenses := GetExpenses();
      r := CurrentMonth(expenses, now);
    }

    /** The sum of the amounts of the records of month `now`. Changes nothing. */
    method GetMonthTotal(now: YearMonth) returns (total: int)
      ensures total == MonthTotal(Contents(), now)
      ensures CurrentMonth(Contents(), now) == [] ==> total == 0
    {
      var monthExpenses := GetCurrentMonthExpenses(now);
      total := Total(monthExpenses);
    }
  }
}
