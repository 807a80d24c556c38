/**
 * The page logic around the store: the category glyph table, the list view
 * of the current month's expenses, and the form submit that adds a record.
 */
module View {
  import opened Wrappers
  import opened Expenses
  import opened Storage

  /** The glyph shown for each of the six form categories. */
  const CategoryEmojis: map<string, string> := map[
    "comida" := "\U{1F354}",
    "transporte" := "\U{1F697}",
    "entretenimiento" := "\U{1F3AC}",
    "salud" := "\U{1F48A}",
    "hogar" := "\U{1F3E0}",
    "otros" := "\U{1F4E6}"
  ]

  /**
   * The glyph text shown for `category`: its entry in the table, or the text
   * "undefined" that a missing entry renders as.
   */
  function Glyph(category: string): string
  {
    if category in CategoryEmojis then CategoryEmojis[category] else "undefined"
  }

  /** Each of the six categories has its fixed glyph, and there are no others. */
  lemma GlyphOfEachCategory()
    ensures CategoryEmojis.Keys == {"comida", "transporte", "entretenimiento", "salud", "hogar", "otros"}
    ensures Glyph("comida") == "\U{1F354}" && Glyph("transporte") == "\U{1F697}"
    ensures Glyph("entretenimiento") == "\U{1F3AC}" && Glyph("salud") == "\U{1F48A}"
    ensures Glyph("hogar") == "\U{1F3E0}" && Glyph("otros") == "\U{1F4E6}"
    ensures Glyph("") == "undefined"
  {
  }

  /** The label of a record: its note when there is one, otherwise its category. */
  function Label(e: Expense): string
  {
    if e.note != "" then e.note else e.category
  }

  /**
   * One line of the list: glyph, label, the day and 0-based month of the
   * short date, and the amount.
   */
  datatype Item = Item(glyph: string, text: string, day: int, month: int, amount: int)

  /** What the list shows: the empty-state message, or one item per record. */
  datatype ListView = EmptyState | Items(items: seq<Item>)

  /** The item a record is shown as. */
  function ItemOf(e: Expense): Item
  {
    Item(Glyph(e.category), Label(e), e.date.day, e.date.month, e.amount)
  }

  /** The items for `order`, one per record and in the same order. */
  function RenderItems(order: seq<Expense>): (items: seq<Item>)
    ensures |items| == |order|
    ensures forall i :: 0 <= i < |order| ==>
      (order[i].note != "" ==> items[i].text == order[i].note) &&
      (order[i].note == "" ==> items[i].text == order[i].category)
    ensures forall i :: 0 <= i < |order| ==>
      (order[i].category in CategoryEmojis ==> items[i].glyph == CategoryEmojis[order[i].category]) &&
      (order[i].category !in CategoryEmojis ==> items[i].glyph == "undefined")
    ensures forall i :: 0 <= i < |order| ==>
      items[i].day == order[i].date.day && items[i].month == order[i].date.month &&
      items[i].amount == order[i].amount
  {
    seq(|order|, i requires 0 <= i < |order| => ItemOf(order[i]))
  }

  /** Exchanges the records at `j - 1` and `j`. */
  method Swap(a: array<Expense>, j: int)
    requires 0 < j < a.Length
    modifies a
    ensures a[j - 1] == old(a[j]) && a[j] == old(a[j - 1])
    ensures forall k :: 0 <= k < a.Length && k != j - 1 && k != j ==> a[k] == old(a[k])
    ensures multiset(a[..]) == multiset(old(a[..]))
  {
    a[j - 1], a[j] := a[j], a[j - 1];
  }

  /**
   * Moves the record at `i` towards the front past every earlier-dated one,
   * so that the first `i + 1` records become ordered most recent first.
   */
  method SinkIntoPlace(a: array<Expense>, i: int)
    requires 0 <= i < a.Length
    requires forall p, q :: 0 <= p < q < i ==> a[q].date.time <= a[p].date.time
    modifies a
    ensures forall p, q :: 0 <= p < q <= i ==> a[q].date.time <= a[p].date.time
    ensures forall k :: i < k < a.Length ==> a[k] == old(a[k])
    ensures multiset(a[..]) == multiset(old(a[..]))
  {
    var j := i;
    while j > 0 && a[j - 1].date.time < a[j].date.time
      invariant 0 <= j <= i
      invariant forall p, q :: 0 <= p < q <= i && p != j && q != j ==> a[q].date.time <= a[p].date.time
      invariant forall q :: j < q <= i ==> a[q].date.time <= a[j].date.time
      invariant forall k :: i < k < a.Length ==> a[k] == old(a[k])
      invariant multiset(a[..]) == multiset(old(a[..]))
    {
      Swap(a, j);
      j := j - 1;
    }
  }

  /** Sorts `a` in place by date, most recent first. */
  method SortByDateDesc(a: array<Expense>)
    modifies a
    ensures DescendingByDate(a[..])
    ensures multiset(a[..]) == multiset(old(a[..]))
  {
    var i := 0;
    while i < a.Length
      invariant 0 <= i <= a.Length
      invariant forall p, q :: 0 <= p < q < i ==> a[q].date.time <= a[p].date.time
      invariant multiset(a[..]) == multiset(old(a[..]))
    {
      SinkIntoPlace(a, i);
      i := i + 1;
    }
  }

  /**
   * Builds the list of the month `now`: the empty state when the store holds
   * no record of that month, otherwise one item per such record, most recent
   * first. `order` is the sorted copy of the month's records, as shown.
   */
  method DisplayExpenses(store: ExpenseStorage, now: YearMonth) returns (view: ListView, order: seq<Expense>)
    ensures view == EmptyState <==> CurrentMonth(store.Contents(), now) == []
    ensures |order| == |CurrentMonth(store.Contents(), now)|
    ensures multiset(order) == multiset(CurrentMonth(store.Contents(), now))
    ensures DescendingByDate(order)
    ensures view.Items? ==> view.items == RenderItems(order)
  {
    var expenses := store.GetCurrentMonthExpenses(now);
    if |expenses| == 0 {
      view, order := EmptyState, [];
      return;
    }
    var a := new Expense[|expenses|](i requires 0 <= i < |expenses| => expenses[i]);
    assert a[..] == expenses;
    SortByDateDesc(a);
    order := a[..];
    assert |multiset(order)| == |order|;
    view := Items(RenderItems(a[..]));
  }

  /**
   * A form submit: stores one new record built from the form's amount,
   * category and note, with id `clock` and date `at`, then recomputes the
   * month total for `totalNow` and the list for `listNow`. These are the four
   * readings of the clock the submit makes, so the total and the list may
   * be of different months when a submit straddles a month boundary.
   */
  method HandleFormSubmit(store: ExpenseStorage, amount: int, category: string, note: string,
                          clock: int, at: Timestamp, totalNow: YearMonth, listNow: YearMonth)
    returns (total: int, view: ListView, order: seq<Expense>)
    modifies store
    ensures store.slot == Some(old(store.Contents()) + [Expense(clock, amount, category, note, at)])
    ensures total == MonthTotal(store.Contents(), totalNow)
    ensures view == EmptyState <==> CurrentMonth(store.Contents(), listNow) == []
    ensures |order| == |CurrentMonth(store.Contents(), listNow)|
    ensures multiset(order) == multiset(CurrentMonth(store.Contents(), listNow))
    ensures DescendingByDate(order)
    ensures view.Items? ==> view.items == RenderItems(order)
  {
    var expense := Expense(clock, amount, category, note, at);
    var _ := store.AddExpense(expense);
    total := store.GetMonthTotal(totalNow);
    view, order := DisplayExpenses(store, listNow);
  }
}

/**
 * A client: one record dated in the previous month and one dated this month;
 * only this month's record is counted and listed.
 */
module Scenarios {
  import opened Expenses
  import opened Storage
  import opened View

  const Now := YearMonth(2026, 9)
  // Noon UTC on 30 September and on 1 October 2026, read in a UTC time zone.
  const Earlier := Expense(1790769600000, 1000, "transporte", "taxi", Timestamp(1790769600000, 2026, 8, 30))
  const Today := Expense(1790856000000, 2000, "comida", "", Timestamp(1790856000000, 2026, 9, 1))

  /** Of the two records only this month's one is in the month, and the total is its amount. */
  lemma TwoRecordMonth()
    ensures CurrentMonth([Earlier, Today], Now) == [Today]
    ensures MonthTotal([Earlier, Today], Now) == 2000
  {
    assert [Earlier, Today] == [Earlier] + [Today];
    CurrentMonthAppend([Earlier], [Today], Now);
    assert CurrentMonth([Earlier], Now) == [];
    assert CurrentMonth([Today], Now) == [Today];
    assert Total([Today]) == 2000;
  }

  /** A list that holds just the record `Today` shows one item, labelled by its category. */
  lemma OneRecordView(view: ListView, order: seq<Expense>)
    requires view != EmptyState
    requires multiset(order) == multiset{Today}
    requires view.Items? ==> view.items == RenderItems(order)
    ensures view.Items? && |view.items| == 1 && view.items[0].text == "comida"
  {
    assert |order| == 1;
    assert order[0] in multiset(order);
  }

  method PreviousMonthExcluded() returns (total: int, view: ListView)
    ensures total == 2000
    ensures view.Items? && |view.items| == 1 && view.items[0].text == "comida"
  {
    var store := new ExpenseStorage();
    var _ := store.AddExpense(Earlier);
    assert store.Contents() == [Earlier];
    assert [Earlier] + [Today] == [Earlier, Today];
    TwoRecordMonth();
    var order;
    total, view, order := HandleFormSubmit(store, 2000, "comida", "", 1790856000000, Timestamp(1790856000000, 2026, 9, 1), Now, Now);
    assert store.slot.value == [Earlier, Today];
    assert multiset(CurrentMonth(store.Contents(), Now)) == multiset{Today};
    OneRecordView(view, order);
  }
}
