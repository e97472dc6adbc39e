/**
 * Line items and their sums. An `ExpenseItem` is a named amount; the
 * amounts are exact reals standing for Swift's `Double`.
 */
module Amounts {

  /** One line of a list: a free-form label and the amount parsed for it. */
  datatype ExpenseItem = ExpenseItem(name: string, amount: real)

  /**
   * `items.reduce(acc) { $0 + $1.amount }`: a left fold, adding the
   * amounts to the accumulator from the first item to the last.
   */
  function Reduce(acc: real, items: seq<ExpenseItem>): real
    decreases |items|
  {
    if items == [] then acc else Reduce(acc + items[0].amount, items[1..])
  }

  /** A category's total: the fold started from 0. */
  function SumAmounts(items: seq<ExpenseItem>): real
  {
    Reduce(0.0, items)
  }

  /**
   * The plain reading of "the sum of the amounts": the first amount plus
   * the sum of the rest. Used as an independent reference for the fold.
   */
  function SumOfAll(items: seq<ExpenseItem>): real
  {
    if items == [] then 0.0 else items[0].amount + SumOfAll(items[1..])
  }

  /** The reference sum splits over a concatenation. */
  lemma {:induction false} SumOfAllConcat(a: seq<ExpenseItem>, b: seq<ExpenseItem>)
    ensures SumOfAll(a + b) == SumOfAll(a) + SumOfAll(b)
    decreases |a|
  {
    if a == [] {
      assert a + b == b;
    } else {
      assert (a + b)[1..] == a[1..] + b;
      SumOfAllConcat(a[1..], b);
    }
  }

  /**
   * Folding from any start value adds the sum of the amounts to it: the
   * order in which the fold adds them does not matter in exact arithmetic.
   */
  lemma {:induction false} ReduceIsSum(acc: real, items: seq<ExpenseItem>)
    ensures Reduce(acc, items) == acc + SumOfAll(items)
    decreases |items|
  {
    if items != [] {
      ReduceIsSum(acc + items[0].amount, items[1..]);
    }
  }

  /** A category's total is the reference sum of its amounts. */
  lemma FoldIsSum(items: seq<ExpenseItem>)
    ensures SumAmounts(items) == SumOfAll(items)
  {
    ReduceIsSum(0.0, items);
  }

  /** Appending one item adds exactly its amount to the category's total. */
  lemma SumAppend(items: seq<ExpenseItem>, item: ExpenseItem)
    ensures SumAmounts(items + [item]) == SumAmounts(items) + item.amount
  {
    FoldIsSum(items);
    FoldIsSum(items + [item]);
    SumOfAllConcat(items, [item]);
    assert SumOfAll([item]) == item.amount + SumOfAll([]);
  }

  /** The total of two lists taken as one is the sum of their totals. */
  lemma SumConcat(a: seq<ExpenseItem>, b: seq<ExpenseItem>)
    ensures SumAmounts(a + b) == SumAmounts(a) + SumAmounts(b)
  {
    FoldIsSum(a);
    FoldIsSum(b);
    FoldIsSum(a + b);
    SumOfAllConcat(a, b);
  }

  /** `totalAmount`: the three category totals added together. */
  function Total(expenses: seq<ExpenseItem>, loans: seq<ExpenseItem>,
                 creditCardPayments: seq<ExpenseItem>): real
  {
    SumAmounts(expenses) + SumAmounts(loans) + SumAmounts(creditCardPayments)
  }

  /**
   * The total is the sum of every amount in the three lists taken as one
   * list, whatever the order in which the folds add them up.
   */
  lemma TotalIsSumOfAllItems(expenses: seq<ExpenseItem>, loans: seq<ExpenseItem>,
                             creditCardPayments: seq<ExpenseItem>)
    ensures Total(expenses, loans, creditCardPayments)
         == SumOfAll(expenses + loans + creditCardPayments)
  {
    FoldIsSum(expenses);
    FoldIsSum(loans);
    FoldIsSum(creditCardPayments);
    SumOfAllConcat(expenses, loans);
    SumOfAllConcat(expenses + loans, creditCardPayments);
  }

  /** Appending an item to any one of the three lists adds its amount to the total. */
  lemma TotalAfterAppend(expenses: seq<ExpenseItem>, loans: seq<ExpenseItem>,
                         creditCardPayments: seq<ExpenseItem>, item: ExpenseItem)
    ensures Total(expenses + [item], loans, creditCardPayments)
         == Total(expenses, loans, creditCardPayments) + item.amount
    ensures Total(expenses, loans + [item], creditCardPayments)
         == Total(expenses, loans, creditCardPayments) + item.amount
    ensures Total(expenses, loans, creditCardPayments + [item])
         == Total(expenses, loans, creditCardPayments) + item.amount
  {
    SumAppend(expenses, item);
    SumAppend(loans, item);
    SumAppend(creditCardPayments, item);
  }
}
