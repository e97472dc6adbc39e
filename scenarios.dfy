/**
 * Three sessions on the screen, driven the way the text boxes and buttons
 * drive it, with what the contracts alone say about the values shown.
 */
module Scenarios {
  import opened Wrappers
  import opened Amounts
  import opened ContentView

  /** Income 2000, then one item in each of the three lists. */
  method MonthWithIncome(parse: AmountParser) returns (total: real, remaining: real)
    requires parse("2000") == Some(2000.0)
    requires parse("1200.00") == Some(1200.0)
    requires parse("300.50") == Some(300.5)
    requires parse("150.25") == Some(150.25)
    ensures total == 1650.75
    ensures remaining == 349.25
  {
    var view := new ContentView(parse);
    view.newIncomeAmount := "2000";
    view.SubmitIncome();
    view.newExpenseName, view.newExpenseAmount := "Rent", "1200.00";
    view.AddExpense();
    view.newLoanName, view.newLoanAmount := "Car", "300.50";
    view.AddLoan();
    view.newPaymentName, view.newPaymentAmount := "Visa", "150.25";
    view.AddPayment();
    assert view.expenses == [ExpenseItem("Rent", 1200.0)];
    assert view.loans == [ExpenseItem("Car", 300.5)];
    assert view.creditCardPayments == [ExpenseItem("Visa", 150.25)];
    total := view.TotalAmount();
    assert view.incomeAmount == "2000" && total == 1650.75;
    remaining := view.RemainingIncome();
  }

  /**
   * An income text that is not a number shows a remaining income of 0,
   * not minus the total; an amount that is not a number adds nothing and
   * leaves its text in place for correction.
   */
  method UnparsedIncome(parse: AmountParser) returns (total: real, remaining: real, pending: string)
    requires parse("abc") == None
    requires parse("100") == Some(100.0)
    ensures total == 100.0
    ensures remaining == 0.0
    ensures pending == "abc"
  {
    var view := new ContentView(parse);
    view.newIncomeAmount := "abc";
    view.SubmitIncome();
    view.newExpenseName, view.newExpenseAmount := "Rent", "100";
    view.AddExpense();
    view.newLoanName, view.newLoanAmount := "Car", "abc";
    view.AddLoan();
    assert view.expenses == [ExpenseItem("Rent", 100.0)];
    assert view.loans == [] && view.creditCardPayments == [];
    total := view.TotalAmount();
    remaining := view.RemainingIncome();
    pending := view.newLoanAmount;
  }

  /**
   * Spending more than the income shows a negative remaining income; the
   * successful add lowers the remaining income by exactly its amount.
   */
  method Overspent(parse: AmountParser) returns (remaining: real)
    requires parse("100") == Some(100.0)
    requires parse("200") == Some(200.0)
    ensures remaining == -100.0
  {
    var view := new ContentView(parse);
    view.newIncomeAmount := "100";
    view.SubmitIncome();
    view.newExpenseName, view.newExpenseAmount := "Rent", "200";
    ghost var before := view.RemainingIncome();
    view.AddExpense();
    assert view.expenses == [ExpenseItem("Rent", 200.0)];
    assert view.RemainingIncome() == before - 200.0;
    remaining := view.RemainingIncome();
  }
}
