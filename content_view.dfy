/**
 * The ledger held by the money-manager screen: three lists of line items
 * (home expenses, loans, credit-card payments), the submitted income text,
 * and the pending text of every input field. The seven pending fields are
 * public because the screen's text boxes write them directly. The income
 * text and the three lists are written only by the four buttons, the
 * methods below; they are public here only because a Dafny class has no
 * private fields, and clients are meant to leave them to those methods.
 */
module ContentView {
  import opened Wrappers
  import opened Amounts

  /** Rejects every text; used only to show that a parser exists. */
  function RejectAll(s: string): Option<real>
  {
    None
  }

  /**
   * Swift's `Double(String)`. Which texts it accepts is not modelled; the
   * one fact used is that the empty text is not a number.
   */
  type AmountParser = p: string -> Option<real> | p("") == None witness RejectAll

  /** `amount` is the value of some text under `parse`. */
  ghost predicate FromParse(parse: AmountParser, amount: real)
  {
    exists s :: parse(s) == Some(amount)
  }

  /** Every item's amount came out of a successful parse. */
  ghost predicate AllParsed(parse: AmountParser, items: seq<ExpenseItem>)
  {
    forall i :: 0 <= i < |items| ==> FromParse(parse, items[i].amount)
  }

  class ContentView {
    const parse: AmountParser

    var expenses: seq<ExpenseItem>
    var loans: seq<ExpenseItem>
    var creditCardPayments: seq<ExpenseItem>
    var incomeAmount: string
    var newIncomeAmount: string
    var newExpenseName: string
    var newExpenseAmount: string
    var newLoanName: string
    var newLoanAmount: string
    var newPaymentName: string
    var newPaymentAmount: string

    /** No item is ever built from text that failed to parse. */
    ghost predicate Valid()
      reads this`expenses, this`loans, this`creditCardPayments
    {
      && AllParsed(parse, expenses)
      && AllParsed(parse, loans)
      && AllParsed(parse, creditCardPayments)
    }

    /** A fresh screen: empty lists, every text field empty. */
    constructor (parse: AmountParser)
      ensures Valid() && this.parse == parse
      ensures expenses == [] && loans == [] && creditCardPayments == []
      ensures incomeAmount == "" && newIncomeAmount == ""
      ensures newExpenseName == "" && newExpenseAmount == ""
      ensures newLoanName == "" && newLoanAmount == ""
      ensures newPaymentName == "" && newPaymentAmount == ""
      ensures TotalAmount() == 0.0 && RemainingIncome() == 0.0
    {
      this.parse := parse;
      expenses, loans, creditCardPayments := [], [], [];
      incomeAmount, newIncomeAmount := "", "";
      newExpenseName, newExpenseAmount := "", "";
      newLoanName, newLoanAmount := "", "";
      newPaymentName, newPaymentAmount := "", "";
    }

    /** `totalAmount`: the sum of the three lists, read from the current state. */
    function TotalAmount(): real
      reads this`expenses, this`loans, this`creditCardPayments
    {
      Total(expenses, loans, creditCardPayments)
    }

    /**
     * The income left after all items: 0 when the income text is not a
     * number (the initial "" included), otherwise the income minus every
     * amount in the three lists, however they are split between them.
     */
    function RemainingIncome(): (remaining: real)
      reads this`incomeAmount, this`expenses, this`loans, this`creditCardPayments
      ensures parse(incomeAmount).None? ==> remaining == 0.0
      ensures parse(incomeAmount).Some? ==>
                remaining
                == parse(incomeAmount).value - SumOfAll(expenses + loans + creditCardPayments)
    {
      TotalIsSumOfAllItems(expenses, loans, creditCardPayments);
      match parse(incomeAmount)
      case None => 0.0
      case Some(income) => income - TotalAmount()
    }

    /** The Submit button: the pending income text becomes the income. */
    method SubmitIncome()
      requires Valid()
      modifies this
      ensures Valid()
      ensures incomeAmount == old(newIncomeAmount)
      ensures newIncomeAmount == old(newIncomeAmount)
      ensures expenses == old(expenses) && loans == old(loans)
      ensures creditCardPayments == old(creditCardPayments)
      ensures newExpenseName == old(newExpenseName) && newExpenseAmount == old(newExpenseAmount)
      ensures newLoanName == old(newLoanName) && newLoanAmount == old(newLoanAmount)
      ensures newPaymentName == old(newPaymentName) && newPaymentAmount == old(newPaymentAmount)
    {
      incomeAmount := newIncomeAmount;
    }

    /**
     * The Add button of the home-expense row. When the pending amount does
     * not parse nothing changes; otherwise one item is appended to
     * `expenses`, the row's two fields are cleared and the total grows by
     * the parsed amount.
     */
    method AddExpense()
      requires Valid()
      modifies this
      ensures Valid()
      ensures loans == old(loans) && creditCardPayments == old(creditCardPayments)
      ensures incomeAmount == old(incomeAmount) && newIncomeAmount == old(newIncomeAmount)
      ensures newLoanName == old(newLoanName) && newLoanAmount == old(newLoanAmount)
      ensures newPaymentName == old(newPaymentName) && newPaymentAmount == old(newPaymentAmount)
      ensures match parse(old(newExpenseAmount))
        case None =>
          && expenses == old(expenses)
          && newExpenseName == old(newExpenseName) && newExpenseAmount == old(newExpenseAmount)
        case Some(amount) =>
          && expenses == old(expenses) + [ExpenseItem(old(newExpenseName), amount)]
          && newExpenseName == "" && newExpenseAmount == ""
      ensures parse(old(newExpenseAmount)).Some? ==>
                Total(expenses, loans, creditCardPayments)
                == Total(old(expenses), old(loans), old(creditCardPayments)) + parse(old(newExpenseAmount)).value
    {
      var parsed := parse(newExpenseAmount);
      if parsed.None? {
        return;
      }
      var item := ExpenseItem(newExpenseName, parsed.value);
      assert FromParse(parse, item.amount);
      TotalAfterAppend(expenses, loans, creditCardPayments, item);
      expenses := expenses + [item];
      newExpenseName := "";
      newExpenseAmount := "";
    }

    /** The Add button of the loan row; as `AddExpense`, on `loans`. */
    method AddLoan()
      requires Valid()
      modifies this
      ensures Valid()
      ensures expenses == old(expenses) && creditCardPayments == old(creditCardPayments)
      ensures incomeAmount == old(incomeAmount) && newIncomeAmount == old(newIncomeAmount)
      ensures newExpenseName == old(newExpenseName) && newExpenseAmount == old(newExpenseAmount)
      ensures newPaymentName == old(newPaymentName) && newPaymentAmount == old(newPaymentAmount)
      ensures match parse(old(newLoanAmount))
        case None =>
          && loans == old(loans)
          && newLoanName == old(newLoanName) && newLoanAmount == old(newLoanAmount)
        case Some(amount) =>
          && loans == old(loans) + [ExpenseItem(old(newLoanName), amount)]
          && newLoanName == "" && newLoanAmount == ""
      ensures parse(old(newLoanAmount)).Some? ==>
                Total(expenses, loans, creditCardPayments)
                == Total(old(expenses), old(loans), old(creditCardPayments)) + parse(old(newLoanAmount)).value
    {
      var parsed := parse(newLoanAmount);
      if parsed.None? {
        return;
      }
      var item := ExpenseItem(newLoanName, parsed.value);
      assert FromParse(parse, item.amount);
      TotalAfterAppend(expenses, loans, creditCardPayments, item);
      loans := loans + [item];
      newLoanName := "";
      newLoanAmount := "";
    }

    /** The Add button of the credit-card row; as `AddExpense`, on `creditCardPayments`. */
    method AddPayment()
      requires Valid()
      modifies this
      ensures Valid()
      ensures expenses == old(expenses) && loans == old(loans)
      ensures incomeAmount == old(incomeAmount) && newIncomeAmount == old(newIncomeAmount)
      ensures newExpenseName == old(newExpenseName) && newExpenseAmount == old(newExpenseAmount)
      ensures newLoanName == old(newLoanName) && newLoanAmount == old(newLoanAmount)
      ensures match parse(old(newPaymentAmount))
        case None =>
          && creditCardPayments == old(creditCardPayments)
          && newPaymentName == old(newPaymentName) && newPaymentAmount == old(newPaymentAmount)
        case Some(amount) =>
          && creditCardPayments == old(creditCardPayments) + [ExpenseItem(old(newPaymentName), amount)]
          && newPaymentName == "" && newPaymentAmount == ""
      ensures parse(old(newPaymentAmount)).Some? ==>
                Total(expenses, loans, creditCardPayments)
                == Total(old(expenses), old(loans), old(creditCardPayments)) + parse(old(newPaymentAmount)).value
    {
      var parsed := parse(newPaymentAmount);
      if parsed.None? {
        return;
      }
      var item := ExpenseItem(newPaymentName, parsed.value);
      assert FromParse(parse, item.amount);
      TotalAfterAppend(expenses, loans, creditCardPayments, item);
      creditCardPayments := creditCardPayments + [item];
      newPaymentName := "";
      newPaymentAmount := "";
    }
  }
}
