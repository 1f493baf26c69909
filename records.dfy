/**
 * The rows of the five tables of the expense tracker (users, categories,
 * expenses, income, budgets). Amounts are reals; dates are calendar
 * triples; ids are the integer primary keys.
 */
module Records {

  /** A calendar date as `date` objects carry it: year, month 1..12, day. */
  datatype Date = Date(year: int, month: int, day: int)

  /** What the users table stores in place of the password. */
  datatype PasswordHash = PasswordHash(digest: string)

  datatype User = User(id: nat, name: string, email: string, passwordHash: PasswordHash)

  datatype Category = Category(id: nat, userId: nat, name: string)

  datatype Expense = Expense(id: nat, userId: nat, categoryId: nat, amount: real, date: Date, description: string)

  datatype Income = Income(id: nat, userId: nat, amount: real, date: Date, source: string)

  datatype Budget = Budget(id: nat, userId: nat, month: int, year: int, amount: real)

  /** Primary-key projections, passed as function values to the generic table helpers. */
  function UserIdOf(u: User): nat { u.id }
  function CategoryIdOf(c: Category): nat { c.id }
  function ExpenseIdOf(e: Expense): nat { e.id }
  function IncomeIdOf(i: Income): nat { i.id }
  function BudgetIdOf(b: Budget): nat { b.id }

}
