/**
 * The income handlers (app/routes/income.py): the paginated listing of
 * the user's income, and adding an income entry.
 */
module IncomeRoutes {
  import opened Records
  import opened Calendar
  import opened Queries
  import opened Text
  import opened Store

  // --------------------------------------------------------- list_income

  function IncomeOf(user: nat): Income -> bool {
    (i: Income) => i.userId == user
  }

  function IncomeDateKey(i: Income): int {
    DateKey(i.date)
  }

  /** `list_income`: the user's income, newest date first, ten to a page. */
  function ListIncome(ins: seq<Income>, user: nat, page: int): (r: Page<Income>)
    ensures page == 1 ==> r.Page?
    ensures r.Page? ==> |r.items| <= PerPage && r.total <= |ins|
  {
    Paginate(SortDesc(Filter(ins, IncomeOf(user)), IncomeDateKey), page)
  }

  /** A page of the listing holds only the user's own income, newest first. */
  lemma ListedIncomeOwned(ins: seq<Income>, user: nat, page: int)
    ensures var r := ListIncome(ins, user, page);
      r.Page? ==>
        && (forall k :: 0 <= k < |r.items| ==> r.items[k] in ins && r.items[k].userId == user)
        && (forall i, j :: 0 <= i < j < |r.items| ==> DateKey(r.items[i].date) >= DateKey(r.items[j].date))
  {
    PageOfSortedFilter(ins, IncomeOf(user), IncomeDateKey, page);
  }

  /** Every income entry of the user is shown on some page of the listing. */
  lemma EveryIncomeIsListed(ins: seq<Income>, user: nat, x: Income)
    requires x in ins && x.userId == user
    ensures exists page :: page >= 1 && ListIncome(ins, user, page).Page? && x in ListIncome(ins, user, page).items
  {
    var listing := SortDesc(Filter(ins, IncomeOf(user)), IncomeDateKey);
    FilteredRowIsListed(ins, IncomeOf(user), IncomeDateKey, x);
    var page :| page >= 1 && Paginate(listing, page).Page? && x in Paginate(listing, page).items;
    assert ListIncome(ins, user, page) == Paginate(listing, page);
  }

  // ---------------------------------------------------------- add_income

  /** What `add_income` answers with. */
  datatype AddIncomeOutcome =
    | AmountNotPositive
    | InvalidDate
    | IncomeAdded(id: nat)

  /** `request.form.get('source', 'Salary').strip() or 'Salary'`. */
  function IncomeSource(raw: string): (source: string)
    ensures source != [] && Stripped(source)
    ensures source == Strip(raw) || source == "Salary"
  {
    StripSpec(raw);
    var s := Strip(raw);
    if s == [] then "Salary" else s
  }

  /** The entered source is kept, stripped, unless it is blank; only then is it "Salary". */
  lemma IncomeSourceKeepsEntered(raw: string)
    ensures IncomeSource(raw) == Strip(raw) <==> exists k :: 0 <= k < |raw| && !IsSpace(raw[k])
    ensures (forall k :: 0 <= k < |raw| ==> IsSpace(raw[k])) ==> IncomeSource(raw) == "Salary"
  {
    StripEmptyIffBlank(raw);
  }

  /** The row `add_income` stores. */
  function NewIncome(ins: seq<Income>, user: nat, amount: real, date: Date, rawSource: string): Income {
    Income(NextId(ins, IncomeIdOf), user, amount, date, IncomeSource(rawSource))
  }

  /**
   * `add_income` on a submitted form: a non-positive amount, then a date
   * that is not a calendar date, is refused and writes nothing; otherwise
   * the entry is stored.
   */
  method AddIncome(db: Database, user: nat, amount: real, date: Date, rawSource: string) returns (outcome: AddIncomeOutcome)
    requires db.Valid()
    modifies db`incomes
    ensures db.Valid()
    ensures amount <= 0.0 ==> outcome == AmountNotPositive
    ensures amount > 0.0 && !IsCalendarDate(date) ==> outcome == InvalidDate
    ensures outcome.IncomeAdded? <==> amount > 0.0 && IsCalendarDate(date)
    ensures !outcome.IncomeAdded? ==> db.incomes == old(db.incomes)
    ensures outcome.IncomeAdded? ==>
      && outcome.id == NextId(old(db.incomes), IncomeIdOf)
      && db.incomes == old(db.incomes) + [NewIncome(old(db.incomes), user, amount, date, rawSource)]
  {
    if amount <= 0.0 {
      return AmountNotPositive;
    }
    if !IsCalendarDate(date) {
      return InvalidDate;
    }
    var i := NewIncome(db.incomes, user, amount, date, rawSource);
    db.InsertIncome(i);
    outcome := IncomeAdded(i.id);
  }
}
