/**
 * The budget handlers (app/routes/budgets.py): setting a month's budget,
 * which replaces the amount of an existing budget for that month, and
 * listing the latest twelve budgets with what was spent against each.
 */
module BudgetRoutes {
  import opened Wrappers
  import opened Records
  import opened Calendar
  import opened Queries
  import opened Ledger
  import opened Store

  // ---------------------------------------------------------- add_budget

  /** What `add_budget` answers with: one of its two validation messages, or the row it wrote. */
  datatype AddBudgetOutcome =
    | AmountNotPositive
    | InvalidMonth
    | BudgetUpdated(id: nat)
    | BudgetCreated(id: nat)

  /** The budgets table after setting `amount` for (user, month, year): the first such row gets the amount, or a row is appended. */
  function Upsert(bs: seq<Budget>, user: nat, month: int, year: int, amount: real): (r: seq<Budget>)
    ensures |r| == |bs| || |r| == |bs| + 1
  {
    match FindBudget(bs, user, month, year)
    case Some(k) => bs[k := bs[k].(amount := amount)]
    case None => bs + [Budget(NextId(bs, BudgetIdOf), user, month, year, amount)]
  }

  /**
   * Setting a budget leaves exactly one row for the month, holding the new
   * amount and read back by the dashboard's lookup, and changes no row of
   * another month or user; a new row takes a fresh key.
   */
  lemma UpsertSpec(bs: seq<Budget>, user: nat, month: int, year: int, amount: real)
    requires BudgetKeysUnique(bs) && IdsUnique(bs, BudgetIdOf)
    ensures var r := Upsert(bs, user, month, year, amount);
      && BudgetKeysUnique(r) && IdsUnique(r, BudgetIdOf)
      && FindBudget(r, user, month, year).Some?
      && r[FindBudget(r, user, month, year).value].amount == amount
      && (forall k :: 0 <= k < |r| && k != FindBudget(r, user, month, year).value ==> !BudgetFor(r[k], user, month, year))
      && (forall k :: 0 <= k < |bs| && !BudgetFor(bs[k], user, month, year) ==> r[k] == bs[k])
      && (|r| == |bs| <==> FindBudget(bs, user, month, year).Some?)
  {
    match FindBudget(bs, user, month, year)
    case Some(i) => UpsertUpdates(bs, user, month, year, amount, i);
    case None => UpsertInserts(bs, user, month, year, amount);
  }

  /** The row the lookup finds is updated in place. */
  lemma UpsertUpdates(bs: seq<Budget>, user: nat, month: int, year: int, amount: real, i: nat)
    requires BudgetKeysUnique(bs) && IdsUnique(bs, BudgetIdOf)
    requires FindBudget(bs, user, month, year) == Some(i)
    ensures var r := Upsert(bs, user, month, year, amount);
      && BudgetKeysUnique(r) && IdsUnique(r, BudgetIdOf)
      && FindBudget(r, user, month, year) == Some(i)
      && r[i].amount == amount && |r| == |bs|
      && (forall k :: 0 <= k < |r| && k != i ==> !BudgetFor(r[k], user, month, year) && r[k] == bs[k])
  {
    var r := Upsert(bs, user, month, year, amount);
    assert r == bs[i := bs[i].(amount := amount)];
    forall k | 0 <= k < |r| && k != i ensures !BudgetFor(r[k], user, month, year) {
      assert r[k] == bs[k];
      if k > i {
        assert BudgetFor(bs[i], user, month, year);
      }
    }
    assert BudgetFor(r[i], user, month, year);
    assert forall k :: 0 <= k < i ==> r[k] == bs[k] && !BudgetFor(r[k], user, month, year);
    assert FindBudget(r, user, month, year) == Some(i);
    forall a, b | 0 <= a < b < |r| ensures BudgetIdOf(r[a]) != BudgetIdOf(r[b]) {
      assert BudgetIdOf(r[a]) == BudgetIdOf(bs[a]) && BudgetIdOf(r[b]) == BudgetIdOf(bs[b]);
    }
  }

  /** Without a row for the key, one row is appended under a fresh id. */
  lemma UpsertInserts(bs: seq<Budget>, user: nat, month: int, year: int, amount: real)
    requires BudgetKeysUnique(bs) && IdsUnique(bs, BudgetIdOf)
    requires FindBudget(bs, user, month, year).None?
    ensures var r := Upsert(bs, user, month, year, amount);
      && BudgetKeysUnique(r) && IdsUnique(r, BudgetIdOf)
      && FindBudget(r, user, month, year) == Some(|bs|)
      && r[|bs|].amount == amount && |r| == |bs| + 1
      && (forall k :: 0 <= k < |bs| ==> !BudgetFor(r[k], user, month, year) && r[k] == bs[k])
  {
    var r := Upsert(bs, user, month, year, amount);
    var x := Budget(NextId(bs, BudgetIdOf), user, month, year, amount);
    assert r == bs + [x];
    InsertKeepsIdsUnique(bs, x, BudgetIdOf);
    assert r[|bs|] == x;
    assert FindBudget(r, user, month, year) == Some(|bs|);
  }


  /** Setting the same amount twice is the same as setting it once. */
  lemma UpsertIdempotent(bs: seq<Budget>, user: nat, month: int, year: int, amount: real)
    requires BudgetKeysUnique(bs) && IdsUnique(bs, BudgetIdOf)
    ensures Upsert(Upsert(bs, user, month, year, amount), user, month, year, amount) == Upsert(bs, user, month, year, amount)
  {
    UpsertSpec(bs, user, month, year, amount);
  }

  /**
   * `add_budget` on a submitted form: a non-positive amount, then a month
   * outside 1..12, is refused and writes nothing; otherwise the budget for
   * (month, year) is updated in place or created.
   */
  method AddBudget(db: Database, user: nat, month: int, year: int, amount: real) returns (outcome: AddBudgetOutcome)
    requires db.Valid()
    modifies db`budgets
    ensures db.Valid()
    ensures amount <= 0.0 ==> outcome == AmountNotPositive
    ensures amount > 0.0 && !(1 <= month <= 12) ==> outcome == InvalidMonth
    ensures outcome.AmountNotPositive? || outcome.InvalidMonth? ==> db.budgets == old(db.budgets)
    ensures amount > 0.0 && 1 <= month <= 12 ==>
      && db.budgets == Upsert(old(db.budgets), user, month, year, amount)
      && (outcome.BudgetUpdated? <==> FindBudget(old(db.budgets), user, month, year).Some?)
      && (outcome.BudgetUpdated? ==> outcome.id == old(db.budgets)[FindBudget(old(db.budgets), user, month, year).value].id)
      && (outcome.BudgetCreated? ==> outcome.id == NextId(old(db.budgets), BudgetIdOf))
  {
    if amount <= 0.0 {
      return AmountNotPositive;
    }
    if month < 1 || month > 12 {
      return InvalidMonth;
    }
    UpsertSpec(db.budgets, user, month, year, amount);
    var existing := FindBudget(db.budgets, user, month, year);
    if existing.Some? {
      var k := existing.value;
      outcome := BudgetUpdated(db.budgets[k].id);
      db.budgets := db.budgets[k := db.budgets[k].(amount := amount)];
    } else {
      var id := NextId(db.budgets, BudgetIdOf);
      db.budgets := db.budgets + [Budget(id, user, month, year, amount)];
      outcome := BudgetCreated(id);
    }
    assert BudgetsWellFormed(db.budgets) by {
      forall k | 0 <= k < |db.budgets| ensures db.budgets[k].amount > 0.0 && 1 <= db.budgets[k].month <= 12 {
        if k < |old(db.budgets)| && !BudgetFor(old(db.budgets)[k], user, month, year) {
          assert db.budgets[k] == old(db.budgets)[k];
        }
      }
    }
  }

  // -------------------------------------------------------- list_budgets

  /** `order_by(Budget.year.desc(), Budget.month.desc())` as one key. */
  function BudgetKey(b: Budget): int {
    MonthIndex(b.year, b.month)
  }

  /** For months in 1..12 the single key orders budgets by year, then month. */
  lemma BudgetKeyIsYearThenMonth(a: Budget, b: Budget)
    requires 1 <= a.month <= 12 && 1 <= b.month <= 12
    ensures BudgetKey(a) > BudgetKey(b) <==> a.year > b.year || (a.year == b.year && a.month > b.month)
    ensures BudgetKey(a) == BudgetKey(b) <==> a.year == b.year && a.month == b.month
  {
    if a.year > b.year {
      assert BudgetKey(a) >= (b.year + 1) * 12 > BudgetKey(b);
    } else if a.year < b.year {
      assert BudgetKey(b) >= (a.year + 1) * 12 > BudgetKey(a);
    }
  }

  /** `filter_by(user_id=user)` as a row predicate. */
  function OwnedBy(user: nat): Budget -> bool {
    (b: Budget) => b.userId == user
  }

  /** The query of `list_budgets`: the user's budgets, latest month first, at most twelve. */
  function LatestBudgets(bs: seq<Budget>, user: nat): (r: seq<Budget>)
    ensures |r| <= 12 && |r| <= |bs|
  {
    Take(SortDesc(Filter(bs, OwnedBy(user)), BudgetKey), 12)
  }

  /** The listing holds at most twelve of the user's own budgets, latest first. */
  lemma LatestBudgetsOwned(bs: seq<Budget>, user: nat)
    ensures var r := LatestBudgets(bs, user);
      && |r| <= 12
      && (forall k :: 0 <= k < |r| ==> r[k] in bs && r[k].userId == user)
      && (forall i, j :: 0 <= i < j < |r| ==> BudgetKey(r[i]) >= BudgetKey(r[j]))
  {
    var owned := Filter(bs, OwnedBy(user));
    var sorted := SortDesc(owned, BudgetKey);
    var r := LatestBudgets(bs, user);
    forall k | 0 <= k < |r| ensures r[k] in bs && r[k].userId == user {
      assert r[k] == sorted[k];
      assert sorted[k] in multiset(owned);
      FilterMembers(bs, OwnedBy(user), r[k]);
    }
  }

  /** Every budget of the user that the listing leaves out is older than all it shows. */
  lemma LatestBudgetsAreLatest(bs: seq<Budget>, user: nat, b: Budget)
    requires b in bs && b.userId == user
    ensures var r := LatestBudgets(bs, user);
      b in r || (|r| == 12 && forall k :: 0 <= k < |r| ==> BudgetKey(r[k]) >= BudgetKey(b))
  {
    FilterMembers(bs, OwnedBy(user), b);
    TopRowsByKey(Filter(bs, OwnedBy(user)), BudgetKey, 12, b);
  }

  /** One row of the budget list. */
  datatype BudgetLine = BudgetLine(budget: Budget, spent: real, remaining: real)

  /** `list_budgets`: each listed budget with the month's spending (0 when none) and what is left of it. */
  method ListBudgets(bs: seq<Budget>, es: seq<Expense>, user: nat) returns (lines: seq<BudgetLine>)
    ensures |lines| == |LatestBudgets(bs, user)| <= 12
    ensures forall k :: 0 <= k < |lines| ==>
      var b := LatestBudgets(bs, user)[k];
      && lines[k].budget == b
      && lines[k].spent == ExpenseTotal(es, user, b.month, b.year)
      && lines[k].spent + lines[k].remaining == b.amount
  {
    var budgets := LatestBudgets(bs, user);
    lines := [];
    for i := 0 to |budgets|
      invariant |lines| == i
      invariant forall k :: 0 <= k < i ==>
        && lines[k].budget == budgets[k]
        && lines[k].spent == ExpenseTotal(es, user, budgets[k].month, budgets[k].year)
        && lines[k].spent + lines[k].remaining == budgets[k].amount
    {
      var b := budgets[i];
      var spent := ExpenseTotal(es, user, b.month, b.year);
      lines := lines + [BudgetLine(b, spent, b.amount - spent)];
    }
  }
}
