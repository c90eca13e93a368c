/**
 * The budget planner page: a list of income and expense items that the user adds and
 * removes, the totals computed over it, the per-category expense breakdown, and the
 * fixed category table with its colours.
 */
module BudgetPlanner {
  import opened Wrappers
  import opened Lists
  import opened Text

  datatype ItemType = Income | Expense

  datatype BudgetItem = BudgetItem(id: int, name: string, amount: real, category: string, kind: ItemType)

  /** The `newItem` form: the amount is the text of a number field. */
  datatype ItemForm = ItemForm(name: string, amount: string, category: string, kind: ItemType)

  datatype Category = Category(name: string, color: string, kind: ItemType)

  /** The empty form `addItem` resets to (type income). */
  const EmptyForm := ItemForm("", "", "", Income)

  const FallbackColor := "#6B7280"

  const Categories: seq<Category> := [
    Category("Løn", "#10B981", Income),
    Category("Freelance", "#059669", Income),
    Category("Investeringer", "#047857", Income),
    Category("Andet indkomst", "#065F46", Income),
    Category("Bolig", "#EF4444", Expense),
    Category("Transport", "#F97316", Expense),
    Category("Mad", "#EAB308", Expense),
    Category("Forsikringer", "#8B5CF6", Expense),
    Category("Gæld & lån", "#EC4899", Expense),
    Category("Entertainment", "#06B6D4", Expense),
    Category("Tøj & shopping", "#84CC16", Expense),
    Category("Sundhed", "#F59E0B", Expense),
    Category("Opsparing", "#10B981", Expense),
    Category("Andet udgifter", "#6B7280", Expense)
  ]

  /** `reduce((sum, item) => sum + item.amount, 0)`: the amounts added from the left. */
  function SumAmounts(items: seq<BudgetItem>): real {
    if items == [] then 0.0 else SumAmounts(items[..|items| - 1]) + items[|items| - 1].amount
  }

  /** The total of the items of type `kind`, one item at a time; not negative when no amount of that type is. */
  function TotalOf(items: seq<BudgetItem>, kind: ItemType): (r: real)
    ensures (forall i :: 0 <= i < |items| && items[i].kind == kind ==> items[i].amount >= 0.0) ==> r >= 0.0
  {
    if items == [] then 0.0
    else TotalOf(items[..|items| - 1], kind) + (if items[|items| - 1].kind == kind then items[|items| - 1].amount else 0.0)
  }

  /**
   * `totalIncome` and `totalExpenses` are written as a `filter` by type and then a sum:
   * the running total computes exactly that.
   */
  lemma {:induction false} TotalOfIsFilterSum(items: seq<BudgetItem>, kind: ItemType)
    ensures TotalOf(items, kind) == SumAmounts(Filter(items, (x: BudgetItem) => x.kind == kind))
  {
    if items != [] {
      var init, last := items[..|items| - 1], items[|items| - 1];
      assert items == init + [last];
      TotalOfIsFilterSum(init, kind);
      FilterSnoc(init, last, (x: BudgetItem) => x.kind == kind);
      SumAmountsSnoc(Filter(init, (x: BudgetItem) => x.kind == kind), last, last.kind == kind);
    }
  }

  /** Summing a list with one optional element at the end. */
  lemma SumAmountsSnoc(s: seq<BudgetItem>, x: BudgetItem, keep: bool)
    ensures SumAmounts(s + (if keep then [x] else [])) == SumAmounts(s) + (if keep then x.amount else 0.0)
  {
    if keep {
      assert (s + [x])[..|s|] == s;
    } else {
      assert s + [] == s;
    }
  }

  /** `totalIncome`: the running total of the income items; see `TotalOfIsFilterSum`. */
  function TotalIncome(items: seq<BudgetItem>): (r: real)
    ensures (forall i :: 0 <= i < |items| && items[i].kind == Income ==> items[i].amount >= 0.0) ==> r >= 0.0
  {
    TotalOf(items, Income)
  }

  /** `totalExpenses`: the running total of the expense items; see `TotalOfIsFilterSum`. */
  function TotalExpenses(items: seq<BudgetItem>): (r: real)
    ensures (forall i :: 0 <= i < |items| && items[i].kind == Expense ==> items[i].amount >= 0.0) ==> r >= 0.0
  {
    TotalOf(items, Expense)
  }

  /** `netIncome`: income minus expenses. */
  function NetIncome(items: seq<BudgetItem>): (r: real)
    ensures r + TotalExpenses(items) == TotalIncome(items)
  {
    TotalIncome(items) - TotalExpenses(items)
  }

  /** The totals are additive over concatenation. */
  lemma {:induction false} TotalOfConcat(a: seq<BudgetItem>, b: seq<BudgetItem>, kind: ItemType)
    ensures TotalOf(a + b, kind) == TotalOf(a, kind) + TotalOf(b, kind)
  {
    if b == [] {
      assert a + b == a;
    } else {
      assert (a + b)[..|a + b| - 1] == a + b[..|b| - 1];
      TotalOfConcat(a, b[..|b| - 1], kind);
    }
  }

  /** An empty list totals 0 in every column. */
  lemma TotalsOfEmpty()
    ensures TotalIncome([]) == 0.0 && TotalExpenses([]) == 0.0 && NetIncome([]) == 0.0
  {
  }

  /** Adding one item raises the total of its own type by its amount and leaves the other total alone. */
  lemma TotalsAfterAppend(items: seq<BudgetItem>, item: BudgetItem)
    ensures TotalOf(items + [item], item.kind) == TotalOf(items, item.kind) + item.amount
    ensures forall k :: k != item.kind ==> TotalOf(items + [item], k) == TotalOf(items, k)
  {
    assert (items + [item])[..|items|] == items;
  }

  /** `savingsRate`: the net income as a percentage of income, and 0 whenever income is not positive. */
  function SavingsRate(items: seq<BudgetItem>): (r: real)
    ensures TotalIncome(items) <= 0.0 ==> r == 0.0
    ensures TotalIncome(items) > 0.0 ==> r * TotalIncome(items) == NetIncome(items) * 100.0
  {
    var income, net := TotalIncome(items), NetIncome(items);
    if income > 0.0 then PercentOf(net, income) else 0.0
  }

  /** `(part / whole) * 100` for a positive whole. */
  function PercentOf(part: real, whole: real): (r: real)
    requires whole > 0.0
    ensures r * whole == part * 100.0
  {
    (part / whole) * 100.0
  }

  /** An insertion-ordered record `category -> amount`, the `{}` that `expensesByCategory` reduces into. */
  type Breakdown = seq<(string, real)>

  function Keys(acc: Breakdown): seq<string> {
    if acc == [] then [] else [acc[0].0] + Keys(acc[1..])
  }

  /** `acc[k] || 0`. */
  function Lookup(acc: Breakdown, k: string): real {
    if acc == [] then 0.0 else if acc[0].0 == k then acc[0].1 else Lookup(acc[1..], k)
  }

  function SumValues(acc: Breakdown): real {
    if acc == [] then 0.0 else acc[0].1 + SumValues(acc[1..])
  }

  predicate DistinctKeys(acc: Breakdown) {
    forall i, j :: 0 <= i < j < |acc| ==> acc[i].0 != acc[j].0
  }

  /** `acc[c] = (acc[c] || 0) + amount`: update the entry for `c` in place, or add it at the end. */
  function Accumulate(acc: Breakdown, c: string, amount: real): Breakdown {
    if acc == [] then [(c, amount)]
    else if acc[0].0 == c then [(c, acc[0].1 + amount)] + acc[1..]
    else [acc[0]] + Accumulate(acc[1..], c, amount)
  }

  /** One accumulation step adds `amount` to the values' sum and to the entry of `c` only, and keeps keys distinct. */
  lemma {:induction false} AccumulateSpec(acc: Breakdown, c: string, amount: real)
    requires DistinctKeys(acc)
    ensures SumValues(Accumulate(acc, c, amount)) == SumValues(acc) + amount
    ensures forall k :: Lookup(Accumulate(acc, c, amount), k) == Lookup(acc, k) + (if k == c then amount else 0.0)
    ensures DistinctKeys(Accumulate(acc, c, amount))
    ensures forall k :: k in Keys(Accumulate(acc, c, amount)) <==> k in Keys(acc) || k == c
  {
    if acc != [] && acc[0].0 != c {
      assert DistinctKeys(acc[1..]) by {
        forall i, j | 0 <= i < j < |acc[1..]| ensures acc[1..][i].0 != acc[1..][j].0 {
          assert acc[1..][i] == acc[i + 1] && acc[1..][j] == acc[j + 1];
        }
      }
      AccumulateSpec(acc[1..], c, amount);
      var rest := Accumulate(acc[1..], c, amount);
      KeysIndex(acc[1..]);
      KeysIndex(rest);
      forall k | k == acc[0].0 ensures Lookup(acc[1..], k) == 0.0 && k != c {
        NotInKeysLookupZero(acc[1..], k);
      }
      assert acc[0].0 !in Keys(rest);
      KeysIndex(acc);
      var r := [acc[0]] + rest;
      KeysIndex(r);
      assert DistinctKeys(r) by {
        forall i, j | 0 <= i < j < |r| ensures r[i].0 != r[j].0 {
          if i == 0 {
            assert r[j] == rest[j - 1];
          } else {
            assert r[i] == rest[i - 1] && r[j] == rest[j - 1];
          }
        }
      }
    } else if acc != [] {
      assert DistinctKeys(acc[1..]) by {
        forall i, j | 0 <= i < j < |acc[1..]| ensures acc[1..][i].0 != acc[1..][j].0 {
          assert acc[1..][i] == acc[i + 1] && acc[1..][j] == acc[j + 1];
        }
      }
      KeysIndex(acc);
      KeysIndex(acc[1..]);
      NotInKeysLookupZero(acc[1..], c);
      var r := Accumulate(acc, c, amount);
      assert r[1..] == acc[1..];
      KeysIndex(r);
    }
  }

  /** `Keys` lists the keys at their positions. */
  lemma {:induction false} KeysIndex(acc: Breakdown)
    ensures |Keys(acc)| == |acc| && forall i :: 0 <= i < |acc| ==> Keys(acc)[i] == acc[i].0
  {
    if acc != [] {
      KeysIndex(acc[1..]);
    }
  }

  lemma {:induction false} NotInKeysLookupZero(acc: Breakdown, k: string)
    requires k !in Keys(acc)
    ensures Lookup(acc, k) == 0.0
  {
    if acc != [] {
      NotInKeysLookupZero(acc[1..], k);
    }
  }

  /** `expensesByCategory`: the expense items folded, in list order, into a record by category. */
  function ExpensesByCategory(items: seq<BudgetItem>): Breakdown {
    if items == [] then []
    else
      var last := items[|items| - 1];
      var acc := ExpensesByCategory(items[..|items| - 1]);
      if last.kind == Expense then Accumulate(acc, last.category, last.amount) else acc
  }

  /** The expense total of one category. */
  function CategoryTotal(items: seq<BudgetItem>, c: string): real {
    if items == [] then 0.0
    else
      var last := items[|items| - 1];
      CategoryTotal(items[..|items| - 1], c) + (if last.kind == Expense && last.category == c then last.amount else 0.0)
  }

  /**
   * The breakdown has one entry per category that has an expense item, holds each such
   * category's expense total, and its values add up to the total expenses: income items
   * are not counted.
   */
  lemma {:induction false} ExpensesByCategorySpec(items: seq<BudgetItem>)
    ensures DistinctKeys(ExpensesByCategory(items))
    ensures SumValues(ExpensesByCategory(items)) == TotalExpenses(items)
    ensures forall c :: Lookup(ExpensesByCategory(items), c) == CategoryTotal(items, c)
    ensures forall c :: c in Keys(ExpensesByCategory(items)) <==>
              exists i :: 0 <= i < |items| && items[i].kind == Expense && items[i].category == c
  {
    if items != [] {
      var init := items[..|items| - 1];
      var last := items[|items| - 1];
      ExpensesByCategorySpec(init);
      if last.kind == Expense {
        AccumulateSpec(ExpensesByCategory(init), last.category, last.amount);
      }
      forall c ensures c in Keys(ExpensesByCategory(items)) <==>
                 exists i :: 0 <= i < |items| && items[i].kind == Expense && items[i].category == c {
        if c in Keys(ExpensesByCategory(items)) {
          if c in Keys(ExpensesByCategory(init)) {
            var i :| 0 <= i < |init| && init[i].kind == Expense && init[i].category == c;
            assert items[i] == init[i];
          } else {
            assert items[|items| - 1] == last;
          }
        } else {
          forall i | 0 <= i < |items| ensures !(items[i].kind == Expense && items[i].category == c) {
            if i < |init| {
              assert items[i] == init[i];
            }
          }
        }
      }
    }
  }

  /** `getCategoryColor` over the category table: the colour of the first entry with that name, else `#6B7280`. */
  function CategoryColor(table: seq<Category>, name: string): (r: string)
    ensures (exists i :: 0 <= i < |table| && table[i].name == name) ==>
              exists i :: 0 <= i < |table| && table[i].name == name && (forall j :: 0 <= j < i ==> table[j].name != name)
                && r == OrElse(table[i].color, FallbackColor)
    ensures (forall i :: 0 <= i < |table| ==> table[i].name != name) ==> r == FallbackColor
  {
    match FindIndex(table, (c: Category) => c.name == name)
    case Some(i) => OrElse(table[i].color, FallbackColor)
    case None => FallbackColor
  }

  /** `getAvailableCategories` over the category table: the entries of the form's type, in table order. */
  function AvailableCategories(table: seq<Category>, kind: ItemType): (r: seq<Category>)
    ensures forall i :: 0 <= i < |r| ==> r[i] in table && r[i].kind == kind
    ensures forall i :: 0 <= i < |table| && table[i].kind == kind ==> table[i] in r
  {
    Filter(table, (c: Category) => c.kind == kind)
  }

  /** `removeItem(id)`: every item with that id goes, the rest keep their order. */
  function WithoutId(items: seq<BudgetItem>, id: int): (r: seq<BudgetItem>)
    ensures forall i :: 0 <= i < |r| ==> r[i].id != id && r[i] in items
    ensures forall i :: 0 <= i < |items| && items[i].id != id ==> items[i] in r
  {
    Filter(items, (x: BudgetItem) => x.id != id)
  }

  /**
   * `removeItem` keeps exactly the positions whose item has another id, in their order:
   * an item that is kept survives as many times as it occurs.
   */
  lemma WithoutIdSpec(items: seq<BudgetItem>, id: int) returns (kept: seq<nat>)
    ensures Embeds(WithoutId(items, id), items, kept)
    ensures forall i :: 0 <= i < |items| ==> (i in kept <==> items[i].id != id)
  {
    kept := FilterIsSublist(items, (x: BudgetItem) => x.id != id);
    forall k | 0 <= k < |kept| ensures items[kept[k]].id != id {
      assert WithoutId(items, id)[k] == items[kept[k]];
    }
  }

  /** Removing an id that no item carries leaves the list as it was. */
  lemma WithoutAbsentId(items: seq<BudgetItem>, id: int)
    requires forall i :: 0 <= i < |items| ==> items[i].id != id
    ensures WithoutId(items, id) == items
  {
    FilterAll(items, (x: BudgetItem) => x.id != id);
  }

  /** The offered categories are exactly the table positions of the form's type, in table order. */
  lemma AvailableCategoriesSpec(table: seq<Category>, kind: ItemType) returns (offered: seq<nat>)
    ensures Embeds(AvailableCategories(table, kind), table, offered)
    ensures forall i :: 0 <= i < |table| ==> (i in offered <==> table[i].kind == kind)
  {
    offered := FilterIsSublist(table, (c: Category) => c.kind == kind);
    forall k | 0 <= k < |offered| ensures table[offered[k]].kind == kind {
      assert AvailableCategories(table, kind)[k] == table[offered[k]];
    }
  }

  class Planner {
    var items: seq<BudgetItem>
    var form: ItemForm

    constructor ()
      ensures items == [] && form == EmptyForm
    {
      items, form := [], EmptyForm;
    }

    /**
     * `addItem`. A guest (no signed-in user) who already has an item can add no more.
     * Otherwise, when name, amount and category are all filled in, one item with the
     * form's fields goes at the end of the list and the form is reset; `now` is
     * `Date.now()` and `parsedAmount` is `parseFloat(form.amount)`.
     */
    method AddItem(signedIn: bool, now: int, parsedAmount: real) returns (added: bool)
      modifies this
      ensures added <==> (signedIn || |old(items)| < 1)
                         && old(form).name != "" && old(form).amount != "" && old(form).category != ""
      ensures added ==> items == old(items) + [BudgetItem(now, old(form).name, parsedAmount, old(form).category, old(form).kind)]
                        && form == EmptyForm
      ensures !added ==> items == old(items) && form == old(form)
    {
      if !signedIn && |items| >= 1 {
        return false;
      }
      if form.name != "" && form.amount != "" && form.category != "" {
        var item := BudgetItem(now, form.name, parsedAmount, form.category, form.kind);
        items := items + [item];
        form := EmptyForm;
        return true;
      }
      return false;
    }

    method RemoveItem(id: int)
      modifies this`items
      ensures items == WithoutId(old(items), id)
    {
      items := WithoutId(items, id);
    }

    /** Choosing a type in the form clears the chosen category. */
    method SetType(kind: ItemType)
      modifies this`form
      ensures form == old(form).(kind := kind, category := "")
    {
      form := form.(kind := kind, category := "");
    }
  }
}
