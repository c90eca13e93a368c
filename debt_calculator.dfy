/**
 * The debt calculator page: a list of debts the user adds and removes, the sums over it,
 * the balance-weighted average rate, the avalanche payoff estimate, and the
 * recommendation that sorts the list by interest rate in place.
 */
module DebtCalculator {
  import opened Wrappers
  import opened Lists

  datatype Debt = Debt(id: int, name: string, balance: real, minPayment: real, interestRate: real)

  /** The `newDebt` form: four text fields. */
  datatype DebtForm = DebtForm(name: string, balance: string, minPayment: string, interestRate: string)

  const EmptyForm := DebtForm("", "", "", "")

  /** `totalDebt`: the balances summed from the left. */
  function TotalDebt(debts: seq<Debt>): real {
    if debts == [] then 0.0 else TotalDebt(debts[..|debts| - 1]) + debts[|debts| - 1].balance
  }

  /** `totalMinPayments`: the minimum payments summed from the left. */
  function TotalMinPayments(debts: seq<Debt>): real {
    if debts == [] then 0.0 else TotalMinPayments(debts[..|debts| - 1]) + debts[|debts| - 1].minPayment
  }

  /** The sum of rate times balance, the numerator of `averageInterestRate`. */
  function WeightedRates(debts: seq<Debt>): real {
    if debts == [] then 0.0
    else WeightedRates(debts[..|debts| - 1]) + debts[|debts| - 1].interestRate * debts[|debts| - 1].balance
  }

  /** With non-negative balances and minimum payments, neither sum is negative. */
  lemma {:induction false} SumsNonNegative(debts: seq<Debt>)
    requires forall i :: 0 <= i < |debts| ==> debts[i].balance >= 0.0 && debts[i].minPayment >= 0.0
    ensures TotalDebt(debts) >= 0.0 && TotalMinPayments(debts) >= 0.0
  {
    if debts != [] {
      SumsNonNegative(debts[..|debts| - 1]);
    }
  }

  /** The sums are additive over concatenation. */
  lemma {:induction false} SumsConcat(a: seq<Debt>, b: seq<Debt>)
    ensures TotalDebt(a + b) == TotalDebt(a) + TotalDebt(b)
    ensures TotalMinPayments(a + b) == TotalMinPayments(a) + TotalMinPayments(b)
    ensures WeightedRates(a + b) == WeightedRates(a) + WeightedRates(b)
  {
    if b == [] {
      assert a + b == a;
    } else {
      assert (a + b)[..|a + b| - 1] == a + b[..|b| - 1];
      SumsConcat(a, b[..|b| - 1]);
    }
  }

  /**
   * `averageInterestRate`: 0 for an empty list, otherwise the balance-weighted sum of
   * rates divided by the total debt; `None` stands for the NaN or Infinity JavaScript
   * produces when that total is 0.
   */
  function AverageInterestRate(debts: seq<Debt>): (r: Option<real>)
    ensures debts == [] ==> r == Some(0.0)
    ensures debts != [] && TotalDebt(debts) == 0.0 ==> r == None
    ensures debts != [] && TotalDebt(debts) != 0.0 ==> r.Some? && r.value * TotalDebt(debts) == WeightedRates(debts)
  {
    if |debts| > 0 then
      if TotalDebt(debts) == 0.0 then None else Some(WeightedRates(debts) / TotalDebt(debts))
    else Some(0.0)
  }

  /** With all rates equal, the average is that rate. */
  lemma {:induction false} AverageOfEqualRates(debts: seq<Debt>, rate: real)
    requires forall i :: 0 <= i < |debts| ==> debts[i].interestRate == rate
    ensures WeightedRates(debts) == rate * TotalDebt(debts)
  {
    if debts != [] {
      AverageOfEqualRates(debts[..|debts| - 1], rate);
    }
  }

  /** With non-negative balances, the weighted sum lies between the lowest and the highest rate times the total debt. */
  lemma {:induction false} WeightedWithinRates(debts: seq<Debt>, lo: real, hi: real)
    requires forall i :: 0 <= i < |debts| ==> debts[i].balance >= 0.0 && lo <= debts[i].interestRate <= hi
    ensures lo * TotalDebt(debts) <= WeightedRates(debts) <= hi * TotalDebt(debts)
  {
    if debts != [] {
      var init, last := debts[..|debts| - 1], debts[|debts| - 1];
      WeightedWithinRates(init, lo, hi);
      ProductBetween(last.interestRate, last.balance, lo, hi);
      assert TotalDebt(debts) == TotalDebt(init) + last.balance;
      assert WeightedRates(debts) == WeightedRates(init) + last.interestRate * last.balance;
      Distributes(lo, TotalDebt(init), last.balance);
      Distributes(hi, TotalDebt(init), last.balance);
    }
  }

  lemma Distributes(c: real, x: real, y: real)
    ensures c * (x + y) == c * x + c * y
  {
  }

  lemma ProductBetween(rate: real, balance: real, lo: real, hi: real)
    requires balance >= 0.0 && lo <= rate <= hi
    ensures lo * balance <= rate * balance <= hi * balance
  {
    assert (rate - lo) * balance >= 0.0;
    assert (hi - rate) * balance >= 0.0;
  }

  /** For a positive total debt and non-negative balances, the average rate lies between the lowest and the highest rate. */
  lemma AverageWithinRates(debts: seq<Debt>, lo: real, hi: real)
    requires forall i :: 0 <= i < |debts| ==> debts[i].balance >= 0.0 && lo <= debts[i].interestRate <= hi
    requires TotalDebt(debts) > 0.0
    ensures AverageInterestRate(debts).Some? && lo <= AverageInterestRate(debts).value <= hi
  {
    WeightedWithinRates(debts, lo, hi);
    QuotientBetween(WeightedRates(debts), TotalDebt(debts), AverageInterestRate(debts).value, lo, hi);
  }

  lemma QuotientBetween(w: real, t: real, q: real, lo: real, hi: real)
    requires t > 0.0 && q * t == w && lo * t <= w <= hi * t
    ensures lo <= q <= hi
  {
    assert (q - lo) * t >= 0.0;
    assert (hi - q) * t >= 0.0;
  }

  /** Highest interest rate first. */
  ghost predicate SortedByRate(s: seq<Debt>) {
    forall i, j :: 0 <= i < j < |s| ==> s[i].interestRate >= s[j].interestRate
  }

  /** Place `x` after every entry of the sorted `s` whose rate is at least `x`'s. */
  function Insert(s: seq<Debt>, x: Debt): (r: seq<Debt>)
    ensures |r| == |s| + 1
  {
    if s == [] || s[|s| - 1].interestRate >= x.interestRate then s + [x]
    else Insert(s[..|s| - 1], x) + [s[|s| - 1]]
  }

  /**
   * `sort((a, b) => b.interestRate - a.interestRate)`: JavaScript's stable sort by
   * descending rate, as an insertion sort that keeps equal rates in list order.
   */
  function SortByRate(s: seq<Debt>): (r: seq<Debt>)
    ensures |r| == |s|
  {
    if s == [] then [] else Insert(SortByRate(s[..|s| - 1]), s[|s| - 1])
  }

  /** Inserting keeps a lower bound that holds for the list and the new entry. */
  lemma {:induction false} InsertBound(s: seq<Debt>, x: Debt, m: real)
    requires forall i :: 0 <= i < |s| ==> s[i].interestRate >= m
    requires x.interestRate >= m
    ensures forall i :: 0 <= i < |Insert(s, x)| ==> Insert(s, x)[i].interestRate >= m
  {
    if !(s == [] || s[|s| - 1].interestRate >= x.interestRate) {
      InsertBound(s[..|s| - 1], x, m);
    }
  }

  /** Appending an entry no higher than every rate of a sorted list keeps it sorted. */
  lemma SortedAppend(t: seq<Debt>, y: Debt)
    requires SortedByRate(t)
    requires forall i :: 0 <= i < |t| ==> t[i].interestRate >= y.interestRate
    ensures SortedByRate(t + [y])
  {
    var u := t + [y];
    forall i, j | 0 <= i < j < |u| ensures u[i].interestRate >= u[j].interestRate {
      if j < |t| {
        assert u[i] == t[i] && u[j] == t[j];
      } else {
        assert u[i] == t[i] && u[j] == y;
      }
    }
  }

  lemma {:induction false} InsertSorted(s: seq<Debt>, x: Debt)
    requires SortedByRate(s)
    ensures SortedByRate(Insert(s, x))
  {
    if s == [] || s[|s| - 1].interestRate >= x.interestRate {
      SortedAppend(s, x);
    } else {
      var init, last := s[..|s| - 1], s[|s| - 1];
      assert SortedByRate(init);
      InsertSorted(init, x);
      InsertBound(init, x, last.interestRate);
      SortedAppend(Insert(init, x), last);
    }
  }

  lemma {:induction false} InsertPermutes(s: seq<Debt>, x: Debt)
    ensures multiset(Insert(s, x)) == multiset(s) + multiset{x}
  {
    if !(s == [] || s[|s| - 1].interestRate >= x.interestRate) {
      var init, last := s[..|s| - 1], s[|s| - 1];
      assert s == init + [last];
      InsertPermutes(init, x);
      assert Insert(s, x) == Insert(init, x) + [last];
    }
  }

  /** Inserting into a sorted list gives a sorted list holding one more entry. */
  lemma InsertSpec(s: seq<Debt>, x: Debt)
    requires SortedByRate(s)
    ensures SortedByRate(Insert(s, x))
    ensures multiset(Insert(s, x)) == multiset(s) + multiset{x}
  {
    InsertSorted(s, x);
    InsertPermutes(s, x);
  }

  /** The sort yields rates in descending order and a permutation of the list. */
  lemma {:induction false} SortByRateSpec(s: seq<Debt>)
    ensures SortedByRate(SortByRate(s))
    ensures multiset(SortByRate(s)) == multiset(s)
  {
    if s != [] {
      SortByRateSpec(s[..|s| - 1]);
      InsertSpec(SortByRate(s[..|s| - 1]), s[|s| - 1]);
      assert s == s[..|s| - 1] + [s[|s| - 1]];
    }
  }

  /** Sorting an already sorted list changes nothing, so a second `debts.sort` is a no-op. */
  lemma {:induction false} SortSortedIsIdentity(s: seq<Debt>)
    requires SortedByRate(s)
    ensures SortByRate(s) == s
  {
    if s != [] {
      var init := s[..|s| - 1];
      assert SortedByRate(init);
      SortSortedIsIdentity(init);
      assert s == init + [s[|s| - 1]];
    }
  }

  /** The sort's first entry carries the highest rate of the list. */
  lemma SortedHeadIsMax(s: seq<Debt>)
    requires s != []
    ensures |SortByRate(s)| == |s|
    ensures forall i :: 0 <= i < |s| ==> SortByRate(s)[0].interestRate >= s[i].interestRate
  {
    SortByRateSpec(s);
    var t := SortByRate(s);
    forall i | 0 <= i < |s| ensures t[0].interestRate >= s[i].interestRate {
      assert s[i] in multiset(s);
      var k :| 0 <= k < |t| && t[k] == s[i];
    }
  }

  /** The payment the avalanche loop gives the debt at position `i` of the sorted list: extra only for the first. */
  function Payment(sorted: seq<Debt>, i: nat, extra: real): real
    requires i < |sorted|
  {
    sorted[i].minPayment + (if i == 0 then extra else 0.0)
  }

  /** `removeDebt(id)`: drop every debt with that id, keep the rest in order. */
  function WithoutId(debts: seq<Debt>, id: int): (r: seq<Debt>)
    ensures forall i :: 0 <= i < |r| ==> r[i].id != id && r[i] in debts
    ensures forall i :: 0 <= i < |debts| && debts[i].id != id ==> debts[i] in r
  {
    Filter(debts, (d: Debt) => d.id != id)
  }

  /**
   * `removeDebt` keeps exactly the positions whose debt has another id, in their order:
   * a debt that is kept survives as many times as it occurs.
   */
  lemma WithoutIdSpec(debts: seq<Debt>, id: int) returns (kept: seq<nat>)
    ensures Embeds(WithoutId(debts, id), debts, kept)
    ensures forall i :: 0 <= i < |debts| ==> (i in kept <==> debts[i].id != id)
  {
    kept := FilterIsSublist(debts, (d: Debt) => d.id != id);
    forall k | 0 <= k < |kept| ensures debts[kept[k]].id != id {
      assert WithoutId(debts, id)[k] == debts[kept[k]];
    }
  }

  /** Removing an id that no debt carries leaves the list as it was. */
  lemma WithoutAbsentId(debts: seq<Debt>, id: int)
    requires forall i :: 0 <= i < |debts| ==> debts[i].id != id
    ensures WithoutId(debts, id) == debts
  {
    FilterAll(debts, (d: Debt) => d.id != id);
  }

  class Calculator {
    var debts: seq<Debt>
    var form: DebtForm

    constructor ()
      ensures debts == [] && form == EmptyForm
    {
      debts, form := [], EmptyForm;
    }

    /**
     * `addDebt`: a guest who already has one debt can add no more; otherwise all four
     * fields are required, the new debt goes at the end and the form is cleared. `now` is
     * `Date.now()` and the three amounts are the `parseFloat`s of the form's fields.
     */
    method AddDebt(signedIn: bool, now: int, balance: real, minPayment: real, interestRate: real) returns (added: bool)
      modifies this
      ensures added <==> (signedIn || |old(debts)| < 1)
                         && old(form).name != "" && old(form).balance != ""
                         && old(form).minPayment != "" && old(form).interestRate != ""
      ensures added ==> debts == old(debts) + [Debt(now, old(form).name, balance, minPayment, interestRate)]
                        && form == EmptyForm
      ensures !added ==> debts == old(debts) && form == old(form)
    {
      if !signedIn && |debts| >= 1 {
        return false;
      }
      if form.name != "" && form.balance != "" && form.minPayment != "" && form.interestRate != "" {
        debts := debts + [Debt(now, form.name, balance, minPayment, interestRate)];
        form := EmptyForm;
        return true;
      }
      return false;
    }

    method RemoveDebt(id: int)
      modifies this`debts
      ensures debts == WithoutId(old(debts), id)
    {
      debts := WithoutId(debts, id);
    }

    /**
     * `calculatePayoffTime(extraPayment)`: walk a sorted copy of the list (the list itself
     * is not reordered), give the extra payment to the first debt only, and keep the
     * largest per-debt month figure, starting from 0. `monthsFor(debt, payment)` stands
     * for the per-debt formula (a logarithm, or balance over payment at a 0% rate).
     */
    method CalculatePayoffTime(extra: real, monthsFor: (Debt, real) -> real) returns (months: real)
      ensures debts == [] ==> months == 0.0
      ensures months >= 0.0
      ensures forall i :: 0 <= i < |debts| ==>
                months >= monthsFor(SortByRate(debts)[i], Payment(SortByRate(debts), i, extra))
      ensures months == 0.0 ||
              exists i :: 0 <= i < |debts| && months == monthsFor(SortByRate(debts)[i], Payment(SortByRate(debts), i, extra))
    {
      if |debts| == 0 {
        return 0.0;
      }
      var totalMonths := 0.0;
      var sortedDebts := SortByRate(debts);
      var remainingExtra := extra;
      for i := 0 to |sortedDebts|
        invariant remainingExtra == if i == 0 then extra else 0.0
        invariant totalMonths >= 0.0
        invariant forall k :: 0 <= k < i ==> totalMonths >= monthsFor(sortedDebts[k], Payment(sortedDebts, k, extra))
        invariant totalMonths == 0.0 || (exists k :: 0 <= k < i && totalMonths == monthsFor(sortedDebts[k], Payment(sortedDebts, k, extra)))
      {
        var payment := sortedDebts[i].minPayment + remainingExtra;
        var m := monthsFor(sortedDebts[i], payment);
        totalMonths := if totalMonths >= m then totalMonths else m;
        remainingExtra := 0.0;
      }
      months := totalMonths;
    }

    /**
     * The recommendation text: `debts.sort(...)[0]`, evaluated twice while rendering. The
     * sort works in place, so the page's own list ends up ordered by descending rate; the
     * result is the first debt of that order, if any.
     */
    method Recommendation() returns (first: Option<Debt>)
      modifies this`debts
      ensures debts == SortByRate(old(debts))
      ensures first == if debts == [] then None else Some(debts[0])
      ensures multiset(debts) == multiset(old(debts)) && SortedByRate(debts)
    {
      debts := SortByRate(debts);
      SortByRateSpec(old(debts));
      SortSortedIsIdentity(debts);
      debts := SortByRate(debts);
      first := if debts == [] then None else Some(debts[0]);
    }
  }
}
