/**
 * Budget evaluation: the number of failed budget assertions the service
 * returns in budget mode, and the failure message it leads to.
 */
module Budget {
  import opened Wrappers
  import Decimal

  const SingleBudgetMessage: string := "One performance budget not met."
  const ManyBudgetsSuffix: string := " performance budgets not met."

  /**
   * The message `core.setFailed` receives for a failure count, or `None` when
   * the run is not failed. An absent count is `None`.
   */
  function BudgetVerdict(count: Option<int>): (r: Option<string>)
    ensures r.Some? <==> count.Some? && count.value > 0
    ensures count == Some(1) ==> r == Some(SingleBudgetMessage)
  {
    if count.Some? && count.value > 0 then
      if count.value == 1 then Some(SingleBudgetMessage)
      else Some(Decimal.NatToString(count.value) + ManyBudgetsSuffix)
    else None
  }

  /**
   * For a count above one the message is the count's decimal text, without
   * leading zeros, followed by the plural suffix.
   */
  lemma PluralMessageStatesCount(n: int)
    requires n > 1
    ensures BudgetVerdict(Some(n)).Some?
    ensures var m := BudgetVerdict(Some(n)).value;
      var digits := m[..|m| - |ManyBudgetsSuffix|];
      && |m| > |ManyBudgetsSuffix|
      && m[|m| - |ManyBudgetsSuffix|..] == ManyBudgetsSuffix
      && Decimal.AllDigits(digits)
      && digits[0] != '0'
      && Decimal.DigitsValue(digits) == n
  {
    var s := Decimal.NatToString(n);
    var m := s + ManyBudgetsSuffix;
    assert m[..|m| - |ManyBudgetsSuffix|] == s;
    assert m[|m| - |ManyBudgetsSuffix|..] == ManyBudgetsSuffix;
    Decimal.NatToStringRoundTrip(n);
  }

  /**
   * The messages tell the counts apart: equal messages come from equal counts,
   * and in particular the singular message is never a plural one.
   */
  lemma BudgetVerdictInjective(a: Option<int>, b: Option<int>)
    requires BudgetVerdict(a).Some?
    requires BudgetVerdict(a) == BudgetVerdict(b)
    ensures a == b
  {
    var m := BudgetVerdict(a).value;
    if a.value > 1 {
      PluralDigitFirst(a.value);
    }
    if b.value > 1 {
      PluralDigitFirst(b.value);
    }
    if a.value > 1 && b.value > 1 {
      var sa, sb := Decimal.NatToString(a.value), Decimal.NatToString(b.value);
      assert |sa| == |sb|;
      assert sa == m[..|sa|] == sb;
      Decimal.NatToStringInjective(a.value, b.value);
    }
  }

  lemma PluralDigitFirst(n: int)
    requires n > 1
    ensures BudgetVerdict(Some(n)).value[0] != SingleBudgetMessage[0]
  {
    var s := Decimal.NatToString(n);
    assert (s + ManyBudgetsSuffix)[0] == s[0];
  }

  /** Two failed assertions give "2 performance budgets not met.". */
  lemma TwoBudgetsMessage()
    ensures BudgetVerdict(Some(2)) == Some("2 performance budgets not met.")
  {
    assert Decimal.NatToString(2) == "2";
    assert "2" + ManyBudgetsSuffix == "2 performance budgets not met.";
  }
}
