/**
 * The Insights tab of app1.py: one label from the buy, hold and sell totals
 * by strict pairwise maximum.
 */
module Insights {
  import opened Presentation
  import opened Recommendations

  datatype Label = StrongBuy | Hold | Sell | NoClearRecommendation

  /** The message the Insights tab shows for a label. */
  function LabelText(l: Label): string
  {
    match l
    case StrongBuy => "Strong Buy"
    case Hold => "Hold"
    case Sell => "Sell"
    case NoClearRecommendation => "No clear recommendation"
  }

  /** The four messages differ, so the text shown names the label. */
  lemma LabelTextIsInjective(a: Label, b: Label)
    ensures LabelText(a) == LabelText(b) <==> a == b
  {
  }

  /** `x` is larger than both other counts. */
  predicate IsStrictMax(x: int, y: int, z: int)
  {
    x > y && x > z
  }

  /** The if/elif chain of the Insights tab. */
  function Insight(t: Totals): (l: Label)
    ensures l == StrongBuy <==> IsStrictMax(t.buy, t.hold, t.sell)
    ensures l == Hold <==> IsStrictMax(t.hold, t.buy, t.sell)
    ensures l == Sell <==> IsStrictMax(t.sell, t.buy, t.hold)
    ensures l == NoClearRecommendation <==>
      !IsStrictMax(t.buy, t.hold, t.sell) && !IsStrictMax(t.hold, t.buy, t.sell) && !IsStrictMax(t.sell, t.buy, t.hold)
  {
    if t.buy > t.sell && t.buy > t.hold then StrongBuy
    else if t.hold > t.buy && t.hold > t.sell then Hold
    else if t.sell > t.buy && t.sell > t.hold then Sell
    else NoClearRecommendation
  }

  /** At most one of the three counts is a strict maximum. */
  lemma StrictMaxIsUnique(t: Totals)
    ensures !(IsStrictMax(t.buy, t.hold, t.sell) && IsStrictMax(t.hold, t.buy, t.sell))
    ensures !(IsStrictMax(t.buy, t.hold, t.sell) && IsStrictMax(t.sell, t.buy, t.hold))
    ensures !(IsStrictMax(t.hold, t.buy, t.sell) && IsStrictMax(t.sell, t.buy, t.hold))
  {
  }

  function Max3(t: Totals): int
  {
    if t.buy >= t.hold && t.buy >= t.sell then t.buy
    else if t.hold >= t.sell then t.hold
    else t.sell
  }

  /** When two counts share the largest value there is no clear recommendation. */
  lemma TieForMaximumIsNoClearRecommendation(t: Totals)
    requires (t.buy == t.hold == Max3(t)) || (t.buy == t.sell == Max3(t)) || (t.hold == t.sell == Max3(t))
    ensures Insight(t) == NoClearRecommendation
  {
  }

  /** The sample inputs of the rule. */
  lemma InsightExamples()
    ensures Insight(Totals(10, 3, 2)) == StrongBuy
    ensures Insight(Totals(2, 9, 4)) == Hold
    ensures Insight(Totals(1, 2, 7)) == Sell
    ensures Insight(Totals(3, 3, 3)) == NoClearRecommendation
    ensures Insight(Totals(5, 5, 1)) == NoClearRecommendation
    ensures Insight(NoTotals) == NoClearRecommendation
  {
  }

  /**
   * The Insights tab as app1.py runs it. `buy`, `hold` and `sell` are bound
   * only when the Recommendations tab computed them; after that tab showed
   * an error, reading them raises NameError.
   */
  function InsightSectionAsWritten(rs: Section<Totals>): (s: Section<Label>)
    ensures rs.Shown? ==> s == Shown(Insight(rs.content))
    ensures rs.ErrorShown? ==> s.Raised?
    ensures rs.Raised? || rs.NotReached? ==> s.NotReached?
  {
    match rs
    case Shown(t) => Shown(Insight(t))
    case ErrorShown(_) => Raised
    case _ => NotReached
  }

  /**
   * The Insights tab with the totals defaulting to (0, 0, 0) when the
   * recommendations could not be fetched: it always shows a label.
   */
  function InsightSection(rs: Section<Totals>): (s: Section<Label>)
    ensures rs.Shown? ==> s == Shown(Insight(rs.content))
    ensures rs.ErrorShown? ==> s == Shown(NoClearRecommendation)
    ensures rs.Shown? || rs.ErrorShown? ==> s.Shown?
    ensures rs.Raised? || rs.NotReached? ==> s.NotReached?
  {
    match rs
    case Shown(t) => Shown(Insight(t))
    case ErrorShown(_) => Shown(Insight(NoTotals))
    case _ => NotReached
  }
}
