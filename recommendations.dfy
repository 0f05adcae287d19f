/**
 * The Recommendations tab of app1.py: buy, hold and sell counts summed over
 * every record of the recommendation trend, each with `sum([...])`.
 */
module Recommendations {
  import opened PyJson
  import opened Adapters
  import opened Presentation

  datatype Totals = Totals(buy: int, hold: int, sell: int)

  const NoTotals: Totals := Totals(0, 0, 0)

  /**
   * `rec[field]` as a term of `sum`: an int, or a bool counting 0 or 1.
   * A missing key, a record that is not a dict, or a value of another type
   * raises in Python and gives `None` here.
   */
  function Count(rec: Json, field: string): (r: Option<int>)
    ensures r.Some? <==> rec.JObj? && field in Keys(rec.fields)
                         && (Get(rec.fields, field).value.JInt? || Get(rec.fields, field).value.JBool?)
    ensures r.Some? && Get(rec.fields, field).value.JInt? ==> r.value == Get(rec.fields, field).value.i
    ensures r.Some? && Get(rec.fields, field).value.JBool? ==>
      r.value == if Get(rec.fields, field).value.b then 1 else 0
  {
    match Subscript(rec, field)
    case Ok(JInt(n)) => Some(n)
    case Ok(JBool(b)) => Some(if b then 1 else 0)
    case _ => None
  }

  /** Addition of two terms either of which may have raised. */
  function Plus(x: Option<int>, y: Option<int>): (r: Option<int>)
    ensures r.Some? <==> x.Some? && y.Some?
    ensures r.Some? ==> r.value == x.value + y.value
  {
    if x.Some? && y.Some? then Some(x.value + y.value) else None
  }

  /** `sum([rec[field] for rec in recs])`: it raises exactly when some record's term raises. */
  function SumField(recs: seq<Json>, field: string): (r: Option<int>)
    ensures r.Some? <==> forall k :: 0 <= k < |recs| ==> Count(recs[k], field).Some?
  {
    if recs == [] then Some(0)
    else
      assert forall k :: 1 <= k < |recs| ==> recs[k] == recs[1..][k - 1];
      Plus(Count(recs[0], field), SumField(recs[1..], field))
  }

  predicate WellFormed(rec: Json)
  {
    Count(rec, "buy").Some? && Count(rec, "hold").Some? && Count(rec, "sell").Some?
  }

  /**
   * The three sums, or `None` when one of them raises. They exist exactly
   * when every record carries int (or bool) buy, hold and sell counts; there
   * are none to add up in an empty trend.
   */
  function Tally(recs: seq<Json>): (r: Option<Totals>)
    ensures r.Some? <==> forall k :: 0 <= k < |recs| ==> WellFormed(recs[k])
    ensures recs == [] ==> r == Some(NoTotals)
  {
    var buy := SumField(recs, "buy");
    var hold := SumField(recs, "hold");
    var sell := SumField(recs, "sell");
    if buy.Some? && hold.Some? && sell.Some? then Some(Totals(buy.value, hold.value, sell.value)) else None
  }

  /** The sum over two runs of records, one after the other, is the sum of their sums. */
  lemma {:induction false} SumFieldAppend(a: seq<Json>, b: seq<Json>, field: string)
    ensures SumField(a + b, field) == Plus(SumField(a, field), SumField(b, field))
  {
    if a == [] {
      assert a + b == b;
    } else {
      assert (a + b)[1..] == a[1..] + b;
      SumFieldAppend(a[1..], b, field);
    }
  }

  /** Taking one record out of a sum leaves its term to be added back. */
  lemma SumFieldRemove(b: seq<Json>, i: nat, field: string)
    requires i < |b|
    ensures SumField(b, field) == Plus(Count(b[i], field), SumField(b[..i] + b[i + 1..], field))
  {
    var front, x, back := b[..i], b[i], b[i + 1..];
    assert b == (front + [x]) + back;
    SumFieldAppend(front + [x], back, field);
    SumFieldAppend(front, [x], field);
    SumFieldAppend(front, back, field);
    SumFieldSingle(x, field);
    PlusMovesTermToFront(Count(x, field), SumField(front, field), SumField(back, field));
  }

  /** Adding `c` in the middle of a sum is adding it in front. */
  lemma PlusMovesTermToFront(c: Option<int>, f: Option<int>, k: Option<int>)
    ensures Plus(Plus(f, Plus(c, Some(0))), k) == Plus(c, Plus(f, k))
  {
  }

  /** The sum over one record is that record's term. */
  lemma SumFieldSingle(x: Json, field: string)
    ensures SumField([x], field) == Plus(Count(x, field), Some(0))
  {
    assert [x][1..] == [];
  }

  /** A sum does not depend on the order of the records. */
  lemma {:induction false} SumFieldPermutation(a: seq<Json>, b: seq<Json>, field: string)
    requires multiset(a) == multiset(b)
    ensures SumField(a, field) == SumField(b, field)
    decreases |a|
  {
    if a == [] {
      assert |b| == |multiset(b)| == 0;
    } else {
      var x := a[0];
      assert x in multiset(b);
      var i :| 0 <= i < |b| && b[i] == x;
      var rest := b[..i] + b[i + 1..];
      assert multiset(a[1..]) == multiset(rest) by {
        assert b == b[..i] + [x] + b[i + 1..];
        assert multiset(b) == multiset(b[..i]) + multiset{x} + multiset(b[i + 1..]);
        assert multiset(rest) == multiset(b[..i]) + multiset(b[i + 1..]);
        assert a == [x] + a[1..];
        assert multiset(a) == multiset{x} + multiset(a[1..]);
        assert multiset(a[1..]) == multiset(a) - multiset{x};
        assert multiset(rest) == multiset(b) - multiset{x};
      }
      SumFieldPermutation(a[1..], rest, field);
      SumFieldRemove(b, i, field);
    }
  }

  /** Permuting the trend records leaves the totals unchanged. */
  lemma TallyPermutation(a: seq<Json>, b: seq<Json>)
    requires multiset(a) == multiset(b)
    ensures Tally(a) == Tally(b)
  {
    SumFieldPermutation(a, b, "buy");
    SumFieldPermutation(a, b, "hold");
    SumFieldPermutation(a, b, "sell");
  }

  /** The totals of two runs of records, one after the other, are the field-wise sums of their totals. */
  lemma TallyAppend(a: seq<Json>, b: seq<Json>)
    requires forall k :: 0 <= k < |a| ==> WellFormed(a[k])
    requires forall k :: 0 <= k < |b| ==> WellFormed(b[k])
    ensures Tally(a + b).Some?
    ensures Tally(a + b).value.buy == Tally(a).value.buy + Tally(b).value.buy
    ensures Tally(a + b).value.hold == Tally(a).value.hold + Tally(b).value.hold
    ensures Tally(a + b).value.sell == Tally(a).value.sell + Tally(b).value.sell
  {
    SumFieldAppend(a, b, "buy");
    SumFieldAppend(a, b, "hold");
    SumFieldAppend(a, b, "sell");
  }

  /**
   * The Recommendations tab for the result of fetch_recommendations. For a
   * list it is the totals of its records; iterating a dict or a string
   * visits keys or characters, and indexing those raises.
   */
  function RecommendationsSection(r: Json): (s: Section<Totals>)
    ensures !s.NotReached?
    ensures s.ErrorShown? <==> IsErrorMarker(r)
    ensures s.ErrorShown? ==> Get(r.fields, "error") == Some(s.message)
    ensures r.JArr? && JStr("error") !in r.items ==>
      s == (match Tally(r.items) case Some(t) => Shown(t) case None => Raised)
    ensures r.JObj? && r.fields != [] && !IsErrorMarker(r) ==> s.Raised?
    ensures !(r.JObj? || r.JArr? || r.JStr?) ==> s.Raised?
  {
    match ErrorGate(r)
    case Crash => Raised
    case Report(m) => ErrorShown(m)
    case Proceed =>
      match Iterate(r)
      case Raise(_) => Raised
      case Ok(recs) =>
        match Tally(recs)
        case None => Raised
        case Some(t) => Shown(t)
  }
}
