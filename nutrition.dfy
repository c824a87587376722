/**
 * The calorie-intake tracker: an append-only food log whose entries are reference values per
 * 100 g scaled by the grams eaten, per-date totals that filter the log by date and sum it, a
 * separately appended history of saved day snapshots, and a per-date protein/carbs/fat
 * breakdown. All arithmetic is exact (`real`).
 */
module Nutrition {
  import opened Outcome

  /** A calendar day, as an ordinal. */
  type Date = int

  /** Calories (kcal) and protein, carbs and fat (g). */
  datatype Nutrients = Nutrients(calories: real, protein: real, carbs: real, fat: real)

  const NoNutrients := Nutrients(0.0, 0.0, 0.0, 0.0)

  /** No nutrient is negative, as every row of the food table is. */
  predicate NonNegative(n: Nutrients)
  {
    n.calories >= 0.0 && n.protein >= 0.0 && n.carbs >= 0.0 && n.fat >= 0.0
  }

  function Plus(a: Nutrients, b: Nutrients): Nutrients
  {
    Nutrients(a.calories + b.calories, a.protein + b.protein, a.carbs + b.carbs, a.fat + b.fat)
  }

  // ---------------------------------------------------------------------------------------
  // The food reference table

  /** One row of the food table: a name and its nutrients per 100 g. */
  datatype FoodRow = FoodRow(name: string, per100g: Nutrients)

  type FoodTable = seq<FoodRow>

  /** The per-100 g values of the first row named `food`; none if no row has that name. */
  function Lookup(table: FoodTable, food: string): (r: Option<Nutrients>)
    ensures r.None? <==> forall i :: 0 <= i < |table| ==> table[i].name != food
    ensures r.Some? ==>
      exists i :: 0 <= i < |table| && table[i].name == food && table[i].per100g == r.value &&
                  forall j :: 0 <= j < i ==> table[j].name != food
  {
    if table == [] then None
    else if table[0].name == food then Some(table[0].per100g)
    else
      var r := Lookup(table[1..], food);
      assert forall i :: 1 <= i < |table| ==> table[i] == table[1..][i - 1];
      r
  }

  /** Per-100 g values scaled to `grams`. */
  function Scale(per100g: Nutrients, grams: int): (n: Nutrients)
    ensures n.calories * 100.0 == per100g.calories * (grams as real)
    ensures n.protein * 100.0 == per100g.protein * (grams as real)
    ensures n.carbs * 100.0 == per100g.carbs * (grams as real)
    ensures n.fat * 100.0 == per100g.fat * (grams as real)
    ensures grams == 100 ==> n == per100g
    ensures grams == 0 ==> n == NoNutrients
    ensures NonNegative(per100g) && grams >= 0 ==> NonNegative(n)
  {
    var q := grams as real;
    assert NonNegative(per100g) && grams >= 0 ==>
      per100g.calories * q >= 0.0 && per100g.protein * q >= 0.0 &&
      per100g.carbs * q >= 0.0 && per100g.fat * q >= 0.0 by {
      if NonNegative(per100g) && grams >= 0 {
        ProductNonNegative(per100g.calories, q);
        ProductNonNegative(per100g.protein, q);
        ProductNonNegative(per100g.carbs, q);
        ProductNonNegative(per100g.fat, q);
      }
    }
    Nutrients(per100g.calories * q / 100.0, per100g.protein * q / 100.0,
              per100g.carbs * q / 100.0, per100g.fat * q / 100.0)
  }

  lemma ProductNonNegative(x: real, y: real)
    requires x >= 0.0 && y >= 0.0
    ensures x * y >= 0.0
  {
  }

  // ---------------------------------------------------------------------------------------
  // Adding foods

  /** A food picked on the page, with the grams entered for it. */
  datatype Selection = Selection(food: string, grams: int)

  /** One line of the food log. */
  datatype Entry = Entry(date: Date, food: string, amount: Nutrients)

  /**
   * The outcome of one "Add Foods" press: the entries it appends, in order, and the first
   * positive-quantity food missing from the table, at which the press stops (the entries
   * appended before it remain).
   */
  datatype Batch = Batch(entries: seq<Entry>, unknown: Option<string>)

  /** Every selection with a positive quantity names a food of the table. */
  ghost predicate AllKnown(table: FoodTable, selections: seq<Selection>)
  {
    forall i :: 0 <= i < |selections| && selections[i].grams > 0 ==> Lookup(table, selections[i].food).Some?
  }

  /** The selections with a positive quantity, in order. */
  function Positives(selections: seq<Selection>): seq<Selection>
  {
    if selections == [] then []
    else
      var last := selections[|selections| - 1];
      Positives(selections[..|selections| - 1]) + (if last.grams > 0 then [last] else [])
  }

  /**
   * One turn of the "Add Foods" loop: after a failure nothing more happens; a selection with
   * a quantity of zero (or less) is skipped; otherwise the food is looked up and either its
   * scaled entry is appended or the press fails on it.
   */
  function AddOne(table: FoodTable, date: Date, b: Batch, s: Selection): (r: Batch)
    ensures b.entries <= r.entries
    ensures r.unknown.Some? <==> b.unknown.Some? || (s.grams > 0 && Lookup(table, s.food).None?)
    ensures b.unknown.Some? ==> r == b
    ensures |r.entries| ==
      |b.entries| + if b.unknown.None? && s.grams > 0 && Lookup(table, s.food).Some? then 1 else 0
    ensures |r.entries| > |b.entries| ==>
      r.entries[|b.entries|] == Entry(date, s.food, Scale(Lookup(table, s.food).value, s.grams))
  {
    if b.unknown.Some? || s.grams <= 0 then b
    else match Lookup(table, s.food)
      case None => Batch(b.entries, Some(s.food))
      case Some(per100g) => Batch(b.entries + [Entry(date, s.food, Scale(per100g, s.grams))], None)
  }

  /** The entries and the failure of one "Add Foods" press over `selections`, on `date`. */
  function Expand(table: FoodTable, date: Date, selections: seq<Selection>): (b: Batch)
    ensures |b.entries| <= |selections|
    ensures forall k :: 0 <= k < |b.entries| ==> b.entries[k].date == date
    ensures b.unknown.Some? ==>
      exists i :: 0 <= i < |selections| && selections[i].grams > 0 &&
                  selections[i].food == b.unknown.value && Lookup(table, selections[i].food).None?
    decreases |selections|
  {
    if selections == [] then Batch([], None)
    else
      var init := selections[..|selections| - 1];
      assert forall i :: 0 <= i < |init| ==> init[i] == selections[i];
      AddOne(table, date, Expand(table, date, init), selections[|selections| - 1])
  }

  /**
   * When every positive-quantity food is known, the press appends exactly one entry per
   * positive-quantity selection, in selection order, carrying the date, the food's name and
   * the food's per-100 g values scaled by the grams.
   */
  lemma {:induction false} ExpandAllKnown(table: FoodTable, date: Date, selections: seq<Selection>)
    requires AllKnown(table, selections)
    ensures var b := Expand(table, date, selections); var p := Positives(selections);
      b.unknown == None && |b.entries| == |p| &&
      forall k :: 0 <= k < |p| ==>
        b.entries[k].date == date && b.entries[k].food == p[k].food &&
        Lookup(table, p[k].food).Some? &&
        b.entries[k].amount == Scale(Lookup(table, p[k].food).value, p[k].grams)
    decreases |selections|
  {
    if selections != [] {
      var init := selections[..|selections| - 1];
      assert forall i :: 0 <= i < |init| ==> init[i] == selections[i];
      ExpandAllKnown(table, date, init);
    }
  }

  /** The press fails exactly when some positive-quantity food is missing from the table. */
  lemma {:induction false} ExpandFailsIffUnknown(table: FoodTable, date: Date, selections: seq<Selection>)
    ensures Expand(table, date, selections).unknown.None? <==> AllKnown(table, selections)
    decreases |selections|
  {
    if selections != [] {
      var init := selections[..|selections| - 1];
      assert forall i :: 0 <= i < |init| ==> init[i] == selections[i];
      ExpandFailsIffUnknown(table, date, init);
    }
  }

  /** Once a prefix of the selections has failed, the rest of them change nothing. */
  lemma {:induction false} ExpandStopsAtUnknown(table: FoodTable, date: Date, selections: seq<Selection>, i: nat)
    requires i <= |selections|
    requires Expand(table, date, selections[..i]).unknown.Some?
    ensures Expand(table, date, selections) == Expand(table, date, selections[..i])
    decreases |selections|
  {
    if i < |selections| {
      var init := selections[..|selections| - 1];
      assert init[..i] == selections[..i];
      ExpandStopsAtUnknown(table, date, init, i);
    } else {
      assert selections[..i] == selections;
    }
  }

  /** Selections with quantity zero (or less) have no effect on a press. */
  lemma {:induction false} ExpandIgnoresNonPositive(table: FoodTable, date: Date, selections: seq<Selection>)
    ensures Expand(table, date, selections) == Expand(table, date, Positives(selections))
    decreases |selections|
  {
    if selections != [] {
      var init := selections[..|selections| - 1];
      var last := selections[|selections| - 1];
      ExpandIgnoresNonPositive(table, date, init);
      var p := Positives(selections);
      if last.grams > 0 {
        assert p == Positives(init) + [last];
        assert p[..|p| - 1] == Positives(init);
        calc {
          Expand(table, date, p);
          AddOne(table, date, Expand(table, date, Positives(init)), last);
          AddOne(table, date, Expand(table, date, init), last);
        }
      } else {
        assert p == Positives(init);
      }
    }
  }

  // ---------------------------------------------------------------------------------------
  // Daily totals

  /** The entries of `log` dated `date`, in log order. */
  function OnDate(log: seq<Entry>, date: Date): (r: seq<Entry>)
    ensures |r| <= |log|
    ensures forall k :: 0 <= k < |r| ==> r[k].date == date
    ensures r == [] <==> forall i :: 0 <= i < |log| ==> log[i].date != date
  {
    if log == [] then []
    else
      var init := log[..|log| - 1];
      var last := log[|log| - 1];
      assert forall i :: 0 <= i < |init| ==> init[i] == log[i];
      OnDate(init, date) + (if last.date == date then [last] else [])
  }

  /** The four nutrient sums over `entries`; zero for no entries. */
  function SumAll(entries: seq<Entry>): (n: Nutrients)
    ensures (forall k :: 0 <= k < |entries| ==> NonNegative(entries[k].amount)) ==> NonNegative(n)
  {
    if entries == [] then NoNutrients
    else Plus(SumAll(entries[..|entries| - 1]), entries[|entries| - 1].amount)
  }

  /** The totals the tracker shows for `date`: the sums over exactly the log's entries of that date. */
  function DayTotals(log: seq<Entry>, date: Date): (t: Nutrients)
    ensures (forall i :: 0 <= i < |log| ==> log[i].date != date) ==> t == NoNutrients
    ensures (forall i :: 0 <= i < |log| ==> NonNegative(log[i].amount)) ==> NonNegative(t)
  {
    OnDateFromLog(log, date);
    SumAll(OnDate(log, date))
  }

  /** Every entry the filter keeps is an entry of the log. */
  lemma {:induction false} OnDateFromLog(log: seq<Entry>, date: Date)
    ensures forall k :: 0 <= k < |OnDate(log, date)| ==> OnDate(log, date)[k] in log
    decreases |log|
  {
    if log != [] {
      var init := log[..|log| - 1];
      OnDateFromLog(init, date);
      assert forall e :: e in init ==> e in log;
    }
  }

  lemma {:induction false} OnDateAppend(a: seq<Entry>, b: seq<Entry>, date: Date)
    ensures OnDate(a + b, date) == OnDate(a, date) + OnDate(b, date)
    decreases |b|
  {
    if b != [] {
      var init := b[..|b| - 1];
      assert (a + b)[..|a + b| - 1] == a + init;
      OnDateAppend(a, init, date);
    } else {
      assert a + b == a;
    }
  }

  lemma {:induction false} SumAllAppend(a: seq<Entry>, b: seq<Entry>)
    ensures SumAll(a + b) == Plus(SumAll(a), SumAll(b))
    decreases |b|
  {
    if b != [] {
      var init := b[..|b| - 1];
      assert (a + b)[..|a + b| - 1] == a + init;
      SumAllAppend(a, init);
    } else {
      assert a + b == a;
    }
  }

  /** Totals over a log made of two parts are the sums of the two parts' totals. */
  lemma DayTotalsAppend(a: seq<Entry>, b: seq<Entry>, date: Date)
    ensures DayTotals(a + b, date) == Plus(DayTotals(a, date), DayTotals(b, date))
  {
    OnDateAppend(a, b, date);
    SumAllAppend(OnDate(a, date), OnDate(b, date));
  }

  /** Entries all dated `date` are exactly what filtering them by `date` keeps. */
  lemma {:induction false} OnDateAllSameDate(entries: seq<Entry>, date: Date)
    requires forall k :: 0 <= k < |entries| ==> entries[k].date == date
    ensures OnDate(entries, date) == entries
    decreases |entries|
  {
    if entries != [] {
      var init := entries[..|entries| - 1];
      assert forall k :: 0 <= k < |init| ==> init[k] == entries[k];
      OnDateAllSameDate(init, date);
    }
  }

  /**
   * An "Add Foods" press on `date` leaves every other date's totals unchanged and raises the
   * totals of `date` by exactly the sums of the appended entries.
   */
  lemma AddFoodsTotals(log: seq<Entry>, table: FoodTable, date: Date, selections: seq<Selection>, day: Date)
    ensures var added := Expand(table, date, selections).entries;
      DayTotals(log + added, day) ==
        if day == date then Plus(DayTotals(log, day), SumAll(added)) else DayTotals(log, day)
  {
    var added := Expand(table, date, selections).entries;
    DayTotalsAppend(log, added, day);
    if day == date {
      OnDateAllSameDate(added, date);
    } else {
      assert OnDate(added, day) == [];
    }
  }

  /** A log of one entry totals that entry's amounts on its date. */
  lemma DayTotalsOfOne(entry: Entry)
    ensures DayTotals([entry], entry.date) == entry.amount
  {
    OnDateAllSameDate([entry], entry.date);
    assert [entry][..0] == [];
    assert SumAll([entry]) == Plus(SumAll([]), entry.amount);
  }

  /** 200 g of a food at 52 kcal per 100 g, added to an empty log, totals 104 kcal for that day. */
  lemma AppleExample(date: Date)
    ensures var apple := Nutrients(52.0, 0.3, 14.0, 0.2);
      var added := Expand([FoodRow("Apple", apple)], date, [Selection("Apple", 200)]).entries;
      DayTotals(added, date).calories == 104.0
  {
    var apple := Nutrients(52.0, 0.3, 14.0, 0.2);
    var table := [FoodRow("Apple", apple)];
    var selections := [Selection("Apple", 200)];
    var entry := Entry(date, "Apple", Scale(apple, 200));
    assert Lookup(table, "Apple") == Some(apple);
    assert selections[..0] == [];
    assert Expand(table, date, selections) == AddOne(table, date, Batch([], None), selections[0]);
    assert Expand(table, date, selections).entries == [entry];
    DayTotalsOfOne(entry);
    assert entry.amount.calories == 104.0;
  }

  // ---------------------------------------------------------------------------------------
  // Nutrient breakdown

  /** Protein, carbs and fat (g) of one date. */
  datatype Macros = Macros(protein: real, carbs: real, fat: real)

  /** The breakdown of `date`: its protein, carbs and fat totals, or none ("no data") without entries. */
  function Breakdown(log: seq<Entry>, date: Date): (r: Option<Macros>)
    ensures r.None? <==> forall i :: 0 <= i < |log| ==> log[i].date != date
    ensures r.Some? ==> r.value == Macros(DayTotals(log, date).protein, DayTotals(log, date).carbs,
                                          DayTotals(log, date).fat)
  {
    var day := OnDate(log, date);
    if day == [] then None
    else
      var totals := SumAll(day);
      Some(Macros(totals.protein, totals.carbs, totals.fat))
  }

  /** A date's breakdown together with its calorie total gives back that date's full totals. */
  lemma BreakdownRecombines(log: seq<Entry>, date: Date)
    requires Breakdown(log, date).Some?
    ensures var m := Breakdown(log, date).value;
      Nutrients(DayTotals(log, date).calories, m.protein, m.carbs, m.fat) == DayTotals(log, date)
  {
  }

  // ---------------------------------------------------------------------------------------
  // The session ledger

  /** A saved snapshot of one day's totals. */
  datatype Summary = Summary(date: Date, totals: Nutrients)

  /** The tracker's session state: the food log and the saved-day history, both only appended to. */
  class Ledger {
    var log: seq<Entry>
    var summaries: seq<Summary>

    /** A new session starts with an empty log and an empty history. */
    constructor ()
      ensures log == [] && summaries == []
    {
      log := [];
      summaries := [];
    }

    /**
     * "Add Foods": appends one entry per positive-quantity selection, in order, until a food
     * missing from the table stops it; entries appended before that stay in the log.
     */
    method AddFoods(table: FoodTable, date: Date, selections: seq<Selection>) returns (unknown: Option<string>)
      modifies this
      ensures log == old(log) + Expand(table, date, selections).entries
      ensures unknown == Expand(table, date, selections).unknown
      ensures summaries == old(summaries)
      ensures forall day :: day != date ==> DayTotals(log, day) == DayTotals(old(log), day)
      ensures DayTotals(log, date) == Plus(DayTotals(old(log), date), SumAll(Expand(table, date, selections).entries))
    {
      var i := 0;
      unknown := None;
      while i < |selections| && unknown.None?
        invariant 0 <= i <= |selections|
        invariant summaries == old(summaries)
        invariant log == old(log) + Expand(table, date, selections[..i]).entries
        invariant unknown == Expand(table, date, selections[..i]).unknown
      {
        var s := selections[i];
        assert selections[..i + 1][..i] == selections[..i];
        if s.grams > 0 {
          match Lookup(table, s.food)
          case None =>
            unknown := Some(s.food);
          case Some(per100g) =>
            log := log + [Entry(date, s.food, Scale(per100g, s.grams))];
        }
        i := i + 1;
      }
      if unknown.Some? {
        ExpandStopsAtUnknown(table, date, selections, i);
      } else {
        assert selections[..i] == selections;
      }
      forall day
        ensures DayTotals(log, day) ==
          if day == date then Plus(DayTotals(old(log), day), SumAll(Expand(table, date, selections).entries))
          else DayTotals(old(log), day)
      {
        AddFoodsTotals(old(log), table, date, selections, day);
      }
    }

    /**
     * "Save Day": with a non-empty log, appends a snapshot of `date`'s current totals to the
     * history; earlier snapshots are kept as they were, and a date may be saved more than once.
     * With an empty log the button is not offered and nothing changes.
     */
    method SaveDay(date: Date) returns (saved: bool)
      modifies this
      ensures saved <==> old(log) != []
      ensures log == old(log)
      ensures summaries == if saved then old(summaries) + [Summary(date, DayTotals(log, date))] else old(summaries)
    {
      saved := log != [];
      if saved {
        summaries := summaries + [Summary(date, DayTotals(log, date))];
      }
    }
  }
}
