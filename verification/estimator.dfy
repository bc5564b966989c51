/** The BAC estimate of the calculator: total alcohol over the drink list, the
    Widmark formula with hourly elimination and a meal factor, clamped at zero and
    rounded to thousandths. Arithmetic is over `real`, not IEEE doubles. */
module Estimator {
  import opened Wrappers
  import opened Drinks

  /** The form the wizard fills in. `weight`, `height` and `age` are None when
      the input is empty or does not parse as a number (NaN). */
  datatype Form = Form(
    drinks: seq<DrinkEntry>,
    timeSinceDrinking: real,
    gender: string,
    weight: Option<real>,
    height: Option<real>,
    age: Option<real>,
    eatingStatus: string)

  /** Density of ethanol in g/ml. */
  const EthanolDensity: real := 0.789
  /** Widmark body-water constants. */
  const MaleWater: real := 0.68
  const FemaleWater: real := 0.55
  /** Average elimination in BAC percentage points per hour. */
  const Elimination: real := 0.015

  /** Millilitres of pure alcohol in one serving of a list entry. */
  function ServingAlcohol(d: DrinkEntry): real {
    d.amount * (d.alcoholPercentage / 100.0)
  }

  /** Millilitres of pure alcohol in one list entry: `amount * (alcoholPercentage / 100) * quantity`. */
  function Contribution(d: DrinkEntry): (c: real)
    ensures d.quantity >= 1 && SaneServing(d.amount, d.alcoholPercentage) ==> c >= ServingAlcohol(d) > 0.0
  {
    ServingAlcohol(d) * (d.quantity as real)
  }

  /** The `reduce` over the drink list: contributions added left to right from 0. */
  function TotalAlcohol(drinks: seq<DrinkEntry>): (t: real)
    ensures drinks == [] ==> t == 0.0
    ensures Sane(drinks) ==> t >= 0.0
    ensures Sane(drinks) && drinks != [] ==> t > 0.0
  {
    if |drinks| == 0 then 0.0
    else
      var d := drinks[|drinks| - 1];
      assert Sane(drinks) ==> Contribution(d) > 0.0 by {
        if Sane(drinks) {
          assert ServingAlcohol(d) > 0.0;
        }
      }
      TotalAlcohol(drinks[..|drinks| - 1]) + Contribution(d)
  }

  /** The total over a concatenation is the sum of the totals. */
  lemma {:induction false} TotalAlcoholConcat(a: seq<DrinkEntry>, b: seq<DrinkEntry>)
    ensures TotalAlcohol(a + b) == TotalAlcohol(a) + TotalAlcohol(b)
    decreases |b|
  {
    if |b| == 0 {
      assert a + b == a;
    } else {
      var n := |b| - 1;
      assert (a + b)[..|a + b| - 1] == a + b[..n];
      TotalAlcoholConcat(a, b[..n]);
    }
  }

  /** The total is the plain sum of contributions, accumulated front to back. */
  method SumAlcohol(drinks: seq<DrinkEntry>) returns (total: real)
    ensures total == TotalAlcohol(drinks)
  {
    total := 0.0;
    var i := 0;
    while i < |drinks|
      invariant 0 <= i <= |drinks|
      invariant total == TotalAlcohol(drinks[..i])
    {
      assert drinks[..i + 1][..i] == drinks[..i];
      total := total + Contribution(drinks[i]);
      i := i + 1;
    }
    assert drinks[..i] == drinks;
  }

  /** The guard: a missing, NaN or zero weight, or no gender, yields BAC 0. */
  predicate Guarded(f: Form) {
    f.weight.None? || f.weight.value == 0.0 || f.gender == ""
  }

  /** The body-water constant: 0.68 exactly for "male", 0.55 for anything else. */
  function BodyWater(gender: string): (r: real)
    ensures r == MaleWater <==> gender == "male"
    ensures r == FemaleWater <==> gender != "male"
  {
    if gender == "male" then MaleWater else FemaleWater
  }

  /** The meal factor: 0.7 for "full", 0.9 for "some", 1 for any other status. */
  function MealFactor(status: string): (m: real)
    ensures 0.0 < m <= 1.0
    ensures m == 0.7 <==> status == "full"
    ensures m == 0.9 <==> status == "some"
    ensures m == 1.0 <==> status != "full" && status != "some"
  {
    if status == "full" then 0.7
    else if status == "some" then 0.9
    else 1.0
  }

  function Max(a: real, b: real): real {
    if a >= b then a else b
  }

  /** `Math.round(x * 1000) / 1000`: the multiple of 0.001 nearest to `x`,
      with halves rounded up. */
  function Round3(x: real): (r: real)
    ensures (r * 1000.0).Floor as real == r * 1000.0
    ensures r - 0.0005 <= x < r + 0.0005
    ensures x >= 0.0 ==> r >= 0.0
  {
    ((x * 1000.0 + 0.5).Floor as real) / 1000.0
  }

  /** Exactly one grid point lies within half a step (halves up) of `x`, and it is Round3(x). */
  lemma Round3Unique(x: real, k: int)
    requires (k as real) / 1000.0 - 0.0005 <= x < (k as real) / 1000.0 + 0.0005
    ensures Round3(x) == (k as real) / 1000.0
  {
    var v := x * 1000.0 + 0.5;
    assert (k as real) <= v < (k as real) + 1.0;
    assert v.Floor == k;
  }

  /** Rounding never reverses an order. */
  lemma Round3Monotone(x: real, y: real)
    requires x <= y
    ensures Round3(x) <= Round3(y)
  {
    var u := x * 1000.0 + 0.5;
    var v := y * 1000.0 + 0.5;
    assert u <= v;
    assert u.Floor <= v.Floor;
    assert (u.Floor as real) / 1000.0 <= (v.Floor as real) / 1000.0;
  }

  /** The clamped, unrounded Widmark estimate for a known non-zero weight. */
  function Widmark(total: real, weight: real, gender: string, hours: real, status: string): (x: real)
    requires weight != 0.0
    ensures x >= 0.0
  {
    var grams := total * EthanolDensity;
    var raw := grams / (weight * BodyWater(gender)) / 10.0;
    var eliminated := Max(0.0, raw - Elimination * hours);
    Max(0.0, eliminated * MealFactor(status))
  }

  /** The estimate shown to the user. */
  function Estimate(f: Form): (bac: real)
    ensures bac >= 0.0
    ensures (bac * 1000.0).Floor as real == bac * 1000.0
    ensures Guarded(f) ==> bac == 0.0
    ensures !Guarded(f) ==>
      var x := Widmark(TotalAlcohol(f.drinks), f.weight.value, f.gender, f.timeSinceDrinking, f.eatingStatus);
      bac - 0.0005 <= x < bac + 0.0005
  {
    if Guarded(f) then 0.0
    else Round3(Widmark(TotalAlcohol(f.drinks), f.weight.value, f.gender, f.timeSinceDrinking, f.eatingStatus))
  }

  lemma DivMonotone(a: real, b: real, c: real)
    requires a <= b && c > 0.0
    ensures a / c <= b / c
  {
    assert b / c - a / c == (b - a) / c;
  }

  /** With a non-negative weight, more alcohol never lowers the unrounded estimate. */
  lemma WidmarkMonotoneInAlcohol(t1: real, t2: real, weight: real, gender: string, hours: real, status: string)
    requires t1 <= t2 && weight > 0.0
    ensures Widmark(t1, weight, gender, hours, status) <= Widmark(t2, weight, gender, hours, status)
  {
    var c := weight * BodyWater(gender);
    assert c > 0.0;
    DivMonotone(t1 * EthanolDensity, t2 * EthanolDensity, c);
    var m := MealFactor(status);
    var e1 := Max(0.0, t1 * EthanolDensity / c / 10.0 - Elimination * hours);
    var e2 := Max(0.0, t2 * EthanolDensity / c / 10.0 - Elimination * hours);
    assert e1 <= e2;
    assert e1 * m <= e2 * m;
  }

  /** With a non-negative weight and every other field fixed, the estimate is
      non-decreasing in the total alcohol of the drink list. */
  lemma EstimateMonotoneInAlcohol(f1: Form, f2: Form)
    requires f1.(drinks := f2.drinks) == f2
    requires f1.weight.None? || f1.weight.value >= 0.0
    requires TotalAlcohol(f1.drinks) <= TotalAlcohol(f2.drinks)
    ensures Estimate(f1) <= Estimate(f2)
  {
    if !Guarded(f1) {
      var w := f1.weight.value;
      WidmarkMonotoneInAlcohol(TotalAlcohol(f1.drinks), TotalAlcohol(f2.drinks), w,
        f1.gender, f1.timeSinceDrinking, f1.eatingStatus);
      Round3Monotone(
        Widmark(TotalAlcohol(f1.drinks), w, f1.gender, f1.timeSinceDrinking, f1.eatingStatus),
        Widmark(TotalAlcohol(f2.drinks), w, f1.gender, f1.timeSinceDrinking, f1.eatingStatus));
    }
  }

  /** More elapsed time never raises the unrounded estimate, whatever the weight. */
  lemma WidmarkAntitoneInHours(total: real, weight: real, gender: string, h1: real, h2: real, status: string)
    requires h1 <= h2 && weight != 0.0
    ensures Widmark(total, weight, gender, h2, status) <= Widmark(total, weight, gender, h1, status)
  {
    var raw := total * EthanolDensity / (weight * BodyWater(gender)) / 10.0;
    var m := MealFactor(status);
    var e1 := Max(0.0, raw - Elimination * h1);
    var e2 := Max(0.0, raw - Elimination * h2);
    assert e2 <= e1;
    assert e2 * m <= e1 * m;
  }

  /** With every other field fixed, the estimate is non-increasing in the hours since drinking. */
  lemma EstimateAntitoneInHours(f1: Form, f2: Form)
    requires f1.(timeSinceDrinking := f2.timeSinceDrinking) == f2
    requires f1.timeSinceDrinking <= f2.timeSinceDrinking
    ensures Estimate(f2) <= Estimate(f1)
  {
    if !Guarded(f1) {
      var t := TotalAlcohol(f1.drinks);
      var w := f1.weight.value;
      WidmarkAntitoneInHours(t, w, f1.gender, f1.timeSinceDrinking, f2.timeSinceDrinking, f1.eatingStatus);
      Round3Monotone(
        Widmark(t, w, f1.gender, f2.timeSinceDrinking, f1.eatingStatus),
        Widmark(t, w, f1.gender, f1.timeSinceDrinking, f1.eatingStatus));
    }
  }

  /** Nothing drunk and no negative elapsed time: the estimate is 0. */
  lemma EmptyDrinksEstimateZero(f: Form)
    requires f.drinks == [] && f.timeSinceDrinking >= 0.0
    ensures Estimate(f) == 0.0
  {
    if !Guarded(f) {
      var w := f.weight.value;
      assert 0.0 * EthanolDensity / (w * BodyWater(f.gender)) / 10.0 == 0.0;
      Round3Unique(Widmark(0.0, w, f.gender, f.timeSinceDrinking, f.eatingStatus), 0);
    }
  }

  /** The total of a one-entry list is that entry's alcohol. */
  lemma TotalSingleton(d: DrinkEntry)
    ensures TotalAlcohol([d]) == Contribution(d)
  {
    assert [d][..0] == [];
  }

  lemma SplitAt(list: seq<DrinkEntry>, index: int)
    requires 0 <= index < |list|
    ensures list == list[..index] + ([list[index]] + list[index + 1..])
  {
  }

  /** Removing the entry at `index` removes exactly its alcohol from the total. */
  lemma RemoveDrinkTotal(list: seq<DrinkEntry>, index: int)
    requires 0 <= index < |list|
    ensures TotalAlcohol(RemoveDrink(list, index)) == TotalAlcohol(list) - Contribution(list[index])
  {
    var a, d, b := list[..index], list[index], list[index + 1..];
    SplitAt(list, index);
    TotalAlcoholConcat(a, [d] + b);
    TotalAlcoholConcat([d], b);
    TotalAlcoholConcat(a, b);
    TotalSingleton(d);
  }

  /** Replacing the entry at `index` changes the total by the difference of contributions. */
  lemma {:induction false} ReplaceTotal(list: seq<DrinkEntry>, index: int, d: DrinkEntry)
    requires 0 <= index < |list|
    ensures TotalAlcohol(list[index := d]) == TotalAlcohol(list) - Contribution(list[index]) + Contribution(d)
    decreases |list|
  {
    var n := |list| - 1;
    var r := list[index := d];
    assert TotalAlcohol(list) == TotalAlcohol(list[..n]) + Contribution(list[n]);
    assert TotalAlcohol(r) == TotalAlcohol(r[..n]) + Contribution(r[n]);
    if index == n {
      assert r[..n] == list[..n];
    } else {
      assert r[..n] == list[..n][index := d];
      ReplaceTotal(list[..n], index, d);
    }
  }

  /** One more serving of an entry adds exactly one serving's alcohol. */
  lemma ContributionOneMore(d: DrinkEntry)
    ensures Contribution(d.(quantity := d.quantity + 1)) == Contribution(d) + ServingAlcohol(d)
  {
    var a := ServingAlcohol(d);
    assert ServingAlcohol(d.(quantity := d.quantity + 1)) == a;
    assert a * ((d.quantity + 1) as real) == a * (d.quantity as real) + a;
  }

  /** Merging adds one more serving of the matched entry; appending adds the new entry's alcohol. */
  lemma MergeOrAppendTotal(list: seq<DrinkEntry>, e: DrinkEntry)
    ensures var k := MatchIndex(list, e);
      && (0 <= k ==> TotalAlcohol(MergeOrAppend(list, e)) == TotalAlcohol(list) + ServingAlcohol(list[k]))
      && (k < 0 ==> TotalAlcohol(MergeOrAppend(list, e)) == TotalAlcohol(list) + Contribution(e))
  {
    var k := MatchIndex(list, e);
    if 0 <= k {
      var d := list[k].(quantity := list[k].quantity + 1);
      assert MergeOrAppend(list, e) == list[k := d];
      ReplaceTotal(list, k, d);
      ContributionOneMore(list[k]);
    } else {
      assert MergeOrAppend(list, e) == list + [e];
      assert (list + [e])[..|list|] == list;
    }
  }

  /** Quantity edits change the total only through the edited entry's contribution. */
  lemma UpdateQuantityTotal(list: seq<DrinkEntry>, index: int, change: int)
    requires 0 <= index < |list|
    ensures var r := UpdateQuantity(list, index, change);
      TotalAlcohol(r) == TotalAlcohol(list) - Contribution(list[index]) + Contribution(r[index])
  {
    var r := UpdateQuantity(list, index, change);
    assert r == list[index := r[index]];
    ReplaceTotal(list, index, r[index]);
  }

  /** One 330 ml beer at 5 %, male, 80 kg, just finished, empty stomach: 0.024. */
  lemma ExampleOneBeer()
    ensures Estimate(Form([DrinkEntry("b", "Beer", Beer, 5.0, 330.0, "Can", 1)], 0.0, "male",
                          Some(80.0), None, None, "empty")) == 0.024
  {
    var f := Form([DrinkEntry("b", "Beer", Beer, 5.0, 330.0, "Can", 1)], 0.0, "male",
                  Some(80.0), None, None, "empty");
    assert TotalAlcohol(f.drinks) == 16.5 by {
      assert f.drinks[..0] == [];
    }
    Round3Unique(Widmark(16.5, 80.0, "male", 0.0, "empty"), 24);
  }

  /** The same beer after a full meal: 0.017. */
  lemma ExampleOneBeerFullMeal()
    ensures Estimate(Form([DrinkEntry("b", "Beer", Beer, 5.0, 330.0, "Can", 1)], 0.0, "male",
                          Some(80.0), None, None, "full")) == 0.017
  {
    var f := Form([DrinkEntry("b", "Beer", Beer, 5.0, 330.0, "Can", 1)], 0.0, "male",
                  Some(80.0), None, None, "full");
    assert TotalAlcohol(f.drinks) == 16.5 by {
      assert f.drinks[..0] == [];
    }
    Round3Unique(Widmark(16.5, 80.0, "male", 0.0, "full"), 17);
  }

  /** The same beer two hours later: elimination outweighs it and the clamp gives 0. */
  lemma ExampleOneBeerTwoHours()
    ensures Estimate(Form([DrinkEntry("b", "Beer", Beer, 5.0, 330.0, "Can", 1)], 2.0, "male",
                          Some(80.0), None, None, "empty")) == 0.0
  {
    var f := Form([DrinkEntry("b", "Beer", Beer, 5.0, 330.0, "Can", 1)], 2.0, "male",
                  Some(80.0), None, None, "empty");
    assert TotalAlcohol(f.drinks) == 16.5 by {
      assert f.drinks[..0] == [];
    }
    Round3Unique(Widmark(16.5, 80.0, "male", 2.0, "empty"), 0);
  }
}
