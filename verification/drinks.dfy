/** The drink picker: the static catalogue of drinks and serving sizes, and the
    three edits of the user's drink list (add, remove, change quantity). */
module Drinks {
  import opened Wrappers
  import opened Seqs

  /** The three tabs of the picker. */
  datatype Category = Beer | Wine | Spirits

  datatype ServingSize = ServingSize(id: string, name: string, amount: real)

  datatype DrinkOption = DrinkOption(id: string, name: string, alcoholPercentage: real)

  datatype CategoryInfo = CategoryInfo(id: Category, name: string, options: seq<DrinkOption>)

  /** One line of the user's drink list. Amount is in ml, the percentage is ABV;
      colours and emoji are presentation and are not kept. */
  datatype DrinkEntry = DrinkEntry(
    id: string,
    name: string,
    category: Category,
    alcoholPercentage: real,
    amount: real,
    servingType: string,
    quantity: int)

  /** The serving sizes offered in each category. */
  function ServingSizes(c: Category): seq<ServingSize> {
    match c
    case Beer =>
      [ServingSize("can", "Can", 330.0),
       ServingSize("pint", "Pint", 500.0)]
    case Wine =>
      [ServingSize("glass", "Glass", 175.0),
       ServingSize("bottle_shared", "Bottle (shared by 4)", 750.0 / 4.0),
       ServingSize("bottle_solo", "Bottle (on my own)", 750.0)]
    case Spirits =>
      [ServingSize("shot", "Shot", 25.0),
       ServingSize("double", "Double", 50.0)]
  }

  /** The drink options of each category, in tab order. */
  const Catalogue: seq<CategoryInfo> := [
    CategoryInfo(Beer, "Beer", [
      DrinkOption("lightlager", "Light", 4.5),
      DrinkOption("lager", "Lager", 5.2),
      DrinkOption("ale", "Ale", 5.8),
      DrinkOption("ipa", "IPA", 6.5),
      DrinkOption("craft", "Craft", 7.2)]),
    CategoryInfo(Wine, "Wine", [
      DrinkOption("red", "Red", 13.0),
      DrinkOption("white", "White", 12.0),
      DrinkOption("rose", "Rosé", 11.0),
      DrinkOption("sparkling", "Sparkling", 12.0)]),
    CategoryInfo(Spirits, "Spirits", [
      DrinkOption("vodka", "Vodka", 37.5),
      DrinkOption("whiskey", "Whiskey", 42.0),
      DrinkOption("rum", "Rum", 45.0),
      DrinkOption("gin", "Gin", 40.5),
      DrinkOption("tequila", "Tequila", 40.0)])
  ]

  /** A physically meaningful serving: positive volume, ABV strictly between 0 and 100. */
  predicate SaneServing(amount: real, alcoholPercentage: real) {
    amount > 0.0 && 0.0 < alcoholPercentage < 100.0
  }

  /** The drink options listed under a category; every ABV lies strictly between 0 and 100. */
  function Options(cat: Category): (r: seq<DrinkOption>)
    ensures forall i :: 0 <= i < |Catalogue| && Catalogue[i].id == cat ==> r == Catalogue[i].options
    ensures forall j :: 0 <= j < |r| ==> 0.0 < r[j].alcoholPercentage < 100.0
  {
    match cat
    case Beer => Catalogue[0].options
    case Wine => Catalogue[1].options
    case Spirits => Catalogue[2].options
  }

  /** Every serving volume is positive; the shared bottle is 750 / 4 = 187.5 ml. */
  lemma ServingSizesPositive(cat: Category)
    ensures forall k :: 0 <= k < |ServingSizes(cat)| ==> ServingSizes(cat)[k].amount > 0.0
    ensures ServingSizes(Wine)[1].amount == 187.5
  {
  }

  /** `drinkCategories.find(c => c.id === selectedCategory)`: it always succeeds,
      so the early return on a missing category is never taken. */
  function FindCategory(cat: Category): (r: Option<CategoryInfo>)
    ensures r.Some? && r.value.id == cat && r.value.options == Options(cat)
  {
    var p := (c: CategoryInfo) => c.id == cat;
    match cat
    case Beer => assert p(Catalogue[0]); Find(Catalogue, p)
    case Wine => assert p(Catalogue[1]); Find(Catalogue, p)
    case Spirits => assert p(Catalogue[2]); Find(Catalogue, p)
  }

  /** JavaScript truthiness of a selected id: neither null nor the empty string. */
  predicate Selected(s: Option<string>) {
    s.Some? && s.value != ""
  }

  /** Two list entries describe the same drink in the same serving. */
  predicate SameKey(a: DrinkEntry, b: DrinkEntry) {
    a.id == b.id && a.category == b.category
  }

  /** No two entries of the list share an (id, category) pair. */
  predicate Unique(list: seq<DrinkEntry>) {
    forall i, j :: 0 <= i < j < |list| ==> !SameKey(list[i], list[j])
  }

  /** Every entry has a positive quantity and a sane serving. */
  predicate Sane(list: seq<DrinkEntry>) {
    forall i :: 0 <= i < |list| ==>
      list[i].quantity >= 1 && SaneServing(list[i].amount, list[i].alcoholPercentage)
  }

  /** The invariant every edit of the drink list keeps. */
  predicate ListOk(list: seq<DrinkEntry>) {
    Unique(list) && Sane(list)
  }

  /** The option and the serving size a drink id and a size id name, when both resolve. */
  function Lookup(options: seq<DrinkOption>, sizes: seq<ServingSize>, drink: string, size: string)
    : (r: Option<(DrinkOption, ServingSize)>)
    ensures r.None? <==>
      || (forall j :: 0 <= j < |options| ==> options[j].id != drink)
      || (forall k :: 0 <= k < |sizes| ==> sizes[k].id != size)
    ensures r.Some? ==>
      r.value.0 in options && r.value.1 in sizes && r.value.0.id == drink && r.value.1.id == size
  {
    match (Find(options, (o: DrinkOption) => o.id == drink), Find(sizes, (s: ServingSize) => s.id == size))
    case (Some(o), Some(s)) => Some((o, s))
    case _ => None
  }

  /** The entry a selection of category, drink id and size id adds, when the
      selection is complete and both ids resolve in that category's tables. */
  function Resolve(cat: Category, drink: Option<string>, size: Option<string>): (r: Option<DrinkEntry>)
    ensures r.None? <==>
      || !Selected(drink) || !Selected(size)
      || (forall j :: 0 <= j < |Options(cat)| ==> Options(cat)[j].id != drink.value)
      || (forall k :: 0 <= k < |ServingSizes(cat)| ==> ServingSizes(cat)[k].id != size.value)
    ensures r.Some? ==>
      && r.value.quantity == 1
      && r.value.category == cat
      && SaneServing(r.value.amount, r.value.alcoholPercentage)
      && (exists o, s :: o in Options(cat) && s in ServingSizes(cat) &&
            o.id == drink.value && s.id == size.value &&
            r.value.id == o.id + "-" + s.id &&
            r.value.alcoholPercentage == o.alcoholPercentage && r.value.amount == s.amount)
  {
    if !Selected(drink) || !Selected(size) then None
    else
      match FindCategory(cat)
      case None => None
      case Some(info) =>
        match Lookup(info.options, ServingSizes(cat), drink.value, size.value)
        case Some((o, s)) =>
          ServingSizesPositive(cat);
          Some(DrinkEntry(o.id + "-" + s.id, o.name, cat, o.alcoholPercentage, s.amount, s.name, 1))
        case None => None
  }

  /** Index of the entry with the same (id, category) as `e`, or -1. */
  function MatchIndex(list: seq<DrinkEntry>, e: DrinkEntry): (k: int)
    ensures -1 <= k < |list|
    ensures k == -1 <==> forall j :: 0 <= j < |list| ==> !SameKey(list[j], e)
    ensures 0 <= k ==> SameKey(list[k], e) && forall j :: 0 <= j < k ==> !SameKey(list[j], e)
    ensures Unique(list) ==> forall j :: 0 <= j < |list| && SameKey(list[j], e) ==> j == k
  {
    var k := FindIndex(list, (d: DrinkEntry) => SameKey(d, e));
    k
  }

  /** Merge-or-append: bump the quantity of the entry matching `e` by one,
      or append `e` when no entry matches. */
  function MergeOrAppend(list: seq<DrinkEntry>, e: DrinkEntry): (r: seq<DrinkEntry>)
    ensures var k := MatchIndex(list, e);
      && (0 <= k ==>
            && |r| == |list|
            && r[k] == list[k].(quantity := list[k].quantity + 1)
            && forall j :: 0 <= j < |list| && j != k ==> r[j] == list[j])
      && (k < 0 ==> r == list + [e])
    ensures ListOk(list) && e.quantity >= 1 && SaneServing(e.amount, e.alcoholPercentage) ==> ListOk(r)
  {
    var k := MatchIndex(list, e);
    if k >= 0 then
      list[k := list[k].(quantity := list[k].quantity + 1)]
    else
      var r := list + [e];
      assert ListOk(list) ==> Unique(r) by {
        if ListOk(list) {
          forall i, j | 0 <= i < j < |r| ensures !SameKey(r[i], r[j]) {
            if j == |list| {
              assert !SameKey(list[i], e);
            }
          }
        }
      }
      r
  }

  /** Add the selected drink: an incomplete or unresolvable selection leaves the
      list alone; otherwise the resolved entry is merged or appended. */
  function AddDrink(list: seq<DrinkEntry>, cat: Category, drink: Option<string>, size: Option<string>)
    : (r: seq<DrinkEntry>)
    ensures Resolve(cat, drink, size).None? ==> r == list
    ensures Resolve(cat, drink, size).Some? ==> r == MergeOrAppend(list, Resolve(cat, drink, size).value)
    ensures ListOk(list) ==> ListOk(r)
  {
    match Resolve(cat, drink, size)
    case None => list
    case Some(e) => MergeOrAppend(list, e)
  }

  /** Cutting one entry out of a well-formed list leaves a well-formed list. */
  lemma SpliceOk(list: seq<DrinkEntry>, index: int)
    requires ListOk(list) && 0 <= index < |list|
    ensures ListOk(list[..index] + list[index + 1..])
  {
    var r := list[..index] + list[index + 1..];
    forall i | 0 <= i < |r| ensures r[i] == list[if i < index then i else i + 1] {
    }
  }

  /** `list.filter((_, i) => i !== index)`: drop the entry at `index`, if there is one. */
  function RemoveDrink(list: seq<DrinkEntry>, index: int): (r: seq<DrinkEntry>)
    ensures 0 <= index < |list| ==> r == list[..index] + list[index + 1..]
    ensures !(0 <= index < |list|) ==> r == list
    ensures ListOk(list) ==> ListOk(r)
    decreases |list|
  {
    if |list| == 0 then []
    else
      var n := |list| - 1;
      var rest := RemoveDrink(list[..n], index);
      var r := rest + (if n == index then [] else [list[n]]);
      assert list[..n] + [list[n]] == list;
      assert 0 <= index < |list| ==> r == list[..index] + list[index + 1..] by {
        if 0 <= index < n {
          assert list[..n][..index] == list[..index];
          assert list[..n][index + 1..] + [list[n]] == list[index + 1..];
        }
      }
      assert ListOk(list) && 0 <= index < |list| ==> ListOk(r) by {
        if ListOk(list) && 0 <= index < |list| {
          SpliceOk(list, index);
        }
      }
      r
  }

  /** Change the quantity of the entry at `index` by `change`, never below 1. */
  function UpdateQuantity(list: seq<DrinkEntry>, index: int, change: int): (r: seq<DrinkEntry>)
    requires 0 <= index < |list|
    ensures |r| == |list|
    ensures r[index].quantity >= 1
    ensures list[index].quantity + change >= 1 ==> r[index].quantity == list[index].quantity + change
    ensures list[index].quantity + change < 1 ==> r[index].quantity == 1
    ensures r[index] == list[index].(quantity := r[index].quantity)
    ensures forall i :: 0 <= i < |list| && i != index ==> r[i] == list[i]
    ensures ListOk(list) ==> ListOk(r)
  {
    var q := list[index].quantity + change;
    list[index := list[index].(quantity := if q < 1 then 1 else q)]
  }
}
