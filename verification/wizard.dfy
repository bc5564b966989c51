/** The calculator wizard: the step/progress pair, the form merge, and the
    calculation that ends the wizard on the results step. The delayed calculation
    is modelled as one atomic step. */
module Wizard {
  import opened Wrappers
  import opened Drinks
  import opened Estimator
  import opened Matcher

  /** What the results step shows. */
  datatype Results = Results(bac: real, countries: seq<CountryLimit>)

  /** A partial form update: None means the key is absent from the update object. */
  datatype Patch = Patch(
    drinks: Option<seq<DrinkEntry>>,
    timeSinceDrinking: Option<real>,
    gender: Option<string>,
    weight: Option<Option<real>>,
    height: Option<Option<real>>,
    age: Option<Option<real>>,
    eatingStatus: Option<string>)

  datatype State = State(step: int, progress: int, form: Form, results: Results)

  /** The empty form the wizard starts with. */
  const InitialForm: Form := Form([], 0.0, "", Some(0.0), Some(0.0), Some(0.0), "")

  const Initial: State := State(1, 25, InitialForm, Results(0.0, []))

  /** The step machine's invariant: five steps, progress a quarter per step up to 100. */
  predicate Inv(s: State) {
    1 <= s.step <= 5 && s.progress == 25 * (if s.step < 4 then s.step else 4)
  }

  /** A patched field takes the patch's value, an absent one keeps the old value. */
  function Patched<T>(p: Option<T>, current: T): (v: T)
    ensures p.None? ==> v == current
    ensures p.Some? ==> v == p.value
  {
    match p
    case Some(x) => x
    case None => current
  }

  /** `updateFormData`: an update whose drink list equals the current one is
      dropped whole; otherwise `{ ...prev, ...data }`. */
  function UpdateFormData(prev: Form, patch: Patch): (r: Form)
    ensures patch.drinks == Some(prev.drinks) ==> r == prev
    ensures patch.drinks != Some(prev.drinks) ==>
      && r.drinks == Patched(patch.drinks, prev.drinks)
      && r.timeSinceDrinking == Patched(patch.timeSinceDrinking, prev.timeSinceDrinking)
      && r.gender == Patched(patch.gender, prev.gender)
      && r.weight == Patched(patch.weight, prev.weight)
      && r.height == Patched(patch.height, prev.height)
      && r.age == Patched(patch.age, prev.age)
      && r.eatingStatus == Patched(patch.eatingStatus, prev.eatingStatus)
  {
    if patch.drinks.Some? && patch.drinks.value == prev.drinks then prev
    else
      Form(
        Patched(patch.drinks, prev.drinks),
        Patched(patch.timeSinceDrinking, prev.timeSinceDrinking),
        Patched(patch.gender, prev.gender),
        Patched(patch.weight, prev.weight),
        Patched(patch.height, prev.height),
        Patched(patch.age, prev.age),
        Patched(patch.eatingStatus, prev.eatingStatus))
  }

  /** Applying the same update twice is the same as applying it once. */
  lemma UpdateFormDataIdempotent(prev: Form, patch: Patch)
    ensures UpdateFormData(UpdateFormData(prev, patch), patch) == UpdateFormData(prev, patch)
  {
  }

  /** An update carrying the current drink list loses its other fields: here a
      gender and a weight are silently discarded. */
  lemma UpdateWithSameDrinksIsDropped(prev: Form)
    requires prev.gender == ""
    ensures UpdateFormData(prev, Patch(Some(prev.drinks), None, Some("male"), Some(Some(80.0)), None, None, None)).gender == ""
    ensures UpdateFormData(prev, Patch(Some(prev.drinks), None, Some("male"), Some(Some(80.0)), None, None, None)) == prev
  {
  }

  /** `calculateResults` without its timer: the estimate, and the matching countries
      unless the guard fired, in which case the list is empty and the matcher is not used. */
  function Compute(f: Form, table: seq<CountryLimit>): (r: Results)
    ensures r.bac == Estimate(f)
    ensures Guarded(f) ==> r == Results(0.0, [])
    ensures !Guarded(f) ==> r.countries == CountriesForBac(table, r.bac)
  {
    if Guarded(f) then Results(0.0, [])
    else
      var bac := Estimate(f);
      Results(bac, CountriesForBac(table, bac))
  }

  /** Calculation always ends on the results step with a full progress bar. */
  function Calculate(s: State, table: seq<CountryLimit>): (r: State)
    ensures r.step == 5 && r.progress == 100
    ensures r.form == s.form && r.results == Compute(s.form, table)
    ensures Inv(r)
  {
    s.(step := 5, progress := 100, results := Compute(s.form, table))
  }

  /** `nextStep`: below step 4 advance one step; otherwise calculate. */
  function NextStep(s: State, table: seq<CountryLimit>): (r: State)
    ensures s.step < 4 ==> r == s.(step := s.step + 1, progress := 25 * (s.step + 1))
    ensures s.step >= 4 ==> r == Calculate(s, table)
    ensures Inv(s) ==> Inv(r)
  {
    if s.step < 4 then s.(step := s.step + 1, progress := (s.step + 1) * 25)
    else Calculate(s, table)
  }

  /** `prevStep`: go back one step, never below step 1. */
  function PrevStep(s: State): (r: State)
    ensures s.step > 1 ==> r.step == s.step - 1 && r.form == s.form && r.results == s.results
    ensures s.step <= 1 ==> r == s
    ensures s.step >= 1 ==> r.step >= 1
    ensures Inv(s) ==> Inv(r)
  {
    if s.step > 1 then s.(step := s.step - 1, progress := s.step * 25 - 25)
    else s
  }

  /** What the user can do: step buttons, the three drink-list edits (each pushes
      the new list as an update), the time slider, and the personal-info fields
      (that screen always sends all five of its keys). */
  datatype Event =
    | Next
    | Prev
    | CalculateNow
    | AddDrinkEvent(cat: Category, drink: Option<string>, size: Option<string>)
    | RemoveDrinkEvent(index: int)
    | ChangeQuantity(index: int, change: int)
    | SetTime(hours: real)
    | SetPersonal(gender: string, weight: Option<real>, height: Option<real>, age: Option<real>, eatingStatus: string)

  function DrinksPatch(list: seq<DrinkEntry>): Patch {
    Patch(Some(list), None, None, None, None, None, None)
  }

  /** One user action. A quantity change names an entry that is on screen, so an
      index outside the list does not occur; it is treated as no action. */
  function Step(s: State, e: Event, table: seq<CountryLimit>): (r: State)
    ensures Inv(s) ==> Inv(r)
    ensures ListOk(s.form.drinks) ==> ListOk(r.form.drinks)
  {
    match e
    case Next => NextStep(s, table)
    case Prev => PrevStep(s)
    case CalculateNow => Calculate(s, table)
    case AddDrinkEvent(cat, drink, size) =>
      s.(form := UpdateFormData(s.form, DrinksPatch(AddDrink(s.form.drinks, cat, drink, size))))
    case RemoveDrinkEvent(index) =>
      s.(form := UpdateFormData(s.form, DrinksPatch(RemoveDrink(s.form.drinks, index))))
    case ChangeQuantity(index, change) =>
      if 0 <= index < |s.form.drinks| then
        s.(form := UpdateFormData(s.form, DrinksPatch(UpdateQuantity(s.form.drinks, index, change))))
      else s
    case SetTime(hours) =>
      s.(form := UpdateFormData(s.form, Patch(None, Some(hours), None, None, None, None, None)))
    case SetPersonal(gender, weight, height, age, eatingStatus) =>
      s.(form := UpdateFormData(s.form,
        Patch(None, None, Some(gender), Some(weight), Some(height), Some(age), Some(eatingStatus))))
  }

  /** The state after a sequence of actions. */
  function Run(s: State, events: seq<Event>, table: seq<CountryLimit>): State
    decreases |events|
  {
    if |events| == 0 then s
    else Run(Step(s, events[0], table), events[1..], table)
  }

  /** Whatever the user does from the start, the step stays in 1..5, the progress
      is 25 per step capped at 100, and the drink list has unique entries with
      positive quantities and sane servings. */
  lemma {:induction false} RunKeepsInvariants(s: State, events: seq<Event>, table: seq<CountryLimit>)
    requires Inv(s) && ListOk(s.form.drinks)
    ensures Inv(Run(s, events, table)) && ListOk(Run(s, events, table).form.drinks)
    decreases |events|
  {
    if |events| > 0 {
      RunKeepsInvariants(Step(s, events[0], table), events[1..], table);
    }
  }

  /** The initial state satisfies both invariants, so every reachable state does. */
  lemma ReachableStatesAreWellFormed(events: seq<Event>, table: seq<CountryLimit>)
    ensures Inv(Run(Initial, events, table))
    ensures 1 <= Run(Initial, events, table).step <= 5
    ensures ListOk(Run(Initial, events, table).form.drinks)
  {
    RunKeepsInvariants(Initial, events, table);
  }
}
