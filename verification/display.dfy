/** The results screen: BAC banding (colour, message and the three inline
    colour selectors), the gauge value, the "No limit!" label, and the loading
    state of the countries panel. Class names and messages are kept as strings. */
module Display {
  import opened Matcher
  import opened Estimator
  import opened Wizard

  /** The four severity bands of the results screen, in increasing order. */
  datatype Band = Sober | Low | Moderate | High

  function Rank(b: Band): nat {
    match b
    case Sober => 0
    case Low => 1
    case Moderate => 2
    case High => 3
  }

  /** The band of a BAC, defined by the interval it lies in. */
  function BandOf(bac: real): (b: Band)
    ensures b == Sober <==> bac == 0.0
    ensures b == Low <==> bac != 0.0 && bac < 0.05
    ensures b == Moderate <==> 0.05 <= bac < 0.08
    ensures b == High <==> 0.08 <= bac
  {
    if bac == 0.0 then Sober
    else if bac < 0.05 then Low
    else if bac < 0.08 then Moderate
    else High
  }

  /** On non-negative values the band never goes down as the BAC goes up. */
  lemma BandMonotone(a: real, b: real)
    requires 0.0 <= a <= b
    ensures Rank(BandOf(a)) <= Rank(BandOf(b))
  {
  }

  /** Below zero the banding is not monotone: -0.01 is "low" while 0 is "sober".
      Estimates are never negative, so the screen never shows this. */
  lemma NegativeBacIsLow()
    ensures BandOf(-0.01) == Low && Rank(BandOf(-0.01)) > Rank(BandOf(0.0))
  {
  }

  /** `getBACColor`: the colour class of the BAC's band. */
  function BacColor(bac: real): (r: string)
    ensures r == ColorOf(BandOf(bac))
  {
    if bac == 0.0 then "text-green-600 dark:text-green-400"
    else if bac < 0.05 then "text-yellow-600 dark:text-yellow-400"
    else if bac < 0.08 then "text-orange-600 dark:text-orange-400"
    else "text-red-600 dark:text-red-400"
  }

  /** `getBACMessage`: the message of the BAC's band. */
  function BacMessage(bac: real): (r: string)
    ensures r == MessageOf(BandOf(bac))
  {
    if bac == 0.0 then "You're completely sober!"
    else if bac < 0.05 then "You have a low level of alcohol in your system."
    else if bac < 0.08 then "You have a moderate level of alcohol in your system."
    else "You have a high level of alcohol in your system!"
  }

  /** The inline class of the gauge bar: the one of the BAC's band. */
  function BarClass(bac: real): (r: string)
    ensures r == BarOf(BandOf(bac))
  {
    if bac == 0.0 then "bg-green-500"
    else if bac < 0.05 then "bg-yellow-500"
    else if bac < 0.08 then "bg-orange-500"
    else "bg-red-500"
  }

  /** The inline class of the message panel: the one of the BAC's band. */
  function PanelClass(bac: real): (r: string)
    ensures r == PanelOf(BandOf(bac))
  {
    if bac == 0.0 then "bg-green-100 dark:bg-green-900/30"
    else if bac < 0.05 then "bg-yellow-100 dark:bg-yellow-900/30"
    else if bac < 0.08 then "bg-orange-100 dark:bg-orange-900/30"
    else "bg-red-100 dark:bg-red-900/30"
  }

  /** The inline class of the message text: the one of the BAC's band. */
  function TextClass(bac: real): (r: string)
    ensures r == TextOf(BandOf(bac))
  {
    if bac == 0.0 then "text-green-800 dark:text-green-300"
    else if bac < 0.05 then "text-yellow-800 dark:text-yellow-300"
    else if bac < 0.08 then "text-orange-800 dark:text-orange-300"
    else "text-red-800 dark:text-red-300"
  }

  /** The class each selector picks for a band. */
  function ColorOf(b: Band): string {
    match b
    case Sober => "text-green-600 dark:text-green-400"
    case Low => "text-yellow-600 dark:text-yellow-400"
    case Moderate => "text-orange-600 dark:text-orange-400"
    case High => "text-red-600 dark:text-red-400"
  }

  function BarOf(b: Band): string {
    match b
    case Sober => "bg-green-500"
    case Low => "bg-yellow-500"
    case Moderate => "bg-orange-500"
    case High => "bg-red-500"
  }

  function PanelOf(b: Band): string {
    match b
    case Sober => "bg-green-100 dark:bg-green-900/30"
    case Low => "bg-yellow-100 dark:bg-yellow-900/30"
    case Moderate => "bg-orange-100 dark:bg-orange-900/30"
    case High => "bg-red-100 dark:bg-red-900/30"
  }

  function TextOf(b: Band): string {
    match b
    case Sober => "text-green-800 dark:text-green-300"
    case Low => "text-yellow-800 dark:text-yellow-300"
    case Moderate => "text-orange-800 dark:text-orange-300"
    case High => "text-red-800 dark:text-red-300"
  }

  function MessageOf(b: Band): string {
    match b
    case Sober => "You're completely sober!"
    case Low => "You have a low level of alcohol in your system."
    case Moderate => "You have a moderate level of alcohol in your system."
    case High => "You have a high level of alcohol in your system!"
  }

  // The markers below serve only the distinctness proofs: comparing long string
  // literals character by character is costly, so each string is told apart by
  // one character at a fixed distance from its end, or by its length.

  /** The last letter of each band's colour family (green, yellow, orange, red). */
  function HueLetter(b: Band): char {
    match b
    case Sober => 'n'
    case Low => 'w'
    case Moderate => 'e'
    case High => 'd'
  }

  /** The length of each band's message; the four lengths differ. */
  function MessageLength(b: Band): nat {
    match b
    case Sober => 24
    case Low => 47
    case Moderate => 52
    case High => 48
  }

  /** Each class ends with the band's colour family and a fixed suffix, so the
      family's last letter sits at a fixed distance from the end. */
  lemma ColorMarker(b: Band)
    ensures |ColorOf(b)| > 5 && ColorOf(b)[|ColorOf(b)| - 5] == HueLetter(b)
  {
    match b
    case Sober =>
    case Low =>
    case Moderate =>
    case High =>
  }

  lemma BarMarker(b: Band)
    ensures |BarOf(b)| > 5 && BarOf(b)[|BarOf(b)| - 5] == HueLetter(b)
  {
    match b
    case Sober =>
    case Low =>
    case Moderate =>
    case High =>
  }

  lemma PanelMarker(b: Band)
    ensures |PanelOf(b)| > 8 && PanelOf(b)[|PanelOf(b)| - 8] == HueLetter(b)
  {
    match b
    case Sober =>
    case Low =>
    case Moderate =>
    case High =>
  }

  lemma TextMarker(b: Band)
    ensures |TextOf(b)| > 5 && TextOf(b)[|TextOf(b)| - 5] == HueLetter(b)
  {
    match b
    case Sober =>
    case Low =>
    case Moderate =>
    case High =>
  }

  /** Each message has its band's length. */
  lemma MessageMarker(b: Band)
    ensures |MessageOf(b)| == MessageLength(b)
  {
    match b
    case Sober =>
    case Low =>
    case Moderate =>
    case High =>
  }

  lemma HueLetterInjective(x: Band, y: Band)
    requires x != y
    ensures HueLetter(x) != HueLetter(y) && MessageLength(x) != MessageLength(y)
  {
  }

  lemma ColorsDistinct(x: Band, y: Band)
    requires x != y
    ensures ColorOf(x) != ColorOf(y)
  {
    HueLetterInjective(x, y);
    ColorMarker(x);
    ColorMarker(y);
  }

  lemma BarsDistinct(x: Band, y: Band)
    requires x != y
    ensures BarOf(x) != BarOf(y)
  {
    HueLetterInjective(x, y);
    BarMarker(x);
    BarMarker(y);
  }

  lemma PanelsDistinct(x: Band, y: Band)
    requires x != y
    ensures PanelOf(x) != PanelOf(y)
  {
    HueLetterInjective(x, y);
    PanelMarker(x);
    PanelMarker(y);
  }

  lemma TextsDistinct(x: Band, y: Band)
    requires x != y
    ensures TextOf(x) != TextOf(y)
  {
    HueLetterInjective(x, y);
    TextMarker(x);
    TextMarker(y);
  }

  lemma MessagesDistinct(x: Band, y: Band)
    requires x != y
    ensures MessageOf(x) != MessageOf(y)
  {
    HueLetterInjective(x, y);
    MessageMarker(x);
    MessageMarker(y);
  }

  /** No two bands share a class or a message. */
  lemma BandStringsDistinct(x: Band, y: Band)
    requires x != y
    ensures ColorOf(x) != ColorOf(y) && BarOf(x) != BarOf(y) && PanelOf(x) != PanelOf(y)
    ensures TextOf(x) != TextOf(y) && MessageOf(x) != MessageOf(y)
  {
    ColorsDistinct(x, y);
    BarsDistinct(x, y);
    PanelsDistinct(x, y);
    TextsDistinct(x, y);
    MessagesDistinct(x, y);
  }

  lemma ColorsAgree(a: real, b: real)
    ensures BacColor(a) == BacColor(b) <==> BandOf(a) == BandOf(b)
  {
    if BandOf(a) != BandOf(b) {
      ColorsDistinct(BandOf(a), BandOf(b));
    }
  }

  lemma MessagesAgree(a: real, b: real)
    ensures BacMessage(a) == BacMessage(b) <==> BandOf(a) == BandOf(b)
  {
    if BandOf(a) != BandOf(b) {
      MessagesDistinct(BandOf(a), BandOf(b));
    }
  }

  lemma BarsAgree(a: real, b: real)
    ensures BarClass(a) == BarClass(b) <==> BandOf(a) == BandOf(b)
  {
    if BandOf(a) != BandOf(b) {
      BarsDistinct(BandOf(a), BandOf(b));
    }
  }

  lemma PanelsAgree(a: real, b: real)
    ensures PanelClass(a) == PanelClass(b) <==> BandOf(a) == BandOf(b)
  {
    if BandOf(a) != BandOf(b) {
      PanelsDistinct(BandOf(a), BandOf(b));
    }
  }

  lemma TextsAgree(a: real, b: real)
    ensures TextClass(a) == TextClass(b) <==> BandOf(a) == BandOf(b)
  {
    if BandOf(a) != BandOf(b) {
      TextsDistinct(BandOf(a), BandOf(b));
    }
  }

  /** The selections agree: two BAC values get the same colour exactly when they
      get the same message, the same gauge bar, the same panel and the same text
      colour, namely when they lie in the same band. */
  lemma SelectionsAgree(a: real, b: real)
    ensures BacColor(a) == BacColor(b) <==> BandOf(a) == BandOf(b)
    ensures BacMessage(a) == BacMessage(b) <==> BandOf(a) == BandOf(b)
    ensures BarClass(a) == BarClass(b) <==> BandOf(a) == BandOf(b)
    ensures PanelClass(a) == PanelClass(b) <==> BandOf(a) == BandOf(b)
    ensures TextClass(a) == TextClass(b) <==> BandOf(a) == BandOf(b)
  {
    ColorsAgree(a, b);
    MessagesAgree(a, b);
    BarsAgree(a, b);
    PanelsAgree(a, b);
    TextsAgree(a, b);
  }

  /** The gauge value `min(bac / 0.15 * 100, 100)`. */
  function Gauge(bac: real): (g: real)
    ensures bac >= 0.0 ==> 0.0 <= g <= 100.0
    ensures bac >= 0.15 ==> g == 100.0
    ensures bac < 0.15 ==> g < 100.0 && g * 0.15 == bac * 100.0
  {
    var v := bac / 0.15 * 100.0;
    if v < 100.0 then v else 100.0
  }

  /** The gauge never goes down as the BAC goes up. */
  lemma GaugeMonotone(a: real, b: real)
    requires a <= b
    ensures Gauge(a) <= Gauge(b)
  {
    assert a / 0.15 * 100.0 <= b / 0.15 * 100.0;
  }

  /** What a country's card shows next to its name. */
  datatype LimitLabel = NoLimitBadge | Numeric(limit: real)

  function LabelOf(c: CountryLimit): (l: LimitLabel)
    ensures l == NoLimitBadge <==> c.limit == NoLimit
    ensures l.Numeric? ==> l.limit == c.limit
  {
    if c.limit == NoLimit then NoLimitBadge else Numeric(c.limit)
  }

  /** The countries panel: the spinner is shown while `showAnimation` holds. */
  datatype Panel = Panel(showAnimation: bool, displayed: seq<CountryLimit>)

  const InitialPanel: Panel := Panel(true, [])

  /** The panel's effect and its timer, as one event: with a non-empty list
      the spinner gives way to the list; with an empty one nothing happens. */
  function TimerFires(p: Panel, countries: seq<CountryLimit>): (r: Panel)
    ensures |countries| > 0 && p.showAnimation ==> r == Panel(false, countries)
    ensures |countries| == 0 || !p.showAnimation ==> r == p
  {
    if |countries| > 0 && p.showAnimation then Panel(false, countries) else p
  }

  /** The panel after `n` timer events. */
  function PanelAfter(n: nat, countries: seq<CountryLimit>): Panel {
    if n == 0 then InitialPanel else TimerFires(PanelAfter(n - 1, countries), countries)
  }

  /** The panel leaves its loading state exactly when at least one event has
      happened and the country list is non-empty, and then shows that list. */
  lemma {:induction false} PanelLoading(n: nat, countries: seq<CountryLimit>)
    ensures PanelAfter(n, countries).showAnimation <==> n == 0 || |countries| == 0
    ensures !PanelAfter(n, countries).showAnimation ==> PanelAfter(n, countries).displayed == countries
  {
    if n > 0 {
      PanelLoading(n - 1, countries);
    }
  }

  /** When the guard fires the country list is empty and the panel spins for good. */
  lemma GuardedResultsStayLoading(f: Form, table: seq<CountryLimit>, n: nat)
    requires Guarded(f)
    ensures PanelAfter(n, Compute(f, table).countries).showAnimation
  {
    PanelLoading(n, Compute(f, table).countries);
  }

  /** With a no-limit entry in the table, an estimate that passes the guard always
      gets past the spinner after one event. */
  lemma UnguardedResultsLoad(f: Form, table: seq<CountryLimit>, i: int)
    requires !Guarded(f) && 0 <= i < |table| && table[i].limit == NoLimit
    requires Estimate(f) <= NoLimit
    ensures !PanelAfter(1, Compute(f, table).countries).showAnimation
  {
    SentinelAlwaysMatches(table, Estimate(f), i);
    PanelLoading(1, Compute(f, table).countries);
  }
}
