/** The logic of components/LiveVelocityMetrics.tsx: the display helpers, the tier percentages,
    the component's state cells with the fetch that updates them, and the choice of view. Rendering,
    React scheduling, the refresh timer and the network call are not modelled; the outcome of a
    fetch and the clock are inputs. */
module LiveVelocityMetrics {
  import opened Wrappers
  import opened JsMath
  import opened BigQuery

  // ---------------------------------------------------------------------------
  // formatUSD
  // ---------------------------------------------------------------------------

  /** A compact dollar amount: `amount / divisor`, printed with `fractionDigits` decimals, then
      `suffix`. */
  datatype CompactUsd = CompactUsd(scaled: real, fractionDigits: nat, suffix: string)

  function Divisor(suffix: string): real {
    if suffix == "B" then 1000000000.0
    else if suffix == "M" then 1000000.0
    else if suffix == "K" then 1000.0
    else 1.0
  }

  function FormatUsd(amount: real): (d: CompactUsd)
    ensures d.suffix == "B" <==> amount >= 1000000000.0
    ensures d.suffix == "M" <==> 1000000.0 <= amount < 1000000000.0
    ensures d.suffix == "K" <==> 1000.0 <= amount < 1000000.0
    ensures d.suffix == "" <==> amount < 1000.0
    ensures d.scaled * Divisor(d.suffix) == amount
    ensures d.suffix == "B" ==> d.scaled >= 1.0
    ensures d.suffix == "M" || d.suffix == "K" ==> 1.0 <= d.scaled < 1000.0
    ensures d.fractionDigits == if d.suffix == "B" || d.suffix == "M" then 1 else 0
  {
    if amount >= 1000000000.0 then CompactUsd(amount / 1000000000.0, 1, "B")
    else if amount >= 1000000.0 then CompactUsd(amount / 1000000.0, 1, "M")
    else if amount >= 1000.0 then CompactUsd(amount / 1000.0, 0, "K")
    else CompactUsd(amount, 0, "")
  }

  // ---------------------------------------------------------------------------
  // getTierLabel and getTierColor
  // ---------------------------------------------------------------------------

  /** What reading a property off a plain object literal can give. */
  datatype PropertyValue =
    | Text(s: string)            // an own string property
    | InheritedMember(name: string) // a function or object inherited from Object.prototype

  /** The names every object literal inherits from Object.prototype. */
  const ObjectPrototypeMembers: set<string> := {
    "constructor", "hasOwnProperty", "isPrototypeOf", "propertyIsEnumerable", "toLocaleString",
    "toString", "valueOf", "__proto__", "__defineGetter__", "__defineSetter__",
    "__lookupGetter__", "__lookupSetter__"}

  /** `table[key]` on an object literal whose own properties are `table`. */
  function Lookup(table: map<string, string>, key: string): Option<PropertyValue> {
    if key in table then Some(Text(table[key]))
    else if key in ObjectPrototypeMembers then Some(InheritedMember(key))
    else None
  }

  predicate Truthy(v: Option<PropertyValue>) {
    v.Some? && (v.value.InheritedMember? || v.value.s != "")
  }

  /** `table[key] || fallback` */
  function LookupOr(table: map<string, string>, key: string, fallback: string): PropertyValue {
    var v := Lookup(table, key);
    if Truthy(v) then v.value else Text(fallback)
  }

  const TierLabels: map<string, string> := map[
    HighVelocityGp := "High Velocity",
    StableButLeaking := "Stable",
    HighDistress := "Needs Help"]

  const TierColors: map<string, string> := map[
    HighVelocityGp := "text-green-400",
    StableButLeaking := "text-yellow-400",
    HighDistress := "text-red-400"]

  /** `getTierLabel` as written: the three tiers get their display names, a name inherited from
      `Object.prototype` yields the inherited member, and any other tier is shown as it is. */
  function TierLabelAsWritten(tier: string): (shown: PropertyValue)
    ensures tier == HighVelocityGp ==> shown == Text("High Velocity")
    ensures tier == StableButLeaking ==> shown == Text("Stable")
    ensures tier == HighDistress ==> shown == Text("Needs Help")
    ensures tier in ObjectPrototypeMembers ==> shown == InheritedMember(tier)
    ensures !KnownTier(Some(tier)) && tier !in ObjectPrototypeMembers ==> shown == Text(tier)
  {
    LookupOr(TierLabels, tier, tier)
  }

  /** `getTierColor` as written: green, yellow and red for the three tiers, the inherited member
      for a name inherited from `Object.prototype`, and grey for anything else. */
  function TierColorAsWritten(tier: string): (color: PropertyValue)
    ensures tier == HighVelocityGp ==> color == Text("text-green-400")
    ensures tier == StableButLeaking ==> color == Text("text-yellow-400")
    ensures tier == HighDistress ==> color == Text("text-red-400")
    ensures tier in ObjectPrototypeMembers ==> color == InheritedMember(tier)
    ensures !KnownTier(Some(tier)) && tier !in ObjectPrototypeMembers ==> color == Text("text-gray-400")
  {
    LookupOr(TierColors, tier, "text-gray-400")
  }

  /** The label for a tier: the three known tiers get their display names, anything else is
      shown as it is. */
  function TierLabel(tier: string): (shown: string)
    ensures tier == HighVelocityGp ==> shown == "High Velocity"
    ensures tier == StableButLeaking ==> shown == "Stable"
    ensures tier == HighDistress ==> shown == "Needs Help"
    ensures !KnownTier(Some(tier)) ==> shown == tier
  {
    if tier in TierLabels then TierLabels[tier] else tier
  }

  /** The text colour for a tier: green, yellow and red for the known tiers, grey otherwise. */
  function TierColor(tier: string): (color: string)
    ensures tier == HighVelocityGp ==> color == "text-green-400"
    ensures tier == StableButLeaking ==> color == "text-yellow-400"
    ensures tier == HighDistress ==> color == "text-red-400"
    ensures !KnownTier(Some(tier)) ==> color == "text-gray-400"
  {
    if tier in TierColors then TierColors[tier] else "text-gray-400"
  }

  /** Away from the inherited names, the code as written gives exactly the intended strings. */
  lemma TierLookupsAgreeOffPrototype(tier: string)
    requires tier !in ObjectPrototypeMembers
    ensures TierLabelAsWritten(tier) == Text(TierLabel(tier))
    ensures TierColorAsWritten(tier) == Text(TierColor(tier))
  {
  }

  /** On an inherited name such as "toString" the code as written returns the inherited function,
      neither the tier itself nor the grey fallback. */
  lemma TierLookupsLeakPrototype(tier: string)
    requires tier in ObjectPrototypeMembers
    ensures TierLabelAsWritten(tier) == InheritedMember(tier) != Text(TierLabel(tier))
    ensures TierColorAsWritten(tier) == InheritedMember(tier) != Text(TierColor(tier))
  {
  }

  // ---------------------------------------------------------------------------
  // formatRelativeTime
  // ---------------------------------------------------------------------------

  datatype RelativeTime =
    | Unknown             // no timestamp
    | JustNow
    | MinutesAgo(minutes: int)
    | HoursAgo(hours: int)
    | DaysAgo(days: int)
    | NotANumber          // the text did not parse: every comparison fails and "NaNd ago" is shown

  const MinuteMs: int := 60000
  const HourMs: int := 3600000
  const DayMs: int := 86400000

  /** `formatRelativeTime`. `parsedMs` is `new Date(isoString).getTime()` (None for an invalid
      date) and `nowMs` the current clock. */
  function FormatRelativeTime(isoString: Option<string>, parsedMs: Option<int>, nowMs: int): (r: RelativeTime)
    ensures r == Unknown <==> !TruthyText(isoString)
    ensures r == NotANumber <==> TruthyText(isoString) && parsedMs.None?
    ensures r == JustNow <==> TruthyText(isoString) && parsedMs.Some? && nowMs - parsedMs.value < MinuteMs
    ensures r.MinutesAgo? <==> TruthyText(isoString) && parsedMs.Some? && MinuteMs <= nowMs - parsedMs.value < HourMs
    ensures r.HoursAgo? <==> TruthyText(isoString) && parsedMs.Some? && HourMs <= nowMs - parsedMs.value < DayMs
    ensures r.DaysAgo? <==> TruthyText(isoString) && parsedMs.Some? && DayMs <= nowMs - parsedMs.value
    ensures r.MinutesAgo? ==> MinuteMs * r.minutes <= nowMs - parsedMs.value < MinuteMs * (r.minutes + 1)
    ensures r.HoursAgo? ==> HourMs * r.hours <= nowMs - parsedMs.value < HourMs * (r.hours + 1)
    ensures r.DaysAgo? ==> DayMs * r.days <= nowMs - parsedMs.value < DayMs * (r.days + 1)
  {
    if !TruthyText(isoString) then Unknown
    else if parsedMs.None? then NotANumber
    else
      var diffMs := nowMs - parsedMs.value;
      var diffMins := diffMs / MinuteMs;  // Math.floor: the divisor is positive
      var diffHours := diffMins / 60;
      var diffDays := diffHours / 24;
      if diffMins < 1 then JustNow
      else if diffMins < 60 then MinutesAgo(diffMins)
      else if diffHours < 24 then HoursAgo(diffHours)
      else DaysAgo(diffDays)
  }

  // ---------------------------------------------------------------------------
  // Tier percentages
  // ---------------------------------------------------------------------------

  datatype TierPercentages = TierPercentages(highVelocityGp: int, stableButLeaking: int, highDistress: int)

  /** `Math.round((count / (total || 1)) * 100)` */
  function Percent(count: nat, total: nat): (p: int)
    ensures count <= total ==> 0 <= p <= 100
    ensures total > 0 ==> (p as real - 0.5) * total as real <= 100.0 * (count as real) < (p as real + 0.5) * total as real
    ensures total == 0 ==> p == 100 * count
  {
    var denominator := if total != 0 then total else 1;
    RoundedShare(count, denominator);
    Round(count as real / denominator as real * 100.0)
  }

  lemma RoundedShare(count: nat, denominator: nat)
    requires denominator > 0
    ensures var p := Round(count as real / denominator as real * 100.0) as real;
            (p - 0.5) * denominator as real <= 100.0 * (count as real) < (p + 0.5) * denominator as real
            && (count <= denominator ==> 0.0 <= p <= 100.0)
  {
    ShareScales(count, denominator);
    RoundBracket(count as real / denominator as real * 100.0, denominator as real, 100.0 * (count as real));
  }

  lemma ShareScales(count: nat, denominator: nat)
    requires denominator > 0
    ensures (count as real / denominator as real * 100.0) * denominator as real == 100.0 * (count as real)
    ensures count <= denominator ==> 0.0 <= count as real / denominator as real * 100.0 <= 100.0
  {
    var q := count as real / denominator as real;
    assert q * denominator as real == count as real;
    if count <= denominator && q > 1.0 {
      ScaleStrict(1.0, q, denominator as real);
    }
  }

  /** When `share * d` is `target`, rounding `share` moves `target` by at most half of `d`. */
  lemma RoundBracket(share: real, d: real, target: real)
    requires d > 0.0 && share * d == target
    ensures (Round(share) as real - 0.5) * d <= target < (Round(share) as real + 0.5) * d
  {
    Scale(Round(share) as real - 0.5, share, d);
    ScaleStrict(share, Round(share) as real + 0.5, d);
    Substitute(Round(share) as real - 0.5, Round(share) as real + 0.5, share, d, target);
  }

  lemma Substitute(low: real, high: real, share: real, d: real, target: real)
    requires share * d == target && low * d <= share * d < high * d
    ensures low * d <= target < high * d
  {
  }

  lemma ScaleStrict(a: real, b: real, c: real)
    requires a < b && c > 0.0
    ensures a * c < b * c
  {
  }

  lemma Scale(a: real, b: real, c: real)
    requires a <= b && c > 0.0
    ensures a * c <= b * c
  {
  }

  function PercentagesOf(m: VelocityMetrics): TierPercentages {
    TierPercentages(
      Percent(m.tierBreakdown.highVelocityGp, m.totalCompanies),
      Percent(m.tierBreakdown.stableButLeaking, m.totalCompanies),
      Percent(m.tierBreakdown.highDistress, m.totalCompanies))
  }

  /** For metrics the aggregation produced, each bar is between 0 % and 100 %, an empty record set
      gives three empty bars, and the three bars together overshoot 100 % by at most one point of
      rounding. */
  lemma PercentagesOfComputedMetrics(records: seq<VelocityRecord>)
    ensures var p := PercentagesOf(MetricsOf(records));
            && 0 <= p.highVelocityGp <= 100 && 0 <= p.stableButLeaking <= 100 && 0 <= p.highDistress <= 100
            && (records == [] ==> p == TierPercentages(0, 0, 0))
            && p.highVelocityGp + p.stableButLeaking + p.highDistress <= 101
  {
    TierBreakdownBound(records);
    PercentagesBounded(MetricsOf(records));
  }

  lemma PercentagesBounded(m: VelocityMetrics)
    requires TierTotal(m.tierBreakdown) <= m.totalCompanies
    ensures var p := PercentagesOf(m);
            && 0 <= p.highVelocityGp <= 100 && 0 <= p.stableButLeaking <= 100 && 0 <= p.highDistress <= 100
            && (m.totalCompanies == 0 ==> p == TierPercentages(0, 0, 0))
            && p.highVelocityGp + p.stableButLeaking + p.highDistress <= 101
  {
    var b, n := m.tierBreakdown, m.totalCompanies;
    var p := PercentagesOf(m);
    assert 0 <= p.highVelocityGp <= 100 by { assert b.highVelocityGp <= n; }
    assert 0 <= p.stableButLeaking <= 100 by { assert b.stableButLeaking <= n; }
    assert 0 <= p.highDistress <= 100 by { assert b.highDistress <= n; }
    if n > 0 {
      PercentSum(b.highVelocityGp, b.stableButLeaking, b.highDistress, n);
    }
  }

  /** Three counts that share one total: their rounded percentages add up to at most 101. */
  lemma PercentSum(a: nat, b: nat, c: nat, total: nat)
    requires total > 0 && a + b + c <= total
    ensures Percent(a, total) + Percent(b, total) + Percent(c, total) <= 101
  {
    RoundingSlack(Percent(a, total), Percent(b, total), Percent(c, total),
                  100.0 * a as real, 100.0 * b as real, 100.0 * c as real, total as real);
  }

  lemma RoundingSlack(pa: int, pb: int, pc: int, a: real, b: real, c: real, n: real)
    requires n > 0.0 && a + b + c <= 100.0 * n
    requires (pa as real - 0.5) * n <= a && (pb as real - 0.5) * n <= b && (pc as real - 0.5) * n <= c
    ensures pa + pb + pc <= 101
  {
    var sum := (pa + pb + pc) as real;
    assert (pa as real - 0.5) * n + (pb as real - 0.5) * n + (pc as real - 0.5) * n == (sum - 1.5) * n;
    if sum >= 102.0 {
      Scale(100.5, sum - 1.5, n);
    }
  }

  // ---------------------------------------------------------------------------
  // Component state, fetchMetrics and the view
  // ---------------------------------------------------------------------------

  /** The JSON body the endpoint answers with, as the component reads it. */
  datatype ApiResponse = ApiResponse(success: bool, data: Option<VelocityMetrics>, error: Option<string>)

  /** What awaiting `fetch(url)` and `response.json()` gives: a body, or a thrown error's message. */
  datatype FetchOutcome = Received(body: ApiResponse) | Thrown(message: string)

  /** `data.success && data.data` */
  predicate Delivered(outcome: FetchOutcome) {
    outcome.Received? && outcome.body.success && outcome.body.data.Some?
  }

  /** The message `fetchMetrics` stores when no metrics arrived. */
  function FailureMessage(outcome: FetchOutcome): (message: string)
    ensures message != ""
    ensures outcome.Received? && TruthyText(outcome.body.error) ==> message == outcome.body.error.value
    ensures outcome.Received? && !TruthyText(outcome.body.error) ==> message == "Failed to fetch metrics"
    ensures outcome.Thrown? ==> message == if outcome.message != "" then outcome.message else "Network error"
  {
    match outcome
    case Received(body) => if TruthyText(body.error) then body.error.value else "Failed to fetch metrics"
    case Thrown(message) => if message != "" then message else "Network error"
  }

  datatype View =
    | ErrorView(message: string) // the message with a Retry button
    | Skeleton                   // the loading placeholder
    | Blank                      // `return null`
    | Dashboard(metrics: VelocityMetrics, percentages: TierPercentages)

  /** Which of the component's four renderings its state selects. */
  function SelectView(metrics: Option<VelocityMetrics>, error: Option<string>, loading: bool): (v: View)
    ensures v.ErrorView? <==> TruthyText(error) && metrics.None?
    ensures v.ErrorView? ==> v.message == error.value
    ensures v.Skeleton? <==> !TruthyText(error) && loading && metrics.None?
    ensures v.Blank? <==> !TruthyText(error) && !loading && metrics.None?
    ensures v.Dashboard? <==> metrics.Some?
    ensures v.Dashboard? ==> v.metrics == metrics.value && v.percentages == PercentagesOf(metrics.value)
  {
    if TruthyText(error) && metrics.None? then ErrorView(error.value)
    else if loading && metrics.None? then Skeleton
    else if metrics.None? then Blank
    else Dashboard(metrics.value, PercentagesOf(metrics.value))
  }

  class MetricsPanel {
    var metrics: Option<VelocityMetrics>
    var loading: bool
    var error: Option<string>
    var lastUpdated: Option<int>

    function View(): View
      reads this
    {
      SelectView(metrics, error, loading)
    }

    /** The state as the component mounts: nothing loaded yet, loading. */
    constructor ()
      ensures metrics == None && loading && error == None && lastUpdated == None
      ensures View() == Skeleton
    {
      metrics := None;
      loading := true;
      error := None;
      lastUpdated := None;
    }

    /** The part of `fetchMetrics` before its first `await`: the error is cleared and the URL
        chosen. */
    method StartFetch(refresh: bool) returns (url: string)
      modifies this
      ensures url == if refresh then "/api/velocity?refresh=true" else "/api/velocity"
      ensures error == None
      ensures metrics == old(metrics) && loading == old(loading) && lastUpdated == old(lastUpdated)
    {
      error := None;
      url := if refresh then "/api/velocity?refresh=true" else "/api/velocity";
    }

    /** The rest of `fetchMetrics`, once the fetch has settled at time `now`: delivered metrics
        replace the shown ones; otherwise an error is recorded and what was shown stays. */
    method CompleteFetch(outcome: FetchOutcome, now: int)
      modifies this
      ensures !loading
      ensures Delivered(outcome) ==>
                metrics == outcome.body.data && lastUpdated == Some(now) && error == old(error)
                && View() == Dashboard(outcome.body.data.value, PercentagesOf(outcome.body.data.value))
      ensures !Delivered(outcome) ==>
                metrics == old(metrics) && lastUpdated == old(lastUpdated)
                && error == Some(FailureMessage(outcome))
      ensures !Delivered(outcome) ==>
                View() == if old(metrics).Some? then Dashboard(old(metrics).value, PercentagesOf(old(metrics).value))
                          else ErrorView(FailureMessage(outcome))
    {
      if Delivered(outcome) {
        metrics := outcome.body.data;
        lastUpdated := Some(now);
      } else {
        error := Some(FailureMessage(outcome));
      }
      loading := false;
    }

    /** The Retry button: loading is switched on and a forced refresh starts; until it settles
        the placeholder replaces the error message. */
    method Retry() returns (url: string)
      modifies this
      ensures url == "/api/velocity?refresh=true"
      ensures loading && error == None && metrics == old(metrics) && lastUpdated == old(lastUpdated)
      ensures metrics.None? ==> View() == Skeleton
    {
      loading := true;
      url := StartFetch(true);
    }
  }
}
