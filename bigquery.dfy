/** The metrics aggregator of lib/bigquery.ts: warehouse rows are mapped to velocity records,
    and one pass over the records yields the summary metrics. The warehouse query itself is an
    external call; its outcome (the rows, or the thrown error's message) is an input here. */
module BigQuery {
  import opened Wrappers
  import opened LexOrder
  import opened JsMath

  // ---------------------------------------------------------------------------
  // Raw warehouse rows
  // ---------------------------------------------------------------------------

  /** A numeric column as the warehouse client delivers it. */
  datatype NumericCell =
    | Null          // SQL NULL or a missing column
    | Plain(x: real) // a JavaScript number; falsy when it is 0
    | Boxed(x: real) // a wrapper object or numeric string: truthy whatever it holds; `x` is its `Number(...)`

  type NonEmptyString = s: string | s != "" witness "0"

  /** The `_fivetran_synced` column: absent, a plain string, or a timestamp object whose
      `value` holds the ISO text. */
  datatype SyncCell = NoSync | SyncText(text: string) | SyncStamp(value: NonEmptyString)

  datatype Row = Row(
    id: string,
    portalId: Option<string>,
    fivetranSynced: SyncCell,
    velocityTier: Option<string>,
    activeGps: NumericCell,
    monthsFundraising: NumericCell,
    capitalRaisedUsd: NumericCell)

  // ---------------------------------------------------------------------------
  // Records and metrics
  // ---------------------------------------------------------------------------

  datatype VelocityRecord = VelocityRecord(
    id: string,
    portalId: Option<string>,
    fivetranSynced: Option<string>,
    velocityTier: Option<string>,
    activeGps: Option<real>,
    monthsFundraising: Option<real>,
    capitalRaisedUsd: Option<real>)

  datatype TierBreakdown = TierBreakdown(highVelocityGp: nat, stableButLeaking: nat, highDistress: nat)

  datatype VelocityMetrics = VelocityMetrics(
    totalCompanies: nat,
    tierBreakdown: TierBreakdown,
    averageCapitalRaised: int,
    averageMonthsFundraising: int,
    totalCapitalRaised: real,
    lastSyncedAt: Option<string>)

  /** The three tier names the breakdown counts. */
  const HighVelocityGp: string := "high_velocity_gp"
  const StableButLeaking: string := "stable_but_leaking"
  const HighDistress: string := "high_distress"

  predicate KnownTier(tier: Option<string>) {
    tier == Some(HighVelocityGp) || tier == Some(StableButLeaking) || tier == Some(HighDistress)
  }

  // ---------------------------------------------------------------------------
  // Row mapping (queryVelocityData)
  // ---------------------------------------------------------------------------

  /** JavaScript truthiness of a numeric cell. */
  predicate TruthyCell(c: NumericCell) {
    (c.Plain? && c.x != 0.0) || c.Boxed?
  }

  /** `v ? Number(v) : null` */
  function ToNumber(c: NumericCell): (n: Option<real>)
    ensures n.None? <==> c.Null? || c == Plain(0.0)
    ensures n.Some? ==> n.value == c.x
  {
    if TruthyCell(c) then Some(c.x) else None
  }

  /** `v?.value || v` */
  function ToSynced(c: SyncCell): Option<string> {
    match c
    case NoSync => None
    case SyncText(text) => Some(text)
    case SyncStamp(value) => Some(value)
  }

  function MapRow(row: Row): (r: VelocityRecord)
    ensures r.id == row.id && r.portalId == row.portalId && r.velocityTier == row.velocityTier
    ensures r.fivetranSynced.None? <==> row.fivetranSynced.NoSync?
    ensures row.fivetranSynced.SyncText? ==> r.fivetranSynced == Some(row.fivetranSynced.text)
    ensures row.fivetranSynced.SyncStamp? ==> r.fivetranSynced == Some(row.fivetranSynced.value)
    ensures r.activeGps == ToNumber(row.activeGps)
    ensures r.monthsFundraising == ToNumber(row.monthsFundraising)
    ensures r.capitalRaisedUsd == ToNumber(row.capitalRaisedUsd)
  {
    VelocityRecord(
      id := row.id,
      portalId := row.portalId,
      fivetranSynced := ToSynced(row.fivetranSynced),
      velocityTier := row.velocityTier,
      activeGps := ToNumber(row.activeGps),
      monthsFundraising := ToNumber(row.monthsFundraising),
      capitalRaisedUsd := ToNumber(row.capitalRaisedUsd))
  }

  function MapRows(rows: seq<Row>): (records: seq<VelocityRecord>)
    ensures |records| == |rows|
    ensures forall i :: 0 <= i < |rows| ==> records[i] == MapRow(rows[i])
  {
    seq(|rows|, i requires 0 <= i < |rows| => MapRow(rows[i]))
  }

  /** `queryVelocityData`, given the outcome of the warehouse query. */
  function QueryVelocityData(query: Result<seq<Row>, string>): (r: Result<seq<VelocityRecord>, string>)
    ensures r.Failure? <==> query.Failure?
    ensures query.Failure? ==> r.error == query.error
    ensures query.Success? ==> |r.value| == |query.value| && r.value == MapRows(query.value)
  {
    match query
    case Success(rows) => Success(MapRows(rows))
    case Failure(message) => Failure(message)
  }

  // ---------------------------------------------------------------------------
  // What one pass over the records accumulates, as functions of a prefix
  // ---------------------------------------------------------------------------

  /** The number of records whose tier is exactly `tier`. */
  function CountTier(records: seq<VelocityRecord>, tier: string): nat
  {
    if records == [] then 0
    else CountTier(records[..|records| - 1], tier) + (if records[|records| - 1].velocityTier == Some(tier) then 1 else 0)
  }

  function Breakdown(records: seq<VelocityRecord>): TierBreakdown {
    TierBreakdown(CountTier(records, HighVelocityGp), CountTier(records, StableButLeaking), CountTier(records, HighDistress))
  }

  function TierTotal(b: TierBreakdown): nat {
    b.highVelocityGp + b.stableButLeaking + b.highDistress
  }

  datatype Measure = Capital | Months

  function MeasureOf(record: VelocityRecord, m: Measure): Option<real> {
    match m
    case Capital => record.capitalRaisedUsd
    case Months => record.monthsFundraising
  }

  /** `v && v > 0`: present, non-zero and positive. */
  predicate Counted(v: Option<real>) {
    v.Some? && v.value != 0.0 && v.value > 0.0
  }

  function SumPositive(records: seq<VelocityRecord>, m: Measure): real
  {
    if records == [] then 0.0
    else
      var last := MeasureOf(records[|records| - 1], m);
      SumPositive(records[..|records| - 1], m) + (if Counted(last) then last.value else 0.0)
  }

  function CountPositive(records: seq<VelocityRecord>, m: Measure): nat
  {
    if records == [] then 0
    else CountPositive(records[..|records| - 1], m) + (if Counted(MeasureOf(records[|records| - 1], m)) then 1 else 0)
  }

  /** JavaScript truthiness of a nullable string. */
  predicate TruthyText(s: Option<string>) {
    s.Some? && s.value != ""
  }

  /** One step of the latest-sync scan. */
  function NextLatest(latest: Option<string>, synced: Option<string>): Option<string> {
    if TruthyText(synced) && (!TruthyText(latest) || Less(latest.value, synced.value)) then synced else latest
  }

  function LatestSync(records: seq<VelocityRecord>): Option<string>
  {
    if records == [] then None
    else NextLatest(LatestSync(records[..|records| - 1]), records[|records| - 1].fivetranSynced)
  }

  /** The non-empty sync timestamps that occur in `records`. */
  function SyncSet(records: seq<VelocityRecord>): (s: set<string>)
    ensures "" !in s
  {
    if records == [] then {}
    else
      var last := records[|records| - 1].fivetranSynced;
      SyncSet(records[..|records| - 1]) + (if TruthyText(last) then {last.value} else {})
  }

  /** `count > 0 ? Math.round(total / count) : 0` */
  function Average(total: real, count: nat): int {
    if count > 0 then Round(total / count as real) else 0
  }

  /** The metrics `calculateMetrics` builds from `records`. */
  function MetricsOf(records: seq<VelocityRecord>): VelocityMetrics {
    VelocityMetrics(
      totalCompanies := |records|,
      tierBreakdown := Breakdown(records),
      averageCapitalRaised := Average(SumPositive(records, Capital), CountPositive(records, Capital)),
      averageMonthsFundraising := Average(SumPositive(records, Months), CountPositive(records, Months)),
      totalCapitalRaised := SumPositive(records, Capital),
      lastSyncedAt := LatestSync(records))
  }

  // ---------------------------------------------------------------------------
  // calculateMetrics and getVelocityMetrics
  // ---------------------------------------------------------------------------

  method CalculateMetrics(records: seq<VelocityRecord>) returns (metrics: VelocityMetrics)
    ensures metrics == MetricsOf(records)
  {
    var highVelocity, stable, distress := 0, 0, 0;
    var totalCapitalRaised, totalMonthsFundraising := 0.0, 0.0;
    var capitalCount, monthsCount := 0, 0;
    var latestSync: Option<string> := None;
    for i := 0 to |records|
      invariant highVelocity == CountTier(records[..i], HighVelocityGp)
      invariant stable == CountTier(records[..i], StableButLeaking)
      invariant distress == CountTier(records[..i], HighDistress)
      invariant totalCapitalRaised == SumPositive(records[..i], Capital)
      invariant capitalCount == CountPositive(records[..i], Capital)
      invariant totalMonthsFundraising == SumPositive(records[..i], Months)
      invariant monthsCount == CountPositive(records[..i], Months)
      invariant latestSync == LatestSync(records[..i])
    {
      var record := records[i];
      assert records[..i + 1][..i] == records[..i];
      if record.velocityTier == Some(HighVelocityGp) {
        highVelocity := highVelocity + 1;
      } else if record.velocityTier == Some(StableButLeaking) {
        stable := stable + 1;
      } else if record.velocityTier == Some(HighDistress) {
        distress := distress + 1;
      }
      if Counted(record.capitalRaisedUsd) {
        totalCapitalRaised := totalCapitalRaised + record.capitalRaisedUsd.value;
        capitalCount := capitalCount + 1;
      }
      if Counted(record.monthsFundraising) {
        totalMonthsFundraising := totalMonthsFundraising + record.monthsFundraising.value;
        monthsCount := monthsCount + 1;
      }
      if TruthyText(record.fivetranSynced) && (!TruthyText(latestSync) || Less(latestSync.value, record.fivetranSynced.value)) {
        latestSync := record.fivetranSynced;
      }
    }
    assert records[..|records|] == records;
    metrics := VelocityMetrics(
      totalCompanies := |records|,
      tierBreakdown := TierBreakdown(highVelocity, stable, distress),
      averageCapitalRaised := if capitalCount > 0 then Round(totalCapitalRaised / capitalCount as real) else 0,
      averageMonthsFundraising := if monthsCount > 0 then Round(totalMonthsFundraising / monthsCount as real) else 0,
      totalCapitalRaised := totalCapitalRaised,
      lastSyncedAt := latestSync);
  }

  /** `getVelocityMetrics`: query, then aggregate; a query failure propagates unchanged. */
  method GetVelocityMetrics(query: Result<seq<Row>, string>) returns (result: Result<VelocityMetrics, string>)
    ensures query.Failure? ==> result == Failure(query.error)
    ensures query.Success? ==> result == Success(MetricsOf(MapRows(query.value)))
  {
    var records := QueryVelocityData(query);
    if records.Failure? {
      return Failure(records.error);
    }
    var metrics := CalculateMetrics(records.value);
    return Success(metrics);
  }

  // ---------------------------------------------------------------------------
  // Properties of the aggregation
  // ---------------------------------------------------------------------------

  /** The three tier counts never exceed the number of records, and reach it exactly when every
      record carries one of the three known tiers. */
  lemma {:induction false} TierBreakdownBound(records: seq<VelocityRecord>)
    ensures TierTotal(Breakdown(records)) <= |records|
    ensures TierTotal(Breakdown(records)) == |records| <==>
              forall i :: 0 <= i < |records| ==> KnownTier(records[i].velocityTier)
    decreases |records|
  {
    if records != [] {
      var n := |records| - 1;
      var prefix := records[..n];
      TierBreakdownBound(prefix);
      assert forall i :: 0 <= i < n ==> prefix[i] == records[i];
      if forall i :: 0 <= i < |records| ==> KnownTier(records[i].velocityTier) {
        assert KnownTier(records[n].velocityTier);
      }
    }
  }

  lemma {:induction false} SyncSetMembers(records: seq<VelocityRecord>, s: string)
    ensures s in SyncSet(records) <==>
              s != "" && exists i :: 0 <= i < |records| && records[i].fivetranSynced == Some(s)
    decreases |records|
  {
    if records != [] {
      var n := |records| - 1;
      var prefix := records[..n];
      SyncSetMembers(prefix, s);
      assert forall i :: 0 <= i < n ==> prefix[i] == records[i];
      if s != "" && exists i :: 0 <= i < |records| && records[i].fivetranSynced == Some(s) {
        var i :| 0 <= i < |records| && records[i].fivetranSynced == Some(s);
        if i < n {
          assert prefix[i].fivetranSynced == Some(s);
        }
      }
    }
  }

  /** `lastSyncedAt` is null exactly when no record has a non-empty sync timestamp; otherwise it is
      one of those timestamps and no other one sorts after it. */
  lemma {:induction false} LatestSyncIsGreatest(records: seq<VelocityRecord>)
    ensures LatestSync(records).None? <==> SyncSet(records) == {}
    ensures LatestSync(records).Some? ==>
              LatestSync(records).value in SyncSet(records) &&
              forall t :: t in SyncSet(records) ==> t == LatestSync(records).value || Less(t, LatestSync(records).value)
    decreases |records|
  {
    if records != [] {
      var prefix := records[..|records| - 1];
      var synced := records[|records| - 1].fivetranSynced;
      LatestSyncIsGreatest(prefix);
      var previous := LatestSync(prefix);
      if TruthyText(synced) && previous.Some? {
        if Less(previous.value, synced.value) {
          forall t | t in SyncSet(prefix)
            ensures t == synced.value || Less(t, synced.value)
          {
            if t != previous.value {
              LessTransitive(t, previous.value, synced.value);
            }
          }
        } else {
          LessTotal(previous.value, synced.value);
        }
      }
    }
  }

  /** Scan order cannot change `lastSyncedAt`: it depends only on which timestamps occur. */
  lemma LatestSyncDeterminedBySet(a: seq<VelocityRecord>, b: seq<VelocityRecord>)
    requires SyncSet(a) == SyncSet(b)
    ensures LatestSync(a) == LatestSync(b)
  {
    LatestSyncIsGreatest(a);
    LatestSyncIsGreatest(b);
    if LatestSync(a).Some? && LatestSync(a) != LatestSync(b) {
      var x, y := LatestSync(a).value, LatestSync(b).value;
      assert Less(y, x) && Less(x, y);
      LessAsymmetric(x, y);
    }
  }

  /** Every accumulated quantity of a concatenation combines those of its two parts. */
  lemma {:induction false} FoldsAppend(a: seq<VelocityRecord>, b: seq<VelocityRecord>, tier: string, m: Measure)
    ensures CountTier(a + b, tier) == CountTier(a, tier) + CountTier(b, tier)
    ensures SumPositive(a + b, m) == SumPositive(a, m) + SumPositive(b, m)
    ensures CountPositive(a + b, m) == CountPositive(a, m) + CountPositive(b, m)
    ensures SyncSet(a + b) == SyncSet(a) + SyncSet(b)
    decreases |b|
  {
    if b == [] {
      assert a + b == a;
    } else {
      var shorter := b[..|b| - 1];
      assert (a + b)[..|a + b| - 1] == a + shorter;
      FoldsAppend(a, shorter, tier, m);
    }
  }

  /** Only positive values are summed, so a sum is never negative, and it is zero exactly when
      no value was counted. */
  lemma {:induction false} PositiveFoldBounds(records: seq<VelocityRecord>, m: Measure)
    ensures SumPositive(records, m) >= 0.0
    ensures SumPositive(records, m) == 0.0 <==> CountPositive(records, m) == 0
    decreases |records|
  {
    if records != [] {
      PositiveFoldBounds(records[..|records| - 1], m);
    }
  }

  /** The totals and averages of the aggregation are never negative, and the total capital is
      zero exactly when no record has a positive capital value. */
  lemma MetricsNonNegative(records: seq<VelocityRecord>)
    ensures MetricsOf(records).totalCapitalRaised >= 0.0
    ensures MetricsOf(records).totalCapitalRaised == 0.0 <==> CountPositive(records, Capital) == 0
    ensures MetricsOf(records).averageCapitalRaised >= 0
    ensures MetricsOf(records).averageMonthsFundraising >= 0
  {
    PositiveFoldBounds(records, Capital);
    PositiveFoldBounds(records, Months);
    AverageNonNegative(SumPositive(records, Capital), CountPositive(records, Capital));
    AverageNonNegative(SumPositive(records, Months), CountPositive(records, Months));
  }

  lemma AverageNonNegative(total: real, count: nat)
    requires total >= 0.0
    ensures Average(total, count) >= 0
  {
    if count > 0 {
      assert total / count as real >= 0.0;
    }
  }

  /** A record that is not counted (null, zero or negative) adds to neither the sum nor the count. */
  lemma UncountedRecordIgnored(before: seq<VelocityRecord>, record: VelocityRecord, after: seq<VelocityRecord>, m: Measure)
    requires !Counted(MeasureOf(record, m))
    ensures SumPositive(before + [record] + after, m) == SumPositive(before + after, m)
    ensures CountPositive(before + [record] + after, m) == CountPositive(before + after, m)
  {
    FoldsAppend(before + [record], after, HighVelocityGp, m);
    FoldsAppend(before, [record], HighVelocityGp, m);
    FoldsAppend(before, after, HighVelocityGp, m);
    assert [record][..0] == [];
  }

  /** Taking out the element at `j` takes exactly one occurrence of it out of the multiset. */
  lemma RemoveAt(s: seq<VelocityRecord>, j: nat)
    requires j < |s|
    ensures multiset(s[..j] + s[j + 1..]) == multiset(s) - multiset{s[j]}
  {
    assert s == s[..j] + [s[j]] + s[j + 1..];
  }

  /** Where the last record of `a` sits in its rearrangement `b`. */
  lemma MatchLast(a: seq<VelocityRecord>, b: seq<VelocityRecord>) returns (j: nat)
    requires a != [] && multiset(a) == multiset(b)
    ensures j < |b| && b[j] == a[|a| - 1]
    ensures multiset(a[..|a| - 1]) == multiset(b[..j] + b[j + 1..])
  {
    var n := |a| - 1;
    assert a[..n] == a[..n] + a[n + 1..];
    assert a[n] in multiset(b);
    j :| 0 <= j < |b| && b[j] == a[n];
    RemoveAt(a, n);
    RemoveAt(b, j);
  }

  lemma {:induction false} FoldsPermutation(a: seq<VelocityRecord>, b: seq<VelocityRecord>, tier: string, m: Measure)
    requires multiset(a) == multiset(b)
    ensures CountTier(a, tier) == CountTier(b, tier)
    ensures SumPositive(a, m) == SumPositive(b, m)
    ensures CountPositive(a, m) == CountPositive(b, m)
    ensures SyncSet(a) == SyncSet(b)
    decreases |a|
  {
    if a == [] {
      assert |b| == |multiset(b)| == 0;
    } else {
      var j := MatchLast(a, b);
      var x, rest := a[|a| - 1], a[..|a| - 1];
      var left, right := b[..j], b[j + 1..];
      FoldsPermutation(rest, left + right, tier, m);
      assert a == rest + [x];
      FoldsAppend(rest, [x], tier, m);
      assert b == (left + [x]) + right;
      FoldsAppend(left + [x], right, tier, m);
      FoldsAppend(left, [x], tier, m);
      FoldsAppend(left, right, tier, m);
    }
  }

  /** The aggregation depends only on which records there are, not on the order of the rows. */
  lemma MetricsOrderIndependent(a: seq<VelocityRecord>, b: seq<VelocityRecord>)
    requires multiset(a) == multiset(b)
    ensures MetricsOf(a) == MetricsOf(b)
  {
    FoldsPermutation(a, b, HighVelocityGp, Capital);
    FoldsPermutation(a, b, StableButLeaking, Months);
    FoldsPermutation(a, b, HighDistress, Capital);
    LatestSyncDeterminedBySet(a, b);
    assert |a| == |multiset(a)| == |b|;
  }

  // ---------------------------------------------------------------------------
  // Worked examples
  // ---------------------------------------------------------------------------

  function Company(tier: Option<string>, capital: Option<real>, synced: Option<string>): VelocityRecord {
    VelocityRecord("c", None, synced, tier, None, None, capital)
  }

  /** Capital values 0, -5, 100 and 200: only the two positive ones are summed and averaged. */
  lemma PositiveFilterExample()
    ensures var m := MetricsOf([Company(None, Some(0.0), None), Company(None, Some(-5.0), None),
                                Company(None, Some(100.0), None), Company(None, Some(200.0), None)]);
            m.totalCapitalRaised == 300.0 && m.averageCapitalRaised == 150
  {
    var records := [Company(None, Some(0.0), None), Company(None, Some(-5.0), None),
                    Company(None, Some(100.0), None), Company(None, Some(200.0), None)];
    assert SumPositive(records[..1], Capital) == 0.0 by { assert records[..1][..0] == []; }
    assert SumPositive(records[..2], Capital) == 0.0 by { assert records[..2][..1] == records[..1]; }
    assert SumPositive(records[..3], Capital) == 100.0 by { assert records[..3][..2] == records[..2]; }
    assert SumPositive(records, Capital) == 300.0 by { assert records[..3] == records[..|records| - 1]; }
    assert CountPositive(records[..1], Capital) == 0 by { assert records[..1][..0] == []; }
    assert CountPositive(records[..2], Capital) == 0 by { assert records[..2][..1] == records[..1]; }
    assert CountPositive(records[..3], Capital) == 1 by { assert records[..3][..2] == records[..2]; }
    assert CountPositive(records, Capital) == 2 by { assert records[..3] == records[..|records| - 1]; }
  }

  /** A record without a sync time between two synced ones does not disturb the scan: the later
      of the two timestamps is reported. */
  lemma LatestSyncSkipsMissing(earlier: string, later: string)
    requires earlier != "" && Less(earlier, later)
    ensures LatestSync([Company(None, None, Some(earlier)), Company(None, None, None),
                        Company(None, None, Some(later))]) == Some(later)
  {
    var records := [Company(None, None, Some(earlier)), Company(None, None, None), Company(None, None, Some(later))];
    assert LatestSync(records[..1]) == Some(earlier) by {
      assert records[..1][..0] == [];
    }
    assert LatestSync(records[..2]) == Some(earlier) by {
      assert records[..2][..1] == records[..1];
    }
    assert records[..2] == records[..|records| - 1];
  }

  /** Sync times 2024-01-01, none and 2024-06-01: the June timestamp is reported. */
  lemma LatestSyncExample()
    ensures LatestSync([Company(None, None, Some("2024-01-01T00:00:00Z")), Company(None, None, None),
                        Company(None, None, Some("2024-06-01T00:00:00Z"))])
            == Some("2024-06-01T00:00:00Z")
  {
    JanuaryBeforeJune();
    LatestSyncSkipsMissing("2024-01-01T00:00:00Z", "2024-06-01T00:00:00Z");
  }

  /** ISO-8601 timestamps of one format compare chronologically: January sorts before June. */
  lemma JanuaryBeforeJune()
    ensures Less("2024-01-01T00:00:00Z", "2024-06-01T00:00:00Z")
  {
    var january, june := "2024-01-01T00:00:00Z", "2024-06-01T00:00:00Z";
    assert january[..6] == june[..6] && january[6] == '1' && june[6] == '6';
    LessAtFirstDifference(january, june, 6);
  }
}
