// Predictive-maintenance rules: wear classification, the periodic tick with
// its clamps and alert transitions, the schedule / shutdown / acknowledge
// handlers, the filtered and ranked asset view, and the statistics panel.

module Maintenance {
  import opened Common

  // ---------------------------------------------------------------------------
  // Criticality
  // ---------------------------------------------------------------------------

  const CriticalThreshold: real := 90.0
  const HighThreshold: real := 70.0
  const MediumThreshold: real := 30.0

  datatype Criticality = Critical | High | Medium | Low

  function CriticalityName(c: Criticality): string
  {
    match c
    case Critical => "Critical"
    case High => "High"
    case Medium => "Medium"
    case Low => "Low"
  }

  /** The wear thresholds, tested from the top down. */
  function GetCriticality(wear: real): (c: Criticality)
    ensures c == Critical <==> wear >= CriticalThreshold
    ensures c == High <==> HighThreshold <= wear < CriticalThreshold
    ensures c == Medium <==> MediumThreshold <= wear < HighThreshold
    ensures c == Low <==> wear < MediumThreshold
  {
    if wear >= CriticalThreshold then Critical
    else if wear >= HighThreshold then High
    else if wear >= MediumThreshold then Medium
    else Low
  }

  /** The sort order of the asset view: Critical 4, High 3, Medium 2, Low 1. */
  function Rank(c: Criticality): real
  {
    match c
    case Critical => 4.0
    case High => 3.0
    case Medium => 2.0
    case Low => 1.0
  }

  /** More wear never gives a lower criticality. */
  lemma RankMonotone(w1: real, w2: real)
    requires w1 <= w2
    ensures Rank(GetCriticality(w1)) <= Rank(GetCriticality(w2))
  {
  }

  // ---------------------------------------------------------------------------
  // Assets
  // ---------------------------------------------------------------------------

  const Operational := "Operational"
  const Alert := "ALERT"
  const Acknowledged := "ACKNOWLEDGED"
  const CriticalAlertStatus := "CRITICAL " + Alert + " - Immediate Action Required"
  const HighAlertStatus := "HIGH " + Alert + " - Schedule Maintenance"
  const ScheduledStatus := "Maintenance Scheduled"
  const ShutdownStatus := "EMERGENCY SHUTDOWN - Offline"

  datatype Asset = Asset(
    id: string,
    name: string,
    status: string,
    wearLevel: real,
    prediction: string,
    criticality: Criticality,
    energyEfficiency: real,
    temperature: real,
    vibration: real,
    pressure: real,
    downtime: real,
    location: string)

  function InitialAssets(): seq<Asset>
  {
    [ Asset("CRSHR-001", "Primary Jaw Crusher", Operational, 78.0,
            "High risk of jaw plate failure in 45 days.",
            GetCriticality(78.0), 82.0, 75.5, 4.2, 52.1, 12.0, "Zone A"),
      Asset("SAG-MILL-003", "SAG Mill 3", Operational, 32.0,
            "Liner bolts integrity nominal. Inspection advised in 90 days.",
            GetCriticality(32.0), 91.0, 68.2, 2.8, 48.9, 8.0, "Zone B"),
      Asset("CRSHR-002", "Secondary Cone Crusher", Operational, 94.0,
            "Severe bearing fatigue detected. **IMMEDIATE SHUTDOWN ADVISED.**",
            GetCriticality(94.0), 75.0, 89.4, 7.2, 61.5, 24.0, "Zone A"),
      Asset("BALL-MILL-001", "Ball Mill 1", Operational, 15.0,
            "Optimal performance. Next check in 6 months.",
            GetCriticality(15.0), 95.0, 62.1, 1.9, 46.2, 4.0, "Zone C"),
      Asset("CONV-004", "Main Conveyor Belt", "Maintenance Required", 67.0,
            "Belt tension irregularities detected. Service required within 30 days.",
            GetCriticality(67.0), 88.0, 55.3, 3.1, 35.8, 6.0, "Zone D"),
      Asset("PUMP-007", "Slurry Pump System", Operational, 43.0,
            "Impeller wear within normal parameters. Monitor closely.",
            GetCriticality(43.0), 87.0, 71.8, 3.7, 58.2, 3.0, "Zone B") ]
  }

  /** The seed data is classified consistently with its wear. */
  lemma InitialCriticality()
    ensures forall i :: 0 <= i < |InitialAssets()| ==>
      InitialAssets()[i].criticality == GetCriticality(InitialAssets()[i].wearLevel)
      && InitialAssets()[i].wearLevel <= 100.0
    ensures InitialAssets()[2].criticality == Critical && InitialAssets()[3].criticality == Low
  {
  }

  // ---------------------------------------------------------------------------
  // The periodic tick
  // ---------------------------------------------------------------------------

  /** One asset's readings after the noise was added and before any clamp. */
  datatype Raw = Raw(wear: real, efficiency: real, temperature: real, vibration: real, pressure: real)

  /** The alert transition: only an Operational asset changes status. */
  function NextStatus(status: string, wear: real): (s: string)
    ensures status != Operational ==> s == status
    ensures status == Operational && wear >= 95.0 ==> s == CriticalAlertStatus
    ensures status == Operational && 85.0 <= wear < 95.0 ==> s == HighAlertStatus
    ensures status == Operational && wear < 85.0 ==> s == Operational
    ensures s != status <==> status == Operational && wear >= 85.0
  {
    if wear >= 95.0 && status == Operational then CriticalAlertStatus
    else if wear >= 85.0 && status == Operational then HighAlertStatus
    else status
  }

  /** The notice raised together with an alert transition, if any. */
  function RaisedAlert(a: Asset, wear: real, noticeId: int): (r: Option<Notice>)
    ensures r.Some? <==> NextStatus(a.status, wear) != a.status
    ensures r.Some? && wear >= 95.0 ==> r.value.kind == "critical"
    ensures r.Some? && wear < 95.0 ==> r.value.kind == "high"
  {
    if wear >= 95.0 && a.status == Operational then
      Some(Notice(noticeId, "CRITICAL: " + a.name + " requires immediate attention!", "critical"))
    else if wear >= 85.0 && a.status == Operational then
      Some(Notice(noticeId, "HIGH: " + a.name + " maintenance window approaching", "high"))
    else None
  }

  /** One asset after a tick, from its unclamped next readings. */
  function TickAsset(a: Asset, raw: Raw): (b: Asset)
    ensures b.wearLevel <= 100.0
    ensures raw.wear <= 100.0 ==> b.wearLevel == raw.wear
    ensures raw.wear > 100.0 ==> b.wearLevel == 100.0
    ensures b.criticality == GetCriticality(b.wearLevel)
    ensures 70.0 <= b.energyEfficiency <= 99.0
    ensures 50.0 <= b.temperature <= 100.0
    ensures 1.0 <= b.vibration <= 10.0
    ensures 30.0 <= b.pressure <= 70.0
    ensures b.status == NextStatus(a.status, b.wearLevel)
    ensures b.status == CriticalAlertStatus && a.status != b.status ==> b.criticality == Critical
    ensures b.status == HighAlertStatus && a.status != b.status ==> b.criticality in {Critical, High}
    ensures b.id == a.id && b.name == a.name && b.prediction == a.prediction
    ensures b.downtime == a.downtime && b.location == a.location
  {
    var wear := Min(100.0, raw.wear);
    a.(wearLevel := wear,
       criticality := GetCriticality(wear),
       energyEfficiency := Clamp(raw.efficiency, 70.0, 99.0),
       temperature := Clamp(raw.temperature, 50.0, 100.0),
       vibration := Clamp(raw.vibration, 1.0, 10.0),
       pressure := Clamp(raw.pressure, 30.0, 70.0),
       status := NextStatus(a.status, wear))
  }

  /** When the noise is non-negative, wear below the cap never decreases. */
  lemma TickWearMonotone(a: Asset, raw: Raw)
    requires a.wearLevel <= 100.0 && raw.wear >= a.wearLevel
    ensures TickAsset(a, raw).wearLevel >= a.wearLevel
    ensures Rank(TickAsset(a, raw).criticality) >= Rank(GetCriticality(a.wearLevel))
  {
    RankMonotone(a.wearLevel, TickAsset(a, raw).wearLevel);
  }

  /** The tick's `map` over the assets, in order; `TickAsset`'s contract carries the per-asset bounds. */
  function TickAll(assets: seq<Asset>, raws: seq<Raw>): (r: seq<Asset>)
    requires |raws| == |assets|
    ensures |r| == |assets|
    ensures forall i :: 0 <= i < |r| ==> r[i] == TickAsset(assets[i], raws[i])
  {
    seq(|assets|, i requires 0 <= i < |assets| => TickAsset(assets[i], raws[i]))
  }

  /** The notices a tick raises, in asset order. */
  function Alerts(assets: seq<Asset>, raws: seq<Raw>, noticeId: int): (r: seq<Notice>)
    requires |raws| == |assets|
    ensures |r| <= |assets|
    decreases |assets|
  {
    if assets == [] then []
    else
      var n := |assets| - 1;
      var prior := Alerts(assets[..n], raws[..n], noticeId);
      match RaisedAlert(assets[n], Min(100.0, raws[n].wear), noticeId)
      case None => prior
      case Some(x) => prior + [x]
  }

  /** Pushing several notices one after the other onto a capped list. */
  function PushAll(list: seq<Notice>, ns: seq<Notice>, cap: nat): (r: seq<Notice>)
    requires cap >= 1
    ensures |list| <= cap ==> |r| <= cap
    ensures ns != [] ==> r != [] && r[0] == ns[|ns| - 1]
    ensures ns == [] ==> r == list
    decreases |ns|
  {
    if ns == [] then list
    else PushNewest(PushAll(list, ns[..|ns| - 1], cap), ns[|ns| - 1], cap)
  }

  function AsSeq(o: Option<Notice>): seq<Notice>
  {
    if o.Some? then [o.value] else []
  }

  /** Extending the ticked prefix by one asset appends that asset's notice, if any. */
  lemma AlertsStep(assets: seq<Asset>, raws: seq<Raw>, noticeId: int, i: nat)
    requires |raws| == |assets| && i < |assets|
    ensures Alerts(assets[..i + 1], raws[..i + 1], noticeId)
      == Alerts(assets[..i], raws[..i], noticeId) + AsSeq(RaisedAlert(assets[i], Min(100.0, raws[i].wear), noticeId))
  {
    assert assets[..i + 1][..i] == assets[..i];
    assert raws[..i + 1][..i] == raws[..i];
  }

  lemma PushAllStep(list: seq<Notice>, ns: seq<Notice>, n: Notice, cap: nat)
    requires cap >= 1
    ensures PushAll(list, ns + [n], cap) == PushNewest(PushAll(list, ns, cap), n, cap)
  {
    assert (ns + [n])[..|ns|] == ns;
  }

  /** Assets that start Operational below the alert band raise nothing. */
  lemma {:induction false} QuietTick(assets: seq<Asset>, raws: seq<Raw>, noticeId: int)
    requires |raws| == |assets|
    requires forall i :: 0 <= i < |raws| ==> raws[i].wear < 85.0
    ensures Alerts(assets, raws, noticeId) == []
    decreases |assets|
  {
    if assets != [] {
      var n := |assets| - 1;
      QuietTick(assets[..n], raws[..n], noticeId);
    }
  }

  // ---------------------------------------------------------------------------
  // Handlers on one asset
  // ---------------------------------------------------------------------------

  /** Apply `f` to the assets whose id is `id`, leaving every other asset alone.
      The contract is the frame `map` keeps: same length and order, every other asset unchanged. */
  function UpdateWhere(assets: seq<Asset>, id: string, f: Asset -> Asset): (r: seq<Asset>)
    ensures |r| == |assets|
    ensures forall i :: 0 <= i < |r| ==> r[i] == if assets[i].id == id then f(assets[i]) else assets[i]
  {
    seq(|assets|, i requires 0 <= i < |assets| => if assets[i].id == id then f(assets[i]) else assets[i])
  }

  function ScheduleAsset(a: Asset, prediction: string): (b: Asset)
    ensures b.status == ScheduledStatus
    ensures b.wearLevel >= 20.0
    ensures b.wearLevel <= Max(20.0, a.wearLevel)
    ensures a.wearLevel >= 30.0 ==> b.wearLevel == a.wearLevel - 10.0
    ensures b.criticality == a.criticality
    ensures b == a.(status := b.status, wearLevel := b.wearLevel, prediction := prediction)
  {
    a.(status := ScheduledStatus, wearLevel := Max(20.0, a.wearLevel - 10.0), prediction := prediction)
  }

  function ShutdownAsset(a: Asset): (b: Asset)
    ensures b.status == ShutdownStatus
    ensures b == a.(status := ShutdownStatus)
    ensures b.wearLevel == a.wearLevel
  {
    a.(status := ShutdownStatus)
  }

  /** `String.replace` with a string pattern: only the first occurrence is replaced. */
  function ReplaceFirst(s: string, pat: string, rep: string): (r: string)
    requires |pat| > 0
    decreases |s|
  {
    if |s| < |pat| then s
    else if s[..|pat|] == pat then rep + s[|pat|..]
    else [s[0]] + ReplaceFirst(s[1..], pat, rep)
  }

  function AcknowledgeStatus(status: string): string
  {
    ReplaceFirst(status, Alert, Acknowledged)
  }

  /** Where the pattern does not occur, the replacement changes nothing. */
  lemma {:induction false} ReplaceFirstAbsent(s: string, pat: string, rep: string)
    requires |pat| > 0 && !Contains(s, pat)
    ensures ReplaceFirst(s, pat, rep) == s
    decreases |s|
  {
    if |s| >= |pat| {
      assert !OccursAt(s, pat, 0);
      if !Contains(s[1..], pat) {
        ReplaceFirstAbsent(s[1..], pat, rep);
      } else {
        var i :| 0 <= i <= |s[1..]| - |pat| && OccursAt(s[1..], pat, i);
        assert s[i + 1..i + 1 + |pat|] == s[1..][i..i + |pat|];
        assert OccursAt(s, pat, i + 1);
        assert false;
      }
    }
  }

  /** A pattern occurs in the tail at `j` exactly when it occurs in the whole at `j + 1`. */
  lemma OccursShift(s: string, pat: string, j: nat)
    requires |s| >= 1
    ensures OccursAt(s[1..], pat, j) <==> OccursAt(s, pat, j + 1)
  {
    if j + |pat| <= |s| - 1 {
      assert s[1..][j..j + |pat|] == s[j + 1..j + 1 + |pat|];
    }
  }

  /** The replacement happens at the first occurrence of the pattern. */
  lemma {:induction false} ReplaceFirstAt(s: string, pat: string, rep: string, i: nat)
    requires |pat| > 0 && OccursAt(s, pat, i)
    requires forall j :: 0 <= j < i ==> !OccursAt(s, pat, j)
    ensures ReplaceFirst(s, pat, rep) == s[..i] + rep + s[i + |pat|..]
    decreases i
  {
    if i == 0 {
      assert s[..|pat|] == pat;
    } else {
      var t := s[1..];
      OccursShift(s, pat, i - 1);
      forall j | 0 <= j < i - 1
        ensures !OccursAt(t, pat, j)
      {
        OccursShift(s, pat, j);
      }
      ReplaceFirstAt(t, pat, rep, i - 1);
      assert ReplaceFirst(s, pat, rep) == [s[0]] + ReplaceFirst(t, pat, rep) by {
        assert !OccursAt(s, pat, 0);
      }
      assert [s[0]] + t[..i - 1] == s[..i];
      assert t[i - 1 + |pat|..] == s[i + |pat|..];
    }
  }

  /** A status that names no alert is left as it is. */
  lemma AcknowledgeNoAlert(status: string)
    requires !Contains(status, Alert)
    ensures AcknowledgeStatus(status) == status
  {
    ReplaceFirstAbsent(status, Alert, Acknowledged);
  }

  /** `ALERT` occurs at `j` exactly when the five characters there spell it. */
  lemma AlertChars(s: string, j: int)
    requires 0 <= j && j + 5 <= |s|
    ensures OccursAt(s, Alert, j)
      <==> s[j] == 'A' && s[j + 1] == 'L' && s[j + 2] == 'E' && s[j + 3] == 'R' && s[j + 4] == 'T'
  {
    assert s[j..j + 5] == [s[j], s[j + 1], s[j + 2], s[j + 3], s[j + 4]];
  }

  /** The characters of a first replacement: prefix, then the replacement text, then the rest shifted by 7. */
  lemma AcknowledgedChars(status: string, i: nat, r: string)
    requires i + 5 <= |status| && r == status[..i] + Acknowledged + status[i + 5..]
    ensures |r| == |status| + 7
    ensures forall k :: 0 <= k < i ==> r[k] == status[k]
    ensures forall k :: 0 <= k < 12 ==> r[i + k] == Acknowledged[k]
    ensures forall k :: i + 12 <= k < |r| ==> r[k] == status[k - 7]
  {
  }

  /** After replacing the only `ALERT` at `i`, no position of the result spells `ALERT`. */
  lemma NoAlertAfterReplace(status: string, i: nat, r: string, j: int)
    requires OccursAt(status, Alert, i)
    requires forall j :: OccursAt(status, Alert, j) ==> j == i
    requires r == status[..i] + Acknowledged + status[i + 5..]
    requires 0 <= j <= |r| - 5
    ensures !OccursAt(r, Alert, j)
  {
    AcknowledgedChars(status, i, r);
    AlertChars(r, j);
    if j + 5 <= i {
      AlertChars(status, j);
    } else if j < i {
      assert r[i] == 'A';
    } else if j < i + 12 {
      assert r[j] == Acknowledged[j - i];
      if j == i {
        assert r[j + 1] == 'C';
      }
    } else {
      AlertChars(status, j - 7);
    }
  }

  /** A status with exactly one alert loses it, so acknowledging twice equals acknowledging once. */
  lemma AcknowledgeIdempotent(status: string, i: nat)
    requires OccursAt(status, Alert, i)
    requires forall j :: OccursAt(status, Alert, j) ==> j == i
    ensures !Contains(AcknowledgeStatus(status), Alert)
    ensures AcknowledgeStatus(AcknowledgeStatus(status)) == AcknowledgeStatus(status)
  {
    ReplaceFirstAt(status, Alert, Acknowledged, i);
    var r := AcknowledgeStatus(status);
    forall j | 0 <= j <= |r| - 5
      ensures !OccursAt(r, Alert, j)
    {
      NoAlertAfterReplace(status, i, r, j);
    }
    ReplaceFirstAbsent(r, Alert, Acknowledged);
  }

  /** `ALERT` first occurs in `s` at `i`, checked character by character. */
  lemma FirstAlertAt(s: string, i: nat)
    requires i + 5 <= |s|
    requires s[i] == 'A' && s[i + 1] == 'L' && s[i + 2] == 'E' && s[i + 3] == 'R' && s[i + 4] == 'T'
    requires forall j :: 0 <= j < i ==> s[j] != 'A' || s[j + 1] != 'L' || s[j + 2] != 'E'
    ensures OccursAt(s, Alert, i)
    ensures forall j :: 0 <= j < i ==> !OccursAt(s, Alert, j)
  {
    AlertChars(s, i);
    forall j | 0 <= j < i
      ensures !OccursAt(s, Alert, j)
    {
      AlertChars(s, j);
    }
  }

  function AcknowledgeAsset(a: Asset): (b: Asset)
    ensures b == a.(status := AcknowledgeStatus(a.status))
  {
    a.(status := AcknowledgeStatus(a.status))
  }

  /** A status `pre ALERT post` whose first alert follows `pre` acknowledges to `pre ACKNOWLEDGED post`. */
  lemma AcknowledgeAfter(pre: string, post: string)
    requires forall j :: 0 <= j < |pre| ==> !OccursAt(pre + Alert + post, Alert, j)
    ensures AcknowledgeStatus(pre + Alert + post) == pre + Acknowledged + post
  {
    var s := pre + Alert + post;
    assert s[|pre|..|pre| + 5] == Alert;
    ReplaceFirstAt(s, Alert, Acknowledged, |pre|);
    assert s[..|pre|] == pre;
    assert s[|pre| + 5..] == post;
  }

  /** An asset the tick puts into critical alert reads CRITICAL ACKNOWLEDGED once acknowledged. */
  lemma AcknowledgeCriticalAlert(a: Asset, raw: Raw)
    requires a.status == Operational && raw.wear >= 95.0
    ensures AcknowledgeAsset(TickAsset(a, raw)).status == "CRITICAL " + Acknowledged + " - Immediate Action Required"
  {
    var pre, post := "CRITICAL ", " - Immediate Action Required";
    FirstAlertAt(pre + Alert + post, |pre|);
    AcknowledgeAfter(pre, post);
  }

  /** An asset the tick puts into high alert reads HIGH ACKNOWLEDGED once acknowledged. */
  lemma AcknowledgeHighAlert(a: Asset, raw: Raw)
    requires a.status == Operational && 85.0 <= raw.wear < 95.0
    ensures AcknowledgeAsset(TickAsset(a, raw)).status == "HIGH " + Acknowledged + " - Schedule Maintenance"
  {
    var pre, post := "HIGH ", " - Schedule Maintenance";
    FirstAlertAt(pre + Alert + post, |pre|);
    AcknowledgeAfter(pre, post);
  }

  function Schedule(assets: seq<Asset>, id: string, prediction: string): seq<Asset>
  {
    UpdateWhere(assets, id, (a: Asset) => ScheduleAsset(a, prediction))
  }

  function Shutdown(assets: seq<Asset>, id: string): seq<Asset>
  {
    UpdateWhere(assets, id, ShutdownAsset)
  }

  function Acknowledge(assets: seq<Asset>, id: string): seq<Asset>
  {
    UpdateWhere(assets, id, AcknowledgeAsset)
  }

  /** Scheduling touches only the target: it gets the scheduled status and wear at least 20. */
  lemma ScheduleOnlyTarget(assets: seq<Asset>, id: string, prediction: string)
    ensures |Schedule(assets, id, prediction)| == |assets|
    ensures forall i :: 0 <= i < |assets| && assets[i].id != id ==>
      Schedule(assets, id, prediction)[i] == assets[i]
    ensures forall i :: 0 <= i < |assets| && assets[i].id == id ==>
      Schedule(assets, id, prediction)[i].status == ScheduledStatus
      && Schedule(assets, id, prediction)[i].wearLevel == Max(20.0, assets[i].wearLevel - 10.0)
      && Schedule(assets, id, prediction)[i].wearLevel >= 20.0
  {
  }

  /** Shutting down touches only the target's status. */
  lemma ShutdownOnlyTarget(assets: seq<Asset>, id: string)
    ensures |Shutdown(assets, id)| == |assets|
    ensures forall i :: 0 <= i < |assets| ==>
      Shutdown(assets, id)[i] == if assets[i].id == id then assets[i].(status := ShutdownStatus) else assets[i]
  {
  }

  // ---------------------------------------------------------------------------
  // The asset view
  // ---------------------------------------------------------------------------

  predicate Matches(a: Asset, filter: string, locationFilter: string, term: string)
  {
    (filter == "All" || CriticalityName(a.criticality) == filter)
    && (locationFilter == "All" || a.location == locationFilter)
    && MatchesSearch(a.name, a.id, term)
  }

  function RankKey(a: Asset): real { Rank(a.criticality) }

  /** Filter by criticality, location and search, then order Critical first (stable). */
  function FilteredData(assets: seq<Asset>, filter: string, locationFilter: string, term: string): (r: seq<Asset>)
    ensures forall i :: 0 <= i < |r| ==> Matches(r[i], filter, locationFilter, term)
    ensures forall i, j :: 0 <= i < j < |r| ==> Rank(r[i].criticality) >= Rank(r[j].criticality)
    ensures multiset(r) <= multiset(assets)
  {
    var kept := Filter(assets, (a: Asset) => Matches(a, filter, locationFilter, term));
    var r := SortDesc(kept, RankKey);
    assert forall i :: 0 <= i < |r| ==> r[i] in multiset(kept);
    r
  }

  /** The view holds exactly the matching assets. */
  lemma FilteredDataMembers(assets: seq<Asset>, filter: string, locationFilter: string, term: string, a: Asset)
    ensures a in FilteredData(assets, filter, locationFilter, term)
      <==> a in assets && Matches(a, filter, locationFilter, term)
  {
    var p := (x: Asset) => Matches(x, filter, locationFilter, term);
    FilterMembers(assets, p, a);
    var kept := Filter(assets, p);
    assert a in kept <==> a in multiset(kept);
    assert a in SortDesc(kept, RankKey) <==> a in multiset(SortDesc(kept, RankKey));
  }

  /** Assets of equal criticality keep their registry order. */
  lemma FilteredDataStable(assets: seq<Asset>, filter: string, locationFilter: string, term: string, c: Criticality)
    ensures WithKey(FilteredData(assets, filter, locationFilter, term), RankKey, Rank(c))
      == WithKey(Filter(assets, (a: Asset) => Matches(a, filter, locationFilter, term)), RankKey, Rank(c))
  {
    SortDescStable(Filter(assets, (a: Asset) => Matches(a, filter, locationFilter, term)), RankKey, Rank(c));
  }

  // ---------------------------------------------------------------------------
  // Statistics
  // ---------------------------------------------------------------------------

  datatype Stats = Stats(
    criticalCount: nat,
    highCount: nat,
    scheduledCount: nat,
    avgEfficiency: JsNumber,
    totalDowntime: real,
    avgTemperature: JsNumber,
    operationalCount: nat,
    totalAssets: nat)

  function ComputeStats(assets: seq<Asset>): (s: Stats)
    ensures s.totalAssets == |assets|
    ensures s.criticalCount <= |assets| && s.highCount <= |assets| && s.operationalCount <= |assets|
    ensures s.avgEfficiency.Finite? <==> assets != []
    ensures assets == [] ==> s.avgEfficiency == NaN && s.avgTemperature == NaN
  {
    Stats(
      |Filter(assets, (a: Asset) => a.criticality == Critical)|,
      |Filter(assets, (a: Asset) => a.criticality == High)|,
      |Filter(assets, (a: Asset) => Contains(a.status, "Scheduled"))|,
      JsDivide(Sum(assets, (a: Asset) => a.energyEfficiency), |assets| as real),
      Sum(assets, (a: Asset) => a.downtime),
      JsDivide(Sum(assets, (a: Asset) => a.temperature), |assets| as real),
      |Filter(assets, (a: Asset) => a.status == Operational)|,
      |assets|)
  }

  /** Two filters with disjoint predicates together keep at most the whole sequence. */
  lemma {:induction false} FilterDisjoint<T>(s: seq<T>, p: T -> bool, q: T -> bool)
    requires forall i :: 0 <= i < |s| ==> !(p(s[i]) && q(s[i]))
    ensures |Filter(s, p)| + |Filter(s, q)| <= |s|
  {
    if s != [] {
      FilterDisjoint(s[1..], p, q);
    }
  }

  /** No asset is counted both critical and high. */
  lemma StatsCriticalHigh(assets: seq<Asset>)
    ensures ComputeStats(assets).criticalCount + ComputeStats(assets).highCount <= |assets|
  {
    FilterDisjoint(assets, (a: Asset) => a.criticality == Critical, (a: Asset) => a.criticality == High);
  }

  /** Average efficiency stays within the tick's clamp when every asset does. */
  lemma StatsEfficiencyBounds(assets: seq<Asset>)
    requires assets != []
    requires forall i :: 0 <= i < |assets| ==> 70.0 <= assets[i].energyEfficiency <= 99.0
    ensures 70.0 <= ComputeStats(assets).avgEfficiency.v <= 99.0
  {
    var f := (a: Asset) => a.energyEfficiency;
    SumBounds(assets, f, 70.0, 99.0);
    DivideBounds(Sum(assets, f), |assets| as real, 70.0, 99.0);
  }

  // ---------------------------------------------------------------------------
  // The page state
  // ---------------------------------------------------------------------------

  /** The tick's notices pushed one by one, in asset order, onto a capped list. */
  method CollectAlerts(src: seq<Asset>, raws: seq<Raw>, noticeId: int, start: seq<Notice>) returns (ns: seq<Notice>)
    requires |raws| == |src| && |start| <= NoticeCap
    ensures |ns| <= NoticeCap
    ensures ns == PushAll(start, Alerts(src, raws, noticeId), NoticeCap)
  {
    ns := start;
    var i := 0;
    while i < |src|
      invariant 0 <= i <= |src|
      invariant ns == PushAll(start, Alerts(src[..i], raws[..i], noticeId), NoticeCap)
    {
      var alert := RaisedAlert(src[i], Min(100.0, raws[i].wear), noticeId);
      ghost var prior := Alerts(src[..i], raws[..i], noticeId);
      AlertsStep(src, raws, noticeId, i);
      if alert.Some? {
        PushAllStep(start, prior, alert.value, NoticeCap);
        ns := PushNewest(ns, alert.value, NoticeCap);
      } else {
        assert prior + [] == prior;
      }
      i := i + 1;
    }
    assert src[..i] == src && raws[..i] == raws;
  }

  const NoticeCap: nat := 10

  class MaintenanceBoard {
    var assets: seq<Asset>
    var notifications: seq<Notice>

    /** Wear is capped at 100 and at most ten notices are kept. */
    ghost predicate Valid()
      reads this
    {
      (forall i :: 0 <= i < |assets| ==> assets[i].wearLevel <= 100.0)
      && |notifications| <= NoticeCap
    }

    constructor ()
      ensures Valid()
      ensures assets == InitialAssets() && notifications == []
    {
      assets := InitialAssets();
      notifications := [];
    }

    /** `addNotification`: newest first, at most ten. */
    method AddNotification(n: Notice)
      requires Valid()
      modifies this`notifications
      ensures Valid()
      ensures notifications == PushNewest(old(notifications), n, NoticeCap)
    {
      notifications := PushNewest(notifications, n, NoticeCap);
    }

    /** One tick of the live feed: every asset is clamped and reclassified,
        and each alert transition raises a notice, in asset order. */
    method Tick(raws: seq<Raw>, noticeId: int)
      requires Valid() && |raws| == |assets|
      modifies this`assets, this`notifications
      ensures Valid()
      ensures assets == TickAll(old(assets), raws)
      ensures notifications == PushAll(old(notifications), Alerts(old(assets), raws, noticeId), NoticeCap)
    {
      var ns := CollectAlerts(assets, raws, noticeId, notifications);
      var next := TickAll(assets, raws);
      assert forall i :: 0 <= i < |next| ==> next[i].wearLevel <= 100.0;
      assets := next;
      notifications := ns;
    }

    /** `handleScheduleMaintenance`, once its delay has elapsed. */
    method ScheduleMaintenance(id: string, prediction: string, noticeId: int)
      requires Valid()
      modifies this`assets, this`notifications
      ensures Valid()
      ensures assets == Schedule(old(assets), id, prediction)
      ensures notifications == PushNewest(old(notifications),
        Notice(noticeId, "Maintenance scheduled for " + id, "info"), NoticeCap)
    {
      assets := Schedule(assets, id, prediction);
      AddNotification(Notice(noticeId, "Maintenance scheduled for " + id, "info"));
    }

    method EmergencyShutdown(id: string, noticeId: int)
      requires Valid()
      modifies this`assets, this`notifications
      ensures Valid()
      ensures assets == Shutdown(old(assets), id)
      ensures notifications == PushNewest(old(notifications),
        Notice(noticeId, "EMERGENCY: " + id + " has been shut down", "critical"), NoticeCap)
    {
      assets := Shutdown(assets, id);
      AddNotification(Notice(noticeId, "EMERGENCY: " + id + " has been shut down", "critical"));
    }

    method AcknowledgeAlert(id: string, noticeId: int)
      requires Valid()
      modifies this`assets, this`notifications
      ensures Valid()
      ensures assets == Acknowledge(old(assets), id)
      ensures notifications == PushNewest(old(notifications),
        Notice(noticeId, "Alert acknowledged for " + id, "info"), NoticeCap)
    {
      assets := Acknowledge(assets, id);
      AddNotification(Notice(noticeId, "Alert acknowledged for " + id, "info"));
    }

    /** `handleStartDiagnostic`: only a notice, once its delay has elapsed. */
    method StartDiagnostic(id: string, noticeId: int)
      requires Valid()
      modifies this`notifications
      ensures Valid()
      ensures notifications == PushNewest(old(notifications),
        Notice(noticeId, "Diagnostic completed for " + id, "success"), NoticeCap)
    {
      AddNotification(Notice(noticeId, "Diagnostic completed for " + id, "success"));
    }
  }
}
