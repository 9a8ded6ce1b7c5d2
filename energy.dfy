// Energy-saving opportunities: the three-way filter with a key-selectable sort,
// the filter summary's savings total, the implementation roadmap ordered by
// priority, and the decision buttons of the detail view with their notices.

module Energy {
  import opened Common

  // ---------------------------------------------------------------------------
  // Opportunities
  // ---------------------------------------------------------------------------

  datatype Priority = Critical | High | Medium | Low

  function PriorityName(p: Priority): string
  {
    match p
    case Critical => "Critical"
    case High => "High"
    case Medium => "Medium"
    case Low => "Low"
  }

  /** The roadmap's `priorityOrder` table. */
  function PriorityRank(p: Priority): (r: real)
    ensures 1.0 <= r <= 4.0
  {
    match p
    case Critical => 4.0
    case High => 3.0
    case Medium => 2.0
    case Low => 1.0
  }

  const Comminution := "Comminution (Grinding & Crushing)"
  const Ventilation := "Mine Ventilation"
  const MaterialsHandling := "Materials Handling & Transport"
  const EquipmentEfficiency := "Equipment Efficiency"
  const RenewableIntegration := "Renewable Energy Integration"
  const WasteHeatRecovery := "Waste Heat Recovery"
  const DigitalOptimization := "Digital & AI Optimization"

  const Identified := "Identified"
  const Analyzing := "Under Analysis"
  const Implementing := "Implementation in Progress"
  const Completed := "Completed"
  const OnHold := "On Hold"

  /** The fields the filters, sorts, totals and roadmap read. */
  datatype Opportunity = Opportunity(
    id: string,
    title: string,
    category: string,
    currentEnergyUse: real,
    projectedSavings: real,
    costSavings: real,
    implementationCost: real,
    paybackPeriod: real,
    co2Reduction: real,
    priority: Priority,
    status: string,
    roi: real)

  function InitialOpportunities(): seq<Opportunity>
  {
    [ Opportunity("ESO_001", "Grinding Circuit Optimization", Comminution,
                  2500.0, 375.0, 28125.0, 150000.0, 5.3, 187.5, High, Analyzing, 18.8),
      Opportunity("ESO_002", "Ventilation on Demand (VOD) System", Ventilation,
                  1800.0, 720.0, 54000.0, 200000.0, 3.7, 360.0, Critical, Implementing, 27.0),
      Opportunity("ESO_003", "Conveyor Belt Speed Optimization", MaterialsHandling,
                  800.0, 160.0, 12000.0, 75000.0, 6.25, 80.0, Medium, Identified, 16.0),
      Opportunity("ESO_004", "Waste Heat Recovery from Kilns", WasteHeatRecovery,
                  1200.0, 300.0, 22500.0, 120000.0, 5.33, 150.0, Medium, Identified, 18.75),
      Opportunity("ESO_005", "AI-Powered Process Optimization", DigitalOptimization,
                  3500.0, 525.0, 39375.0, 180000.0, 4.57, 262.5, High, Analyzing, 21.9),
      Opportunity("ESO_006", "High-Efficiency Motor Retrofits", EquipmentEfficiency,
                  1500.0, 105.0, 7875.0, 85000.0, 10.79, 52.5, Low, OnHold, 9.26),
      Opportunity("ESO_007", "Solar-Powered Auxiliary Systems", RenewableIntegration,
                  600.0, 420.0, 31500.0, 180000.0, 5.71, 210.0, Medium, Identified, 17.5),
      Opportunity("ESO_008", "Compressed Air System Optimization", EquipmentEfficiency,
                  450.0, 135.0, 10125.0, 45000.0, 4.44, 67.5, High, Implementing, 22.5) ]
  }

  // ---------------------------------------------------------------------------
  // Filter and sort
  // ---------------------------------------------------------------------------

  /** Each filter set to "All" lets everything through; otherwise the field must equal it. */
  predicate MatchesFilters(o: Opportunity, category: string, status: string, priority: string)
  {
    (category == "All" || o.category == category)
    && (status == "All" || o.status == status)
    && (priority == "All" || PriorityName(o.priority) == priority)
  }

  function Filtered(opps: seq<Opportunity>, category: string, status: string, priority: string): (r: seq<Opportunity>)
    ensures IsSubsequence(r, opps)
    ensures forall i :: 0 <= i < |r| ==> MatchesFilters(r[i], category, status, priority)
  {
    var p := (o: Opportunity) => MatchesFilters(o, category, status, priority);
    FilterIsSubsequence(opps, p);
    Filter(opps, p)
  }

  /** The comparator `(a, b) => key(b) - key(a)` of each sort option as a descending key;
      `payback` sorts ascending, so its key is the negated period, and any other option
      compares everything equal. */
  function SortKey(sortBy: string): Opportunity -> real
  {
    if sortBy == "roi" then (o: Opportunity) => o.roi
    else if sortBy == "savings" then (o: Opportunity) => o.projectedSavings
    else if sortBy == "payback" then (o: Opportunity) => -o.paybackPeriod
    else if sortBy == "co2" then (o: Opportunity) => o.co2Reduction
    else (o: Opportunity) => 0.0
  }

  /** `filteredOpportunities`: the matching opportunities, stably sorted by the chosen key. */
  function FilteredOpportunities(opps: seq<Opportunity>, category: string, status: string, priority: string,
                                 sortBy: string): (r: seq<Opportunity>)
    ensures multiset(r) == multiset(Filtered(opps, category, status, priority))
    ensures multiset(r) <= multiset(opps)
    ensures forall i :: 0 <= i < |r| ==> MatchesFilters(r[i], category, status, priority)
    ensures SortedDesc(r, SortKey(sortBy))
  {
    var f := Filtered(opps, category, status, priority);
    var r := SortDesc(f, SortKey(sortBy));
    forall i | 0 <= i < |r|
      ensures MatchesFilters(r[i], category, status, priority)
    {
      assert r[i] in multiset(f);
    }
    r
  }

  /** The list holds exactly the matching opportunities. */
  lemma FilteredOpportunitiesMembers(opps: seq<Opportunity>, category: string, status: string, priority: string,
                                     sortBy: string, o: Opportunity)
    ensures o in FilteredOpportunities(opps, category, status, priority, sortBy)
      <==> o in opps && MatchesFilters(o, category, status, priority)
  {
    var r := FilteredOpportunities(opps, category, status, priority, sortBy);
    FilterMembers(opps, (x: Opportunity) => MatchesFilters(x, category, status, priority), o);
    assert o in r <==> o in multiset(r);
  }

  /** With every filter at "All" the list is a reordering of all opportunities. */
  lemma AllFiltersKeepEverything(opps: seq<Opportunity>, sortBy: string)
    ensures multiset(FilteredOpportunities(opps, "All", "All", "All", sortBy)) == multiset(opps)
  {
    FilterAll(opps, (x: Opportunity) => MatchesFilters(x, "All", "All", "All"));
  }

  lemma SortByRoi(opps: seq<Opportunity>, category: string, status: string, priority: string)
    ensures var r := FilteredOpportunities(opps, category, status, priority, "roi");
      forall i, j :: 0 <= i < j < |r| ==> r[i].roi >= r[j].roi
  {
    var r := FilteredOpportunities(opps, category, status, priority, "roi");
    forall i, j | 0 <= i < j < |r| ensures r[i].roi >= r[j].roi {
      assert SortKey("roi")(r[i]) >= SortKey("roi")(r[j]);
    }
  }

  lemma SortBySavings(opps: seq<Opportunity>, category: string, status: string, priority: string)
    ensures var r := FilteredOpportunities(opps, category, status, priority, "savings");
      forall i, j :: 0 <= i < j < |r| ==> r[i].projectedSavings >= r[j].projectedSavings
  {
    var r := FilteredOpportunities(opps, category, status, priority, "savings");
    forall i, j | 0 <= i < j < |r| ensures r[i].projectedSavings >= r[j].projectedSavings {
      assert SortKey("savings")(r[i]) >= SortKey("savings")(r[j]);
    }
  }

  /** The payback option is the one ascending order: shortest payback first. */
  lemma SortByPayback(opps: seq<Opportunity>, category: string, status: string, priority: string)
    ensures var r := FilteredOpportunities(opps, category, status, priority, "payback");
      forall i, j :: 0 <= i < j < |r| ==> r[i].paybackPeriod <= r[j].paybackPeriod
  {
    var r := FilteredOpportunities(opps, category, status, priority, "payback");
    forall i, j | 0 <= i < j < |r| ensures r[i].paybackPeriod <= r[j].paybackPeriod {
      assert SortKey("payback")(r[i]) >= SortKey("payback")(r[j]);
    }
  }

  lemma SortByCo2(opps: seq<Opportunity>, category: string, status: string, priority: string)
    ensures var r := FilteredOpportunities(opps, category, status, priority, "co2");
      forall i, j :: 0 <= i < j < |r| ==> r[i].co2Reduction >= r[j].co2Reduction
  {
    var r := FilteredOpportunities(opps, category, status, priority, "co2");
    forall i, j | 0 <= i < j < |r| ensures r[i].co2Reduction >= r[j].co2Reduction {
      assert SortKey("co2")(r[i]) >= SortKey("co2")(r[j]);
    }
  }

  /** Any other sort option compares every pair equal, and the stable sort keeps the filtered order. */
  lemma UnknownSortKeepsOrder(opps: seq<Opportunity>, category: string, status: string, priority: string,
                              sortBy: string)
    requires sortBy !in {"roi", "savings", "payback", "co2"}
    ensures FilteredOpportunities(opps, category, status, priority, sortBy)
         == Filtered(opps, category, status, priority)
  {
    SortDescConstantKey(Filtered(opps, category, status, priority), SortKey(sortBy), 0.0);
  }

  /** The filter summary's total: the savings over the sorted list equal those over the
      matching opportunities in their original order. */
  function SummaryTotal(shown: seq<Opportunity>): real
  {
    Sum(shown, (o: Opportunity) => o.projectedSavings)
  }

  lemma SummaryTotalOfFiltered(opps: seq<Opportunity>, category: string, status: string, priority: string,
                               sortBy: string)
    ensures SummaryTotal(FilteredOpportunities(opps, category, status, priority, sortBy))
         == SummaryTotal(Filtered(opps, category, status, priority))
  {
    SumSortDesc(Filtered(opps, category, status, priority), SortKey(sortBy), (o: Opportunity) => o.projectedSavings);
  }

  /** With non-negative savings the total of any filtered view is at most the total over all. */
  lemma SummaryTotalBounded(opps: seq<Opportunity>, category: string, status: string, priority: string,
                            sortBy: string)
    requires forall i :: 0 <= i < |opps| ==> opps[i].projectedSavings >= 0.0
    ensures 0.0 <= SummaryTotal(FilteredOpportunities(opps, category, status, priority, sortBy)) <= SummaryTotal(opps)
  {
    SummaryTotalOfFiltered(opps, category, status, priority, sortBy);
    SubsequenceSum(Filtered(opps, category, status, priority), opps);
  }

  lemma {:induction false} SubsequenceSum(a: seq<Opportunity>, b: seq<Opportunity>)
    requires IsSubsequence(a, b)
    requires forall i :: 0 <= i < |b| ==> b[i].projectedSavings >= 0.0
    ensures 0.0 <= SummaryTotal(a) <= SummaryTotal(b)
    decreases |b|
  {
    if a == [] {
      SumNonNegative(b, (o: Opportunity) => o.projectedSavings);
    } else if a[0] == b[0] && IsSubsequence(a[1..], b[1..]) {
      SubsequenceSum(a[1..], b[1..]);
    } else {
      SubsequenceSum(a, b[1..]);
    }
  }

  // ---------------------------------------------------------------------------
  // Implementation roadmap
  // ---------------------------------------------------------------------------

  function Roadmap(opps: seq<Opportunity>): (r: seq<Opportunity>)
    ensures multiset(r) <= multiset(opps)
    ensures forall i :: 0 <= i < |r| ==> r[i].status != Completed
    ensures forall i, j :: 0 <= i < j < |r| ==> PriorityRank(r[i].priority) >= PriorityRank(r[j].priority)
  {
    var open := Filter(opps, (o: Opportunity) => o.status != Completed);
    var r := SortDesc(open, (o: Opportunity) => PriorityRank(o.priority));
    forall i | 0 <= i < |r|
      ensures r[i].status != Completed
    {
      assert r[i] in multiset(open);
    }
    r
  }

  /** The roadmap lists exactly the opportunities that are not completed. */
  lemma RoadmapMembers(opps: seq<Opportunity>, o: Opportunity)
    ensures o in Roadmap(opps) <==> o in opps && o.status != Completed
  {
    var open := Filter(opps, (x: Opportunity) => x.status != Completed);
    FilterMembers(opps, (x: Opportunity) => x.status != Completed, o);
    assert o in Roadmap(opps) <==> o in multiset(open);
  }

  /** Critical items come before every lower priority, and within one priority the list order stays. */
  lemma RoadmapStable(opps: seq<Opportunity>, p: Priority)
    ensures WithKey(Roadmap(opps), (o: Opportunity) => PriorityRank(o.priority), PriorityRank(p))
         == WithKey(Filter(opps, (o: Opportunity) => o.status != Completed),
                    (o: Opportunity) => PriorityRank(o.priority), PriorityRank(p))
  {
    SortDescStable(Filter(opps, (o: Opportunity) => o.status != Completed),
                   (o: Opportunity) => PriorityRank(o.priority), PriorityRank(p));
  }

  // ---------------------------------------------------------------------------
  // The detail view and its notices
  // ---------------------------------------------------------------------------

  const NoticeCap: nat := 5

  datatype Decision = Approve | RequestAnalysis | Defer

  function DecisionNotice(d: Decision, title: string, id: int): (n: Notice)
    ensures n.id == id
    ensures n.kind == (match d case Approve => "success" case RequestAnalysis => "info" case Defer => "warning")
    ensures |title| <= |n.message| && n.message[|n.message| - |title|..] == title
  {
    match d
    case Approve => Notice(id, "Approved implementation for: " + title, "success")
    case RequestAnalysis => Notice(id, "Analysis requested for: " + title, "info")
    case Defer => Notice(id, "Deferred implementation: " + title, "warning")
  }

  class OpportunityBoard {
    var selected: Option<Opportunity>
    var showDetailModal: bool
    var notifications: seq<Notice>

    /** At most five notices; the modal is only shown with a selection. */
    ghost predicate Valid()
      reads this
    {
      |notifications| <= NoticeCap && (showDetailModal ==> selected.Some?)
    }

    constructor ()
      ensures Valid()
      ensures selected == None && !showDetailModal && notifications == []
    {
      selected := None;
      showDetailModal := false;
      notifications := [];
    }

    /** `addNotification`: newest first, at most five. */
    method AddNotification(n: Notice)
      requires Valid()
      modifies this`notifications
      ensures Valid()
      ensures notifications == PushNewest(old(notifications), n, NoticeCap)
    {
      notifications := PushNewest(notifications, n, NoticeCap);
    }

    /** Clicking a card selects it and opens the detail view. */
    method OpenDetail(o: Opportunity)
      requires Valid()
      modifies this`selected, this`showDetailModal
      ensures Valid()
      ensures selected == Some(o) && showDetailModal
    {
      selected := Some(o);
      showDetailModal := true;
    }

    /** The overlay and the close button hide the view; the selection stays. */
    method CloseDetail()
      requires Valid()
      modifies this`showDetailModal
      ensures Valid()
      ensures !showDetailModal
    {
      showDetailModal := false;
    }

    /** One of the three buttons, which exist only while the view shows a selection. */
    method Decide(d: Decision, noticeId: int)
      requires Valid() && showDetailModal
      modifies this`notifications, this`showDetailModal
      ensures Valid()
      ensures notifications == PushNewest(old(notifications), DecisionNotice(d, selected.value.title, noticeId), NoticeCap)
      ensures !showDetailModal
    {
      AddNotification(DecisionNotice(d, selected.value.title, noticeId));
      showDetailModal := false;
    }
  }
}
