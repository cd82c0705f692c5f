/** The four-step order wizard of `components/forms/DeepDiveReportForm.tsx`:
    artist, report type, time range and options, review. The price is the
    report type's price plus the time range's surcharge. */
module DeepDiveReportForm {
  import opened Common

  /** A priced option of a table: a report type or a time range. */
  datatype PricedOption = PricedOption(id: string, name: string, price: int)

  const ReportTypes: seq<PricedOption> := [
    PricedOption("comprehensive", "Comprehensive Report", 50000),
    PricedOption("aehi", "AEHI Deep Dive", 25000),
    PricedOption("lds", "Campus Analysis", 30000),
    PricedOption("aei", "Global Export Analysis", 35000)
  ]

  const TimeRanges: seq<PricedOption> := [
    PricedOption("30d", "30 Days", 0),
    PricedOption("90d", "90 Days", 0),
    PricedOption("1y", "1 Year", 10000),
    PricedOption("all", "All Time", 20000)
  ]

  const ReportTypeIds: seq<string> := ["comprehensive", "aehi", "lds", "aei"]
  const TimeRangeIds: seq<string> := ["30d", "90d", "1y", "all"]

  datatype ReportData = ReportData(
    artistId: string,
    reportType: string,
    timeRange: string,
    includeCompetitors: bool,
    includePredictions: bool,
    includeRecommendations: bool,
    format: string,
    deliveryMethod: string)

  const InitialData := ReportData("", "comprehensive", "90d", true, true, true, "pdf", "email")

  /** `table.find(o => o.id === id)?.price || 0`: the price of the first
      option with the id, or 0 when there is none. */
  function PriceOf(table: seq<PricedOption>, id: string): (r: int)
    ensures (forall i :: 0 <= i < |table| ==> table[i].id != id) ==> r == 0
    ensures forall k :: (0 <= k < |table| && table[k].id == id
                         && forall j :: 0 <= j < k ==> table[j].id != id) ==> r == table[k].price
  {
    if table == [] then 0
    else if table[0].id == id then table[0].price
    else
      var r := PriceOf(table[1..], id);
      assert forall k :: 1 <= k < |table| ==> table[k] == table[1..][k - 1];
      r
  }

  /** `calculateTotalCost`. */
  function TotalCost(d: ReportData): int {
    PriceOf(ReportTypes, d.reportType) + PriceOf(TimeRanges, d.timeRange)
  }

  /** The price of each offered report type and time range. */
  lemma TablePrices()
    ensures PriceOf(ReportTypes, "comprehensive") == 50000 && PriceOf(ReportTypes, "aehi") == 25000
    ensures PriceOf(ReportTypes, "lds") == 30000 && PriceOf(ReportTypes, "aei") == 35000
    ensures PriceOf(TimeRanges, "30d") == 0 && PriceOf(TimeRanges, "90d") == 0
    ensures PriceOf(TimeRanges, "1y") == 10000 && PriceOf(TimeRanges, "all") == 20000
  {
    assert ReportTypes[0].id == "comprehensive";
    assert ReportTypes[1].id == "aehi" && "aehi" != "comprehensive";
    assert "lds" != "comprehensive" && "lds" != "aehi";
    assert ReportTypes[2].id == "lds";
    assert "aei"[2] != "aehi"[2];
    assert "aei" != "comprehensive" && "aei" != "lds";
    assert ReportTypes[3].id == "aei";
    assert TimeRanges[0].id == "30d" && TimeRanges[1].id == "90d";
    assert "90d"[0] != "30d"[0];
    assert "1y" != "30d" && "1y" != "90d" && TimeRanges[2].id == "1y";
    assert "all" != "30d" && "all"[0] != "90d"[0] && "all" != "1y";
    assert TimeRanges[3].id == "all";
  }

  /** The opening configuration (comprehensive, 90 days) costs 50000. */
  lemma DefaultCost()
    ensures TotalCost(InitialData) == 50000
  {
    TablePrices();
  }

  /** An offered report type costs from 25000 to 50000. */
  lemma OfferedReportTypePrice(t: string)
    requires t in ReportTypeIds
    ensures 25000 <= PriceOf(ReportTypes, t) <= 50000
  {
    TablePrices();
    assert t == "comprehensive" || t == "aehi" || t == "lds" || t == "aei";
  }

  /** An offered time range adds from 0 to 20000, and the two short ranges
      add nothing. */
  lemma OfferedTimeRangePrice(t: string)
    requires t in TimeRangeIds
    ensures 0 <= PriceOf(TimeRanges, t) <= 20000
    ensures t == "30d" || t == "90d" ==> PriceOf(TimeRanges, t) == 0
  {
    TablePrices();
    assert t == "30d" || t == "90d" || t == "1y" || t == "all";
  }

  /** Over the offered options the cost runs from 25000 (AEHI deep dive, 30
      or 90 days) to 70000 (comprehensive, all time); the two short ranges
      add nothing. */
  lemma OfferedCostRange(d: ReportData)
    requires d.reportType in ReportTypeIds && d.timeRange in TimeRangeIds
    ensures 25000 <= TotalCost(d) <= 70000
    ensures d.timeRange == "30d" || d.timeRange == "90d" ==>
              TotalCost(d) == PriceOf(ReportTypes, d.reportType)
    ensures TotalCost(d.(reportType := "aehi", timeRange := "30d")) == 25000
    ensures TotalCost(d.(reportType := "comprehensive", timeRange := "all")) == 70000
  {
    OfferedReportTypePrice(d.reportType);
    OfferedTimeRangePrice(d.timeRange);
    TablePrices();
  }

  /** A report type or time range not in its table adds nothing. */
  lemma UnknownOptionCostsNothing(d: ReportData)
    ensures d.reportType !in ReportTypeIds ==> TotalCost(d) == PriceOf(TimeRanges, d.timeRange)
    ensures d.timeRange !in TimeRangeIds ==> TotalCost(d) == PriceOf(ReportTypes, d.reportType)
  {
    forall i | 0 <= i < |ReportTypes| ensures ReportTypes[i].id == ReportTypeIds[i] { }
    forall i | 0 <= i < |TimeRanges| ensures TimeRanges[i].id == TimeRangeIds[i] { }
  }

  /** One `handleInputChange(field, value)` call. */
  datatype ReportChange =
    | SetArtistId(artistId: string)
    | SetReportType(reportType: string)
    | SetTimeRange(timeRange: string)
    | SetIncludeCompetitors(includeCompetitors: bool)
    | SetIncludePredictions(includePredictions: bool)
    | SetIncludeRecommendations(includeRecommendations: bool)
    | SetFormat(format: string)
    | SetDeliveryMethod(deliveryMethod: string)

  /** `{ ...prev, [field]: value }`. */
  function ApplyChange(d: ReportData, c: ReportChange): ReportData {
    match c
    case SetArtistId(v) => d.(artistId := v)
    case SetReportType(v) => d.(reportType := v)
    case SetTimeRange(v) => d.(timeRange := v)
    case SetIncludeCompetitors(v) => d.(includeCompetitors := v)
    case SetIncludePredictions(v) => d.(includePredictions := v)
    case SetIncludeRecommendations(v) => d.(includeRecommendations := v)
    case SetFormat(v) => d.(format := v)
    case SetDeliveryMethod(v) => d.(deliveryMethod := v)
  }

  /** A change sets its own field and leaves the other seven as they were. */
  lemma ChangeTouchesOneField(d: ReportData, c: ReportChange)
    ensures ApplyChange(d, c).artistId == if c.SetArtistId? then c.artistId else d.artistId
    ensures ApplyChange(d, c).reportType == if c.SetReportType? then c.reportType else d.reportType
    ensures ApplyChange(d, c).timeRange == if c.SetTimeRange? then c.timeRange else d.timeRange
    ensures ApplyChange(d, c).includeCompetitors ==
              if c.SetIncludeCompetitors? then c.includeCompetitors else d.includeCompetitors
    ensures ApplyChange(d, c).includePredictions ==
              if c.SetIncludePredictions? then c.includePredictions else d.includePredictions
    ensures ApplyChange(d, c).includeRecommendations ==
              if c.SetIncludeRecommendations? then c.includeRecommendations else d.includeRecommendations
    ensures ApplyChange(d, c).format == if c.SetFormat? then c.format else d.format
    ensures ApplyChange(d, c).deliveryMethod == if c.SetDeliveryMethod? then c.deliveryMethod else d.deliveryMethod
  {
  }

  /** The artist, the three checkboxes, the format and the delivery method
      never change the price. */
  lemma OnlyTypeAndRangeCost(d: ReportData, c: ReportChange)
    requires !c.SetReportType? && !c.SetTimeRange?
    ensures TotalCost(ApplyChange(d, c)) == TotalCost(d)
  {
  }

  /** `canProceed`. */
  predicate CanProceed(step: int, d: ReportData) {
    if step == 1 then Trim(d.artistId) != []
    else if step == 2 then d.reportType != ""
    else if step == 3 then d.timeRange != ""
    else step == 4
  }

  /** Step 1 needs an artist that is more than white space, steps 2 and 3 a
      report type and a time range, step 4 nothing; no other step can
      proceed. */
  lemma CanProceedCorrect(step: int, d: ReportData)
    ensures step == 1 ==> (CanProceed(step, d) <==>
              exists i :: 0 <= i < |d.artistId| && !IsSpace(d.artistId[i]))
    ensures step == 2 ==> (CanProceed(step, d) <==> d.reportType != [])
    ensures step == 3 ==> (CanProceed(step, d) <==> d.timeRange != [])
    ensures step == 4 ==> CanProceed(step, d)
    ensures !(1 <= step <= 4) ==> !CanProceed(step, d)
  {
    TrimNonEmptyIff(d.artistId);
  }

  /** The record passed to `onComplete`. */
  datatype ReportOrder = ReportOrder(data: ReportData, totalCost: int, id: string, createdAt: string)

  class Wizard {
    var step: int
    var formData: ReportData

    /** The step is 1 to 4, and the report type and time range are among the
        offered options (the only values their buttons pass). */
    predicate Valid()
      reads this
    {
      1 <= step <= 4 && formData.reportType in ReportTypeIds && formData.timeRange in TimeRangeIds
    }

    constructor ()
      ensures Valid()
      ensures step == 1 && formData == InitialData
    {
      step := 1;
      formData := InitialData;
    }

    /** `handleInputChange`: the report-type and time-range buttons pass an
        id of their table. */
    method HandleInputChange(c: ReportChange)
      requires Valid()
      requires c.SetReportType? ==> c.reportType in ReportTypeIds
      requires c.SetTimeRange? ==> c.timeRange in TimeRangeIds
      modifies this
      ensures Valid()
      ensures step == old(step) && formData == ApplyChange(old(formData), c)
    {
      formData := ApplyChange(formData, c);
    }

    /** The Next / Order Report button: disabled when the step cannot
        proceed, advances before step 4, and at step 4 emits the order with
        its price. */
    method Next(id: string, createdAt: string) returns (emitted: Option<ReportOrder>)
      requires Valid()
      modifies this
      ensures Valid()
      ensures formData == old(formData)
      ensures !CanProceed(old(step), formData) ==> step == old(step) && emitted.None?
      ensures CanProceed(old(step), formData) && old(step) < 4 ==> step == old(step) + 1 && emitted.None?
      ensures old(step) == 4 ==> step == 4 && emitted == Some(ReportOrder(formData, TotalCost(formData), id, createdAt))
      ensures emitted.Some? ==> 25000 <= emitted.value.totalCost <= 70000
    {
      emitted := None;
      if !CanProceed(step, formData) {
        return;
      }
      if step < 4 {
        step := step + 1;
      } else {
        OfferedCostRange(formData);
        emitted := Some(ReportOrder(formData, TotalCost(formData), id, createdAt));
      }
    }

    /** The Back / Cancel button. */
    method Back() returns (cancelled: bool)
      requires Valid()
      modifies this
      ensures Valid()
      ensures formData == old(formData)
      ensures old(step) > 1 ==> step == old(step) - 1 && !cancelled
      ensures old(step) == 1 ==> step == 1 && cancelled
    {
      if step > 1 {
        step := step - 1;
        cancelled := false;
      } else {
        cancelled := true;
      }
    }
  }
}
