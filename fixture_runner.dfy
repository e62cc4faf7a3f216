/**
 * The batch route comparison: for every fixture file, build a routing
 * request from the fixture, send it to the routing service, extract and
 * simplify both shapes, and compare the two trip summaries. The walk stops at
 * the first fixture that fails.
 *
 * Code this model cannot see is passed in as functions (`Collaborators`):
 * the HTTP exchange, the polyline decoder, the curve simplifier, the shape
 * comparison and the JSON validity test that `json.Marshal` applies to the
 * raw costing payload. Nothing is assumed about them.
 */
module FixtureRunner {
  import opened Outcomes
  import opened GoLibrary
  import opened RouteApi
  import opened RouteSummary

  const MotorcycleCosting: string := "motorcycle"
  const AutoCosting: string := "auto"
  /** `date_time.type` 1: the value is the departure time. */
  const DepartAtDateTimeType: int := 1
  const SimplifyTolerance: real := 0.0005
  const FixtureExtension: string := ".json"

  /** The request inputs read from a fixture (assertTestInputData). */
  datatype AssertTestInputData = AssertTestInputData(
    departAt: string,
    originLat: real,
    originLon: real,
    destinationLat: real,
    destinationLon: real,
    costingMethod: string)

  /** Failures of the HTTP exchange, in the order the source meets them. */
  datatype TransportFailure =
    | RequestCreationFailed
    | RequestFailed
    | ResponseReadFailed

  datatype Exchange = Delivered(response: RouteDocument) | Undelivered(failure: TransportFailure)

  datatype Collaborators = Collaborators(
    rawJsonValid: string -> bool,
    post: RouteRequest -> Exchange,
    decodeCoords: string -> Option<seq<Coord>>,
    simplify: (seq<Coord>, real, bool) -> seq<Coord>,
    compareSlices: (seq<Coord>, seq<Coord>) -> bool)

  datatype ShapeError = EmptyShape | DecodeFailed

  /** Why one fixture failed. The shape failures do not carry the decoder's error. */
  datatype FixtureError =
    | MarshalFailed
    | Transport(failure: TransportFailure)
    | GotShapeFailed
    | ExpectedShapeFailed
    | SummaryFailed(reason: SummaryError)

  // ---------------------------------------------------------------------
  // Fixture to request
  // ---------------------------------------------------------------------

  /** The costing profile for a fixture's first-maneuver travel type. */
  function CostingFor(travelType: string): string
  {
    if travelType == MotorcycleCosting then MotorcycleCosting else AutoCosting
  }

  /** Specification of composeAssertTestInputData. */
  function Composed(fixture: RouteDocument): AssertTestInputData
  {
    AssertTestInputData(
      fixture.departAt,
      fixture.originLat, fixture.originLon,
      fixture.destinationLat, fixture.destinationLon,
      CostingFor(fixture.travelType))
  }

  /**
   * composeAssertTestInputData: fills a zero-valued record field by field,
   * then replaces any costing other than "motorcycle" by "auto". It never
   * reports an error.
   */
  method ComposeAssertTestInputData(fixture: RouteDocument) returns (d: AssertTestInputData, err: Option<string>)
    ensures err == None
    ensures d == Composed(fixture)
  {
    d := AssertTestInputData("", 0.0, 0.0, 0.0, 0.0, "");
    d := d.(departAt := fixture.departAt);
    d := d.(originLat := fixture.originLat);
    d := d.(originLon := fixture.originLon);
    d := d.(destinationLat := fixture.destinationLat);
    d := d.(destinationLon := fixture.destinationLon);
    d := d.(costingMethod := fixture.travelType);
    if d.costingMethod != MotorcycleCosting {
      d := d.(costingMethod := AutoCosting);
    }
    err := None;
  }

  /** Specification of the request built by assertData. */
  function RequestFor(d: AssertTestInputData, costingJson: string): RouteRequest
  {
    RouteRequest(
      [Location(d.originLat, d.originLon, "", "", 0),
       Location(d.destinationLat, d.destinationLon, "", "", 0)],
      d.costingMethod,
      CostingOptions(if d.costingMethod == MotorcycleCosting then costingJson else ""),
      DateTimeOptions(DepartAtDateTimeType, d.departAt))
  }

  /**
   * The request literal of assertData, whose motorcycle costing options are
   * then filled in when the costing is "motorcycle".
   */
  method BuildRouteRequest(d: AssertTestInputData, costingJson: string) returns (vr: RouteRequest)
    ensures vr == RequestFor(d, costingJson)
  {
    vr := RouteRequest(
      [Location(d.originLat, d.originLon, "", "", 0),
       Location(d.destinationLat, d.destinationLon, "", "", 0)],
      d.costingMethod,
      CostingOptions(""),
      DateTimeOptions(DepartAtDateTimeType, d.departAt));
    if vr.costing == MotorcycleCosting {
      vr := vr.(costingOptions := vr.costingOptions.(motorcycle := costingJson));
    }
  }

  /**
   * The request sent for a fixture: origin then destination, the departure
   * time with type 1, costing "motorcycle" exactly for a motorcycle fixture
   * and "auto" for every other, and the costing payload attached exactly for
   * motorcycle.
   */
  lemma RequestForFixture(fixture: RouteDocument, costingJson: string)
    ensures var vr := RequestFor(Composed(fixture), costingJson);
      && |vr.locations| == 2
      && vr.locations[0].lat == fixture.originLat && vr.locations[0].lon == fixture.originLon
      && vr.locations[1].lat == fixture.destinationLat && vr.locations[1].lon == fixture.destinationLon
      && vr.dateTime == DateTimeOptions(1, fixture.departAt)
      && (vr.costing == "motorcycle" || vr.costing == "auto")
      && (vr.costing == "motorcycle" <==> fixture.travelType == "motorcycle")
      && vr.costingOptions.motorcycle == (if fixture.travelType == "motorcycle" then costingJson else "")
  {
  }

  /**
   * `json.Marshal` validates a non-empty raw payload and omits an empty one.
   * It also refuses non-finite floats; coordinates here are real numbers, so
   * the only failure left is a non-empty payload that is not valid JSON.
   */
  predicate Marshals(vr: RouteRequest, lib: Collaborators)
  {
    vr.costingOptions.motorcycle == "" || lib.rawJsonValid(vr.costingOptions.motorcycle)
  }

  // ---------------------------------------------------------------------
  // Shapes
  // ---------------------------------------------------------------------

  /**
   * extractSimplifiedPolylineCoordsFromJSON: an empty shape is an error and
   * is never decoded; otherwise decode, then simplify with tolerance 0.0005
   * in high-quality mode.
   */
  function ExtractSimplifiedShape(shape: string, lib: Collaborators): Result<seq<Coord>, ShapeError>
  {
    if |shape| == 0 then Err(EmptyShape)
    else match lib.decodeCoords(shape)
      case None => Err(DecodeFailed)
      case Some(coords) => Ok(lib.simplify(coords, SimplifyTolerance, true))
  }

  /**
   * The empty shape fails whatever the decoder and simplifier are, so neither
   * is consulted; a non-empty shape fails exactly when it does not decode.
   */
  lemma EmptyShapeGuard(shape: string, lib: Collaborators, other: Collaborators)
    ensures |shape| == 0 ==>
              ExtractSimplifiedShape(shape, lib) == ExtractSimplifiedShape(shape, other) == Err(EmptyShape)
    ensures |shape| > 0 ==>
              (ExtractSimplifiedShape(shape, lib).Err? <==> lib.decodeCoords(shape).None?)
  {
  }

  // ---------------------------------------------------------------------
  // One fixture
  // ---------------------------------------------------------------------

  /**
   * Specification of assertData: request, then the response's shape, then
   * the fixture's shape, then the summaries (response as got, fixture as
   * expected). The shape comparison is computed but does not decide anything.
   */
  function AssertDataOutcome(fixture: RouteDocument, costingJson: string, lib: Collaborators): Outcome<FixtureError>
  {
    var vr := RequestFor(Composed(fixture), costingJson);
    if !Marshals(vr, lib) then Fail(MarshalFailed)
    else match lib.post(vr)
      case Undelivered(f) => Fail(Transport(f))
      case Delivered(response) =>
        match ExtractSimplifiedShape(response.shape, lib)
        case Err(_) => Fail(GotShapeFailed)
        case Ok(gotShape) =>
          match ExtractSimplifiedShape(fixture.shape, lib)
          case Err(_) => Fail(ExpectedShapeFailed)
          case Ok(expectedShape) =>
            match CompareBasicSummary(response.summary, fixture.summary)
            case Fail(e) => Fail(SummaryFailed(e))
            case Pass => Pass
  }

  /** assertData: the same steps with early returns. */
  method AssertData(fixture: RouteDocument, costingJson: string, lib: Collaborators) returns (r: Outcome<FixtureError>)
    ensures r == AssertDataOutcome(fixture, costingJson, lib)
  {
    var d, _ := ComposeAssertTestInputData(fixture);
    var vr := BuildRouteRequest(d, costingJson);
    if !Marshals(vr, lib) {
      return Fail(MarshalFailed);
    }
    var exchange := lib.post(vr);
    if exchange.Undelivered? {
      return Fail(Transport(exchange.failure));
    }
    var response := exchange.response;
    var gotShape := ExtractSimplifiedShape(response.shape, lib);
    if gotShape.Err? {
      return Fail(GotShapeFailed);
    }
    var expectedShape := ExtractSimplifiedShape(fixture.shape, lib);
    if expectedShape.Err? {
      return Fail(ExpectedShapeFailed);
    }
    var summary := CompareBasicSummary(response.summary, fixture.summary);
    if summary.Fail? {
      return Fail(SummaryFailed(summary.error));
    }
    if lib.compareSlices(gotShape.value, expectedShape.value) {
      return Pass;
    }
    return Pass;
  }

  /**
   * A fixture passes exactly when the request is sent and answered, both
   * shapes are non-empty and decode, and the summaries match.
   */
  lemma FixturePassesIff(fixture: RouteDocument, costingJson: string, lib: Collaborators)
    ensures var vr := RequestFor(Composed(fixture), costingJson);
      AssertDataOutcome(fixture, costingJson, lib) == Pass
      <==> (&& Marshals(vr, lib)
            && lib.post(vr).Delivered?
            && |lib.post(vr).response.shape| > 0
            && lib.decodeCoords(lib.post(vr).response.shape).Some?
            && |fixture.shape| > 0
            && lib.decodeCoords(fixture.shape).Some?
            && CompareBasicSummary(lib.post(vr).response.summary, fixture.summary) == Pass)
  {
  }

  /**
   * Failures are reported in a fixed order: a response shape that cannot be
   * extracted hides a bad fixture shape and any summary mismatch, and a bad
   * fixture shape hides any summary mismatch.
   */
  lemma FailureOrder(fixture: RouteDocument, costingJson: string, lib: Collaborators)
    requires var vr := RequestFor(Composed(fixture), costingJson);
      Marshals(vr, lib) && lib.post(vr).Delivered?
    ensures var response := lib.post(RequestFor(Composed(fixture), costingJson)).response;
      && (ExtractSimplifiedShape(response.shape, lib).Err? ==>
            AssertDataOutcome(fixture, costingJson, lib) == Fail(GotShapeFailed))
      && (ExtractSimplifiedShape(response.shape, lib).Ok? && ExtractSimplifiedShape(fixture.shape, lib).Err? ==>
            AssertDataOutcome(fixture, costingJson, lib) == Fail(ExpectedShapeFailed))
      && (AssertDataOutcome(fixture, costingJson, lib).Fail? &&
          AssertDataOutcome(fixture, costingJson, lib).error.SummaryFailed? ==>
            |response.shape| > 0 && |fixture.shape| > 0)
  {
  }

  /** The shape comparison is advisory: the verdict is the same whatever it answers. */
  lemma ShapeComparisonIsAdvisory(fixture: RouteDocument, costingJson: string, lib: Collaborators,
                                  compare: (seq<Coord>, seq<Coord>) -> bool)
    ensures AssertDataOutcome(fixture, costingJson, lib.(compareSlices := compare))
            == AssertDataOutcome(fixture, costingJson, lib)
  {
  }

  /**
   * The costing payload matters only for motorcycle fixtures: for any other
   * fixture the verdict does not depend on it (and it is never sent).
   */
  lemma PayloadOnlyForMotorcycle(fixture: RouteDocument, json1: string, json2: string, lib: Collaborators)
    requires fixture.travelType != "motorcycle"
    ensures AssertDataOutcome(fixture, json1, lib) == AssertDataOutcome(fixture, json2, lib)
  {
    assert RequestFor(Composed(fixture), json1) == RequestFor(Composed(fixture), json2);
  }

  /** Marshalling fails exactly for a motorcycle fixture whose non-empty payload is not valid JSON. */
  lemma MarshalFailsIff(fixture: RouteDocument, costingJson: string, lib: Collaborators)
    ensures AssertDataOutcome(fixture, costingJson, lib) == Fail(MarshalFailed)
            <==> (fixture.travelType == "motorcycle" && costingJson != "" && !lib.rawJsonValid(costingJson))
  {
  }

  // ---------------------------------------------------------------------
  // The directory walk
  // ---------------------------------------------------------------------

  /** A path visited by the walk, with the fixture read from it (None: the read failed). */
  datatype WalkEntry = WalkEntry(path: string, contents: Option<RouteDocument>)

  datatype BatchError =
    | CostingUnreadable
    | FixtureUnreadable(path: string)
    | FixtureFailed(path: string, error: FixtureError)

  /** One printed result line: the path, then "OK" or the error. */
  datatype ReportLine = ReportLine(path: string, outcome: Outcome<FixtureError>)

  datatype WalkResult = WalkResult(outcome: Outcome<BatchError>, report: seq<ReportLine>)

  predicate IsFixturePath(path: string)
  {
    Ext(path) == FixtureExtension
  }

  /** The walk callback's verdict on one entry. */
  function Visit(entry: WalkEntry, costingJson: string, lib: Collaborators): Outcome<BatchError>
  {
    if !IsFixturePath(entry.path) then Pass
    else match entry.contents
      case None => Fail(FixtureUnreadable(entry.path))
      case Some(fixture) =>
        match AssertDataOutcome(fixture, costingJson, lib)
        case Fail(e) => Fail(FixtureFailed(entry.path, e))
        case Pass => Pass
  }

  /** Specification of the walk: visit the entries in order, stop at the first failure. */
  function Walk(entries: seq<WalkEntry>, costingJson: string, lib: Collaborators): WalkResult
    decreases |entries|
  {
    if |entries| == 0 then WalkResult(Pass, [])
    else
      var entry := entries[0];
      if !IsFixturePath(entry.path) then Walk(entries[1..], costingJson, lib)
      else match entry.contents
        case None => WalkResult(Fail(FixtureUnreadable(entry.path)), [])
        case Some(fixture) =>
          var o := AssertDataOutcome(fixture, costingJson, lib);
          if o.Fail? then WalkResult(Fail(FixtureFailed(entry.path, o.error)), [ReportLine(entry.path, o)])
          else
            var rest := Walk(entries[1..], costingJson, lib);
            WalkResult(rest.outcome, [ReportLine(entry.path, Pass)] + rest.report)
  }

  /** Specification of CompareBatchRoutes: the costing file is read before any fixture. */
  function CompareBatchRoutesResult(costingFile: Option<string>, entries: seq<WalkEntry>, lib: Collaborators): WalkResult
  {
    match costingFile
    case None => WalkResult(Fail(CostingUnreadable), [])
    case Some(costingJson) => Walk(entries, costingJson, lib)
  }

  /** Paths that do not end in ".json" are passed over. */
  lemma NonFixturePathsSkipped(entry: WalkEntry, costingJson: string, lib: Collaborators)
    ensures IsFixturePath(entry.path) <==> HasSuffix(entry.path, ".json")
    ensures !HasSuffix(entry.path, ".json") ==> Visit(entry, costingJson, lib) == Pass
  {
    ExtJsonIff(entry.path);
  }

  /** The walk succeeds exactly when every entry's visit succeeds. */
  lemma {:induction false} WalkPassesIff(entries: seq<WalkEntry>, costingJson: string, lib: Collaborators)
    ensures Walk(entries, costingJson, lib).outcome == Pass
            <==> forall i | 0 <= i < |entries| :: Visit(entries[i], costingJson, lib) == Pass
    decreases |entries|
  {
    if |entries| > 0 {
      WalkPassesIff(entries[1..], costingJson, lib);
      assert forall i | 1 <= i < |entries| :: entries[i] == entries[1..][i - 1];
    }
  }

  /** After an entry whose visit passes, the walk's outcome is that of the rest. */
  lemma WalkPastPassing(entries: seq<WalkEntry>, costingJson: string, lib: Collaborators)
    requires |entries| > 0 && Visit(entries[0], costingJson, lib) == Pass
    ensures Walk(entries, costingJson, lib).outcome == Walk(entries[1..], costingJson, lib).outcome
  {
  }

  /** When entry k is the first failing one, the walk reports exactly its failure. */
  lemma {:induction false} WalkStopsAtFirstFailure(entries: seq<WalkEntry>, costingJson: string, lib: Collaborators, k: nat)
    requires k < |entries|
    requires Visit(entries[k], costingJson, lib).Fail?
    requires forall j | 0 <= j < k :: Visit(entries[j], costingJson, lib) == Pass
    ensures Walk(entries, costingJson, lib).outcome == Visit(entries[k], costingJson, lib)
    decreases k
  {
    if k > 0 {
      var tail := entries[1..];
      forall j | 0 <= j < k - 1
        ensures Visit(tail[j], costingJson, lib) == Pass
      {
        assert tail[j] == entries[j + 1];
      }
      assert tail[k - 1] == entries[k];
      WalkStopsAtFirstFailure(tail, costingJson, lib, k - 1);
      WalkPastPassing(entries, costingJson, lib);
    }
  }

  /** Every reported line is for a path that ends in ".json". */
  predicate ReportsFixturesOnly(report: seq<ReportLine>)
  {
    forall i | 0 <= i < |report| :: HasSuffix(report[i].path, ".json")
  }

  /** The walk reports fixture paths only. */
  lemma {:induction false} WalkReportsFixturesOnly(entries: seq<WalkEntry>, costingJson: string, lib: Collaborators)
    ensures ReportsFixturesOnly(Walk(entries, costingJson, lib).report)
    decreases |entries|
  {
    if |entries| > 0 {
      var entry := entries[0];
      var rest := Walk(entries[1..], costingJson, lib);
      WalkReportsFixturesOnly(entries[1..], costingJson, lib);
      ExtJsonIff(entry.path);
      if IsFixturePath(entry.path) && entry.contents.Some? {
        var o := AssertDataOutcome(entry.contents.value, costingJson, lib);
        var w := Walk(entries, costingJson, lib);
        assert HasSuffix(entry.path, ".json");
        if o.Pass? {
          assert w.report == [ReportLine(entry.path, Pass)] + rest.report;
          forall i | 0 <= i < |w.report|
            ensures HasSuffix(w.report[i].path, ".json")
          {
            if i > 0 {
              assert w.report[i] == rest.report[i - 1];
            }
          }
        } else {
          assert w.report == [ReportLine(entry.path, o)];
        }
      }
    }
  }

  /** Every line of a report is OK except possibly the last. */
  predicate OkUntilLast(w: WalkResult)
  {
    && (forall i | 0 <= i < |w.report| - 1 :: w.report[i].outcome == Pass)
    && (w.outcome.Fail? && w.outcome.error.FixtureFailed? ==>
          |w.report| > 0 && w.report[|w.report| - 1] == ReportLine(w.outcome.error.path, Fail(w.outcome.error.error)))
    && (w.outcome == Pass ==> forall i | 0 <= i < |w.report| :: w.report[i].outcome == Pass)
  }

  /**
   * Every line but the last says OK: a failing fixture is the last one
   * reported, and a successful walk reports only OK lines.
   */
  lemma {:induction false} WalkReportsFailureLast(entries: seq<WalkEntry>, costingJson: string, lib: Collaborators)
    ensures OkUntilLast(Walk(entries, costingJson, lib))
    decreases |entries|
  {
    if |entries| > 0 {
      var entry := entries[0];
      var rest := Walk(entries[1..], costingJson, lib);
      WalkReportsFailureLast(entries[1..], costingJson, lib);
      if IsFixturePath(entry.path) && entry.contents.Some? {
        var o := AssertDataOutcome(entry.contents.value, costingJson, lib);
        if o.Pass? {
          var w := Walk(entries, costingJson, lib);
          assert w == WalkResult(rest.outcome, [ReportLine(entry.path, Pass)] + rest.report);
          assert forall i | 1 <= i < |w.report| :: w.report[i] == rest.report[i - 1];
        }
      }
    }
  }

  /** One step of the walk over the entries from position i on. */
  lemma WalkStep(entries: seq<WalkEntry>, i: nat, costingJson: string, lib: Collaborators)
    requires i < |entries|
    ensures var entry := entries[i];
      Walk(entries[i..], costingJson, lib) ==
        if !IsFixturePath(entry.path) then Walk(entries[i + 1..], costingJson, lib)
        else if entry.contents.None? then WalkResult(Fail(FixtureUnreadable(entry.path)), [])
        else
          var o := AssertDataOutcome(entry.contents.value, costingJson, lib);
          if o.Fail? then WalkResult(Fail(FixtureFailed(entry.path, o.error)), [ReportLine(entry.path, o)])
          else
            var rest := Walk(entries[i + 1..], costingJson, lib);
            WalkResult(rest.outcome, [ReportLine(entry.path, Pass)] + rest.report)
  {
    assert entries[i..][0] == entries[i];
    assert entries[i..][1..] == entries[i + 1..];
  }

  /**
   * CompareBatchRoutes: read the costing file, then walk the entries in
   * order, printing one line per fixture checked and returning the first
   * error.
   */
  method CompareBatchRoutes(costingFile: Option<string>, entries: seq<WalkEntry>, lib: Collaborators)
    returns (r: Outcome<BatchError>, report: seq<ReportLine>)
    ensures WalkResult(r, report) == CompareBatchRoutesResult(costingFile, entries, lib)
  {
    if costingFile.None? {
      return Fail(CostingUnreadable), [];
    }
    var costingJson := costingFile.value;
    report := [];
    var i := 0;
    while i < |entries|
      invariant 0 <= i <= |entries|
      invariant Walk(entries, costingJson, lib)
                == var rest := Walk(entries[i..], costingJson, lib); WalkResult(rest.outcome, report + rest.report)
    {
      var entry := entries[i];
      WalkStep(entries, i, costingJson, lib);
      if Ext(entry.path) != FixtureExtension {
        i := i + 1;
        continue;
      }
      if entry.contents.None? {
        return Fail(FixtureUnreadable(entry.path)), report;
      }
      var outcome := AssertData(entry.contents.value, costingJson, lib);
      var line := ReportLine(entry.path, outcome);
      if outcome.Fail? {
        return Fail(FixtureFailed(entry.path, outcome.error)), report + [line];
      }
      ghost var rest := Walk(entries[i + 1..], costingJson, lib);
      assert (report + [line]) + rest.report == report + ([line] + rest.report);
      report := report + [line];
      i := i + 1;
    }
    r := Pass;
  }
}
