# osm-utils route comparison and OSM object filter, in Dafny

This project models the decision rules of the `osm-utils` tool:

- **Route-summary validator** (`compareBasicSummary`). It compares the trip summary returned by the routing service with the one stored in a golden fixture. The toll, ferry and highway flags must be equal, in that order. The lengths must differ by at most 0.5 km. They must also differ by at most 5 percent of their mean. The first failing check is the reported error.
- **Fixture runner** (`CompareBatchRoutes`, `assertData`, `composeAssertTestInputData`, the shape guard of `extractSimplifiedPolylineCoordsFromJSON`). Only `.json` files are processed. For each fixture the runner:
  1. builds a request with origin then destination, departure date-time type 1, and costing `motorcycle` or `auto`; the raw motorcycle costing options are attached only for `motorcycle`;
  2. sends the request;
  3. extracts and simplifies the response's shape, then the fixture's shape;
  4. compares the summaries.

  The simplified shapes are compared, but the result is ignored. The walk stops at the first failing fixture.
- **OSM object filter** (`ExtractObject`, `isMatchTagValues`). Every requested ref must be a base-10 64-bit integer. Every tag spec must be `key=value` with exactly one `=`. An object is emitted when two conditions hold:
  - its id is requested, or no id is requested at all;
  - for every spec, the object's value for that key equals the spec's value.

Modules, one per source file or component:

| file | module | models |
|---|---|---|
| `outcomes.dfy` | `Outcomes` | `Option`, `Result`, `Outcome` (Go's `error` returns) |
| `go_library.dfy` | `GoLibrary` | `strconv.ParseInt(s, 10, 64)`, `strings.Split` on one character, `filepath.Ext` |
| `route_api.dfy` | `RouteApi` | request shapes of `pkg/api/valhalla/route.go`, and the fields read from a route document |
| `route_summary.dfy` | `RouteSummary` | `compareBasicSummary` |
| `fixture_runner.dfy` | `FixtureRunner` | `composeAssertTestInputData`, `assertData`, the shape guard, the walk callback |
| `extract_objects.dfy` | `ExtractObjects` | `ExtractObject`, `isMatchTagValues` |

The loops of the source are methods with loop invariants:
- the walk;
- building the id set;
- building the tag-filter list;
- the object scan.

The step-by-step record and request construction are also methods. Each method is proved equal to a specification function. The properties are proved about those functions as lemmas.

Code the model cannot see is passed in as function-valued parameters (`FixtureRunner.Collaborators`), and nothing is assumed about it. This covers:
- the HTTP exchange;
- the polyline decoder;
- the simplifier;
- `simplify.CompareSlices`;
- the JSON validity check that `json.Marshal` applies to a non-empty raw payload.

Behaviour of the code that is easy to misread:
- **106 km against 100 km** fails the absolute check (difference 6 > 0.5) before the relative check is reached, and is reported as `LengthDifferent` (`RouteSummary.LengthBoundaries`). The relative check can only fail when the mean length is under 10 km (`RouteSummary.RelativeLengthCheck`).
- **A shape mismatch never fails a fixture.** The simplified shapes are compared and the answer is ignored (`FixtureRunner.ShapeComparisonIsAdvisory`).
- **Only the first failure is reported.** Both the validator and the walk stop at the first failure. `RouteSummary.Mismatches` lists every failing criterion; it serves only as a reference definition, and the validator returns its first element.
- **A non-2xx response is not an error by itself.** Its body is read like any other response, and a body without a shape fails as `GotShapeFailed`.

## Model

| member | source | states |
|---|---|---|
| `RouteSummary.ReportsFirstMismatch` | internal/valhalla/compare_batch_routes.go:140-174 | the validator succeeds iff no criterion fails, and otherwise reports the first failing criterion in the order toll, ferry, highway, absolute length, relative length |
| `RouteSummary.FlagOrder` | internal/valhalla/compare_batch_routes.go:141-157 | the first differing flag (toll, then ferry, then highway) is reported, and when a flag differs the lengths do not affect the result |
| `RouteSummary.AbsoluteLengthCheck` | internal/valhalla/compare_batch_routes.go:159-165 | with equal flags, "length is different" is reported iff the lengths differ by strictly more than 0.5; the relative error only occurs when they differ by at most 0.5 |
| `RouteSummary.RelativeToleranceIff` | internal/valhalla/compare_batch_routes.go:167-168 | for a positive length sum, the percent test `> 5` is equivalent to `40 * abs(diff) > got + expected` |
| `RouteSummary.RelativeLengthCheck` | internal/valhalla/compare_batch_routes.go:162-171 | with equal flags and positive lengths, the relative error is reported iff the difference is at most 0.5 and over 5 percent of the mean; it then implies a mean length under 10 km |
| `RouteSummary.MatchesItself` | internal/valhalla/compare_batch_routes.go:140-173 | identical summaries always pass, including zero length (0/0 is NaN and `NaN > 5` is false) |
| `RouteSummary.Symmetric` | internal/valhalla/compare_batch_routes.go:140-173 | swapping got and expected keeps the verdict and the reason, with the two reported lengths exchanged |
| `RouteSummary.LengthBoundaries` | internal/valhalla/compare_batch_routes.go:162-171 | a difference of exactly 0.5 passes and 0.50001 fails; exactly 5 percent passes and just above fails; 10.3 vs 10 passes; 106 vs 100 fails the absolute check; a toll mismatch alone fails |
| `FixtureRunner.ComposeAssertTestInputData` | internal/valhalla/compare_batch_routes.go:198-211 | copies departure time and coordinates from the fixture, costing is "motorcycle" for a motorcycle travel type and "auto" otherwise, and the error is always nil |
| `FixtureRunner.BuildRouteRequest` | internal/valhalla/compare_batch_routes.go:71-92 | the request built field by field and then given the motorcycle options equals the specified request |
| `FixtureRunner.RequestForFixture` | internal/valhalla/compare_batch_routes.go:71-92 | exactly two locations (origin, then destination); date-time type 1 with the departure value; costing is "motorcycle" iff the travel type is "motorcycle", else "auto"; payload attached iff motorcycle, empty otherwise |
| `FixtureRunner.EmptyShapeGuard` | internal/valhalla/compare_batch_routes.go:213-225 | an empty shape fails with the same error whatever the decoder and simplifier do; a non-empty shape fails iff it does not decode |
| `FixtureRunner.AssertData` | internal/valhalla/compare_batch_routes.go:65-138 | the step-by-step flow with early returns gives the specified fixture verdict |
| `FixtureRunner.FixturePassesIff` | internal/valhalla/compare_batch_routes.go:94-137 | a fixture passes iff the request marshals and is answered, both shapes are non-empty and decode, and the summaries (response as got) match |
| `FixtureRunner.FailureOrder` | internal/valhalla/compare_batch_routes.go:115-128 | a response-shape failure is reported before a fixture-shape failure, which is reported before any summary mismatch |
| `FixtureRunner.ShapeComparisonIsAdvisory` | internal/valhalla/compare_batch_routes.go:130-137 | the verdict is the same whatever the shape comparison answers |
| `FixtureRunner.PayloadOnlyForMotorcycle` | internal/valhalla/compare_batch_routes.go:90-92 | for a non-motorcycle fixture the verdict does not depend on the costing payload |
| `FixtureRunner.MarshalFailsIff` | internal/valhalla/compare_batch_routes.go:94-97 | the verdict is the marshal error iff the fixture is motorcycle and the payload is non-empty invalid JSON; no HTTP failure can produce it |
| `FixtureRunner.NonFixturePathsSkipped` | internal/valhalla/compare_batch_routes.go:46-48 | a path is processed iff it ends in ".json"; any other path passes without being read |
| `FixtureRunner.WalkPassesIff` | internal/valhalla/compare_batch_routes.go:45-62 | the walk succeeds iff every entry's visit succeeds |
| `FixtureRunner.WalkStopsAtFirstFailure` | internal/valhalla/compare_batch_routes.go:50-58 | when entry k is the first failing one, the walk returns exactly that entry's error |
| `FixtureRunner.WalkReportsFixturesOnly` | internal/valhalla/compare_batch_routes.go:46-60 | only paths ending in ".json" get a result line |
| `FixtureRunner.WalkReportsFailureLast` | internal/valhalla/compare_batch_routes.go:54-60 | every result line but the last is OK; a failing fixture's line is the last one; a successful walk prints only OK lines |
| `FixtureRunner.CompareBatchRoutes` | internal/valhalla/compare_batch_routes.go:35-63 | reads the costing file first, then walks the entries in order; it returns the specified outcome and result lines |
| `GoLibrary.ExtJsonIff` | internal/valhalla/compare_batch_routes.go:46 | `filepath.Ext(path) == ".json"` iff the path ends in ".json" |
| `GoLibrary.ExtScan` | internal/valhalla/compare_batch_routes.go:46 | the extension found is empty or a suffix of the path |
| `GoLibrary.ParseInt64` | internal/pbf/extract_objects.go:20-23 | a parsed ref lies in the signed 64-bit range; the empty string is rejected |
| `GoLibrary.ParseFormatRoundTrip` | internal/pbf/extract_objects.go:20 | the decimal spelling of every 64-bit integer parses back to that integer |
| `GoLibrary.ParseInt64Rejects` | internal/pbf/extract_objects.go:20-23 | "", "-", "12a", "1_000" and "0x10" are not base-10 integers |
| `GoLibrary.Split` | internal/pbf/extract_objects.go:30 | the number of parts is one more than the number of separators, and no part holds the separator |
| `GoLibrary.SplitJoin` | internal/pbf/extract_objects.go:30 | joining the parts with the separator gives back the spec |
| `ExtractObjects.Find` | internal/pbf/extract_objects.go:73 | the lookup gives the value of the first tag with that key, and "" when no tag has it |
| `ExtractObjects.RefIdsOk` | internal/pbf/extract_objects.go:18-26 | the id set is built iff every ref parses, and then holds exactly the parsed values |
| `ExtractObjects.RefIdsFirstError` | internal/pbf/extract_objects.go:19-23 | the first ref that does not parse is the one reported |
| `ExtractObjects.RefIdsAppend` | internal/pbf/extract_objects.go:18-26 | the set for two consecutive runs of refs is the union of their sets, and the earlier error wins |
| `ExtractObjects.RefIdsContains` | internal/pbf/extract_objects.go:25 | every listed ref is in a successfully built set |
| `ExtractObjects.DuplicateRefCollapses` | internal/pbf/extract_objects.go:25 | repeating a listed ref does not change the id set |
| `ExtractObjects.BuildLookupIds` | internal/pbf/extract_objects.go:18-26 | the insertion loop builds the specified id set or reports the first bad ref |
| `ExtractObjects.TagSpecSplit` | internal/pbf/extract_objects.go:30-33 | a spec is accepted iff it holds exactly one '='; its two parts hold no '=' and rebuild the spec |
| `ExtractObjects.TagFiltersOk` | internal/pbf/extract_objects.go:28-35 | the specs are accepted iff each holds one '='; then there is one (key, value) per spec, in input order, with key "=" value equal to the spec |
| `ExtractObjects.TagFiltersFirstError` | internal/pbf/extract_objects.go:29-33 | the first spec without exactly one '=' is the one reported |
| `ExtractObjects.TagSpecExamples` | internal/pbf/extract_objects.go:30-33 | "a=b=c", "ab" and "" are rejected, each error naming its spec; "a=b", "c=" give (a, b), (c, "") |
| `ExtractObjects.BuildTagFilters` | internal/pbf/extract_objects.go:28-35 | the append loop builds the specified filter list or reports the first bad spec |
| `ExtractObjects.RefFilterRegimes` | internal/pbf/extract_objects.go:39-41 | with no requested ids every object passes the id filter; otherwise exactly the requested ids pass |
| `ExtractObjects.IsMatchTagValues` | internal/pbf/extract_objects.go:67-78 | true iff, for every filter, the object's value for its key equals its value (so true for no filters) |
| `ExtractObjects.EmptyValueMatchesMissingKey` | internal/pbf/extract_objects.go:72-74 | a filter "k=" matches exactly the objects whose lookup of k is "", including those without the key |
| `ExtractObjects.SelectedMembers` | internal/pbf/extract_objects.go:37-62 | an object is emitted iff it is scanned and passes both the id filter and the tag filter, whatever its kind |
| `ExtractObjects.SelectedAppend` | internal/pbf/extract_objects.go:37-62 | emission keeps scan order (it distributes over concatenation) |
| `ExtractObjects.NoFiltersSelectAll` | internal/pbf/extract_objects.go:37-62 | with no ids and no tag specs every scanned object is emitted |
| `ExtractObjects.RefsCheckedFirst` | internal/pbf/extract_objects.go:18-35 | a bad ref is reported whatever the tag specs are |
| `ExtractObjects.ExtractObject` | internal/pbf/extract_objects.go:14-65 | parses the ids, then the tag specs, then emits in scan order the objects that pass both filters; the requested type does not affect the result |

## Left out

- Polyline decoding (`Polyline6Codec.DecodeCoords`), Douglas–Peucker simplification (`simplify.Simplify`) and `simplify.CompareSlices`. They are third-party code not part of this model. They are parameters, and nothing is stated about round-trips, endpoints or point counts.
- JSON field extraction (gjson). A document is the record of fields the code reads. Missing fields are assumed to read as false, 0 and "", which is not checked here.
- `json.Marshal` of the request. Its failure on a non-empty raw payload that is not valid JSON is modelled, and validity is a parameter. Its other failure, on a NaN or infinite float, is not modelled.
- Non-finite coordinates: coordinates are real numbers. gjson's `Float()` can give +Inf (for `1e400`) or NaN (for `"NaN"`), and `json.Marshal` would then refuse the request. `FixtureRunner.MarshalFailsIff` does not cover that case.
- HTTP: request creation, the POST and reading the body are one `post` parameter. Printing the response body when its shape fails is left out.
- `fs.WalkDir`. The entries are a sequence of paths in walk order, each with its fixture or a read failure. A directory named `*.json` appears as an entry whose read fails. Walk errors handed to the callback are ignored by the source and are not modelled.
- Output: the `path OK` / `path error` lines are the report. The "got polyline" diagnostics, the `%f` formatting and the text of error messages are left out. Errors are datatype constructors.
- Floating point: lengths are real numbers, so rounding is not modelled. The zero-sum case of the relative check is written out explicitly: a non-zero difference divided by zero is +Inf and fails; 0/0 is NaN and passes.
- `getStatsDistanceFromRefPoint` and `RefPoint`: dead code, because their only calls are commented out.
- `listFiles`: dead code that always returns an empty list.
- The PBF scanner is the sequence of scanned objects. Its errors end the scan silently, because the source never consults `scanner.Err()`. Only node, way and relation objects are produced. Printing `TagMap()` is left out.
- `osm.Tags.Find` is library code. It is modelled as "value of the first tag with that key, else """.
- Context cancellation and the CLI (`cmd/main.go`, including its check of the `--type` flag) are not part of this model.
