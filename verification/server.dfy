/** The match fetcher service: the `Match` request handler and the startup
    check of `main` in `powerspikegg/rawdata/fetcher/server.py`.

    The Riot API handler and the converter are parameters. `fetch(id, region)`
    is `RiotAPIHandler.get_match`: it returns the raw payload, raises
    `riotwatcher.LoLException`, or raises any other exception. `convert` is
    `JSONConverter.json_match_to_match_pb`; `MeetsContract` states what the
    end-to-end test asks of it, and `Converter.ConvertMatch` computes a
    conversion that meets it. A raised exception is an outcome. The handler also
    returns the calls it made to both collaborators, so that "no upstream call"
    and "exactly one upstream call" can be stated. */
module MatchFetcher {
  import opened Wrappers
  import opened Json
  import opened Schema
  import Enums
  import Static
  import ConverterContract

  /** `MatchRequest`: proto3 fields, so a missing field reads as 0 (for
      `region`, the enum's default entry). */
  datatype MatchRequest = MatchRequest(id: int, region: int)

  /** What `RiotAPIHandler.get_match` does for one call. */
  datatype FetchResult =
    | Fetched(payload: Json)
    | LoLFailure
    | OtherFailure(cause: string)

  /** The required field a `ValueError` names. */
  datatype Field = IdField | RegionField

  /** How a call to `Match` ends: a returned `MatchReference` or a raised
      exception. */
  datatype Outcome =
    | Returned(m: MatchReference)
    | Rejected(field: Field)
    | UnknownRegion(code: int)
    | UpstreamRaised(cause: string)
    | ConversionFailed(error: SchemaError)

  datatype FetchCall = FetchCall(id: int, region: string)

  /** The outcome together with the calls made to the Riot API handler and to
      the converter, in order. */
  datatype Handled = Handled(outcome: Outcome, fetches: seq<FetchCall>, conversions: seq<Json>)

  /** The region name a valid request is fetched under. */
  ghost predicate FetchedUnder(req: MatchRequest, regions: Enums.EnumTable, call: FetchCall)
  {
    req.id != 0 && req.region != 0 && Enums.Name(regions, req.region) == Some(call.region) && call.id == req.id
  }

  /** `MatchFetcher.Match`. */
  function HandleMatch(req: MatchRequest, regions: Enums.EnumTable,
                       fetch: (int, string) -> FetchResult,
                       convert: Json -> Result<MatchReference, SchemaError>): (r: Handled)
    // Validation comes first, the id before the region, and touches nothing.
    ensures r.outcome == Rejected(IdField) <==> req.id == 0
    ensures r.outcome == Rejected(RegionField) <==> req.id != 0 && req.region == 0
    ensures r.outcome.Rejected? ==> r.fetches == [] && r.conversions == []
    // An unknown region number raises before the fetch.
    ensures r.outcome.UnknownRegion? <==>
              req.id != 0 && req.region != 0 && Enums.Name(regions, req.region).None?
    // Every other request makes exactly one fetch, with the id and the region's name.
    ensures |r.fetches| <= 1
    ensures r.fetches != [] <==> !r.outcome.Rejected? && !r.outcome.UnknownRegion?
    ensures r.fetches != [] ==> FetchedUnder(req, regions, r.fetches[0])
    // `LoLException` is absorbed into the empty reference without converting.
    ensures r.fetches != [] && fetch(r.fetches[0].id, r.fetches[0].region).LoLFailure? ==>
              r.outcome == Returned(EmptyMatchReference) && r.conversions == []
    // Any other fetch failure propagates.
    ensures r.fetches != [] && fetch(r.fetches[0].id, r.fetches[0].region).OtherFailure? ==>
              r.outcome == UpstreamRaised(fetch(r.fetches[0].id, r.fetches[0].region).cause) &&
              r.conversions == []
    // A payload is converted once, and the converter's answer is final.
    ensures r.conversions != [] <==>
              r.fetches != [] && fetch(r.fetches[0].id, r.fetches[0].region).Fetched?
    ensures r.conversions != [] ==>
              && r.conversions == [fetch(r.fetches[0].id, r.fetches[0].region).payload]
              && (convert(r.conversions[0]).Success? ==> r.outcome == Returned(convert(r.conversions[0]).value))
              && (convert(r.conversions[0]).Failure? ==> r.outcome == ConversionFailed(convert(r.conversions[0]).error))
  {
    if req.id == 0 then Handled(Rejected(IdField), [], [])
    else if req.region == 0 then Handled(Rejected(RegionField), [], [])
    else match Enums.Name(regions, req.region)
      case None => Handled(UnknownRegion(req.region), [], [])
      case Some(name) =>
        var call := FetchCall(req.id, name);
        match fetch(req.id, name)
        case LoLFailure => Handled(Returned(EmptyMatchReference), [call], [])
        case OtherFailure(cause) => Handled(UpstreamRaised(cause), [call], [])
        case Fetched(payload) =>
          match convert(payload)
          case Success(m) => Handled(Returned(m), [call], [payload])
          case Failure(e) => Handled(ConversionFailed(e), [call], [payload])
  }

  // ---------------------------------------------------------------------------
  // The same handler as a machine that takes one statement of `Match` per step.

  datatype Stage =
    | Received(req: MatchRequest)
    | IdPresent(req: MatchRequest)
    | RegionPresent(req: MatchRequest)
    | Named(req: MatchRequest, name: string)
    | Payload(payload: Json)
    | Finished(outcome: Outcome)

  datatype Machine = Machine(stage: Stage, fetches: seq<FetchCall>, conversions: seq<Json>)

  function Start(req: MatchRequest): Machine
  {
    Machine(Received(req), [], [])
  }

  /** One step; the only steps that call out are the fetch in `Named` and the
      conversion in `Payload`, and each records its call. */
  function Step(regions: Enums.EnumTable, fetch: (int, string) -> FetchResult,
                convert: Json -> Result<MatchReference, SchemaError>, m: Machine): (r: Machine)
    ensures m.stage.Finished? ==> r == m
    ensures r.fetches == m.fetches || (m.stage.Named? && r.fetches == m.fetches + [FetchCall(m.stage.req.id, m.stage.name)])
    ensures r.conversions == m.conversions || (m.stage.Payload? && r.conversions == m.conversions + [m.stage.payload])
  {
    match m.stage
    case Received(req) =>
      if req.id == 0 then m.(stage := Finished(Rejected(IdField))) else m.(stage := IdPresent(req))
    case IdPresent(req) =>
      if req.region == 0 then m.(stage := Finished(Rejected(RegionField))) else m.(stage := RegionPresent(req))
    case RegionPresent(req) =>
      (match Enums.Name(regions, req.region)
       case None => m.(stage := Finished(UnknownRegion(req.region)))
       case Some(name) => m.(stage := Named(req, name)))
    case Named(req, name) =>
      var m' := m.(fetches := m.fetches + [FetchCall(req.id, name)]);
      (match fetch(req.id, name)
       case LoLFailure => m'.(stage := Finished(Returned(EmptyMatchReference)))
       case OtherFailure(cause) => m'.(stage := Finished(UpstreamRaised(cause)))
       case Fetched(payload) => m'.(stage := Payload(payload)))
    case Payload(payload) =>
      var m' := m.(conversions := m.conversions + [payload]);
      (match convert(payload)
       case Success(x) => m'.(stage := Finished(Returned(x)))
       case Failure(e) => m'.(stage := Finished(ConversionFailed(e))))
    case Finished(_) => m
  }

  /** At most `fuel` steps, stopping at `Finished`. */
  function Run(regions: Enums.EnumTable, fetch: (int, string) -> FetchResult,
               convert: Json -> Result<MatchReference, SchemaError>, m: Machine, fuel: nat): (r: Machine)
    ensures m.stage.Finished? ==> r == m
    ensures |m.fetches| <= |r.fetches| && r.fetches[..|m.fetches|] == m.fetches
    decreases fuel
  {
    if fuel == 0 || m.stage.Finished? then m
    else Run(regions, fetch, convert, Step(regions, fetch, convert, m), fuel - 1)
  }

  /** Five steps take every request to `Finished`, and the machine ends where
      `HandleMatch` does, having made the same calls. */
  lemma {:induction false} RunIsHandleMatch(req: MatchRequest, regions: Enums.EnumTable,
                                            fetch: (int, string) -> FetchResult,
                                            convert: Json -> Result<MatchReference, SchemaError>,
                                            fuel: nat)
    requires fuel >= 5
    ensures var h := HandleMatch(req, regions, fetch, convert);
            Run(regions, fetch, convert, Start(req), fuel) == Machine(Finished(h.outcome), h.fetches, h.conversions)
  {
    var m0 := Start(req);
    var m1 := Step(regions, fetch, convert, m0);
    var m2 := Step(regions, fetch, convert, m1);
    var m3 := Step(regions, fetch, convert, m2);
    var m4 := Step(regions, fetch, convert, m3);
    var m5 := Step(regions, fetch, convert, m4);
    assert Run(regions, fetch, convert, m0, fuel) == Run(regions, fetch, convert, m1, fuel - 1);
    if !m1.stage.Finished? {
      assert Run(regions, fetch, convert, m1, fuel - 1) == Run(regions, fetch, convert, m2, fuel - 2);
      if !m2.stage.Finished? {
        assert Run(regions, fetch, convert, m2, fuel - 2) == Run(regions, fetch, convert, m3, fuel - 3);
        if !m3.stage.Finished? {
          assert Run(regions, fetch, convert, m3, fuel - 3) == Run(regions, fetch, convert, m4, fuel - 4);
          if !m4.stage.Finished? {
            assert Run(regions, fetch, convert, m4, fuel - 4) == Run(regions, fetch, convert, m5, fuel - 5);
          }
        }
      }
    }
  }

  // ---------------------------------------------------------------------------
  // Properties that need the converter's contract.

  /** `convert` meets the contract of the end-to-end test against `t`. */
  ghost predicate MeetsContract(t: Static.Tables, convert: Json -> Result<MatchReference, SchemaError>)
  {
    forall raw :: convert(raw).Success? ==> ConverterContract.MatchConforms(t, raw, convert(raw).value)
  }

  /** A match the handler returns after converting is the test's conversion of
      the fetched payload. */
  lemma ReturnedConforms(req: MatchRequest, t: Static.Tables, fetch: (int, string) -> FetchResult,
                         convert: Json -> Result<MatchReference, SchemaError>)
    requires MeetsContract(t, convert)
    ensures var h := HandleMatch(req, t.regions, fetch, convert);
            h.conversions != [] && h.outcome.Returned? ==>
              ConverterContract.MatchConforms(t, h.conversions[0], h.outcome.m)
  {
  }

  /** If the upstream payload reports the region it was fetched under, the
      converted match carries the request's region number: `Value(Name(r)) == r`
      for an alias-free region table. */
  lemma RegionRoundTrip(req: MatchRequest, t: Static.Tables, fetch: (int, string) -> FetchResult,
                        convert: Json -> Result<MatchReference, SchemaError>)
    requires Enums.Unique(t.regions)
    requires MeetsContract(t, convert)
    requires forall id, name :: fetch(id, name).Fetched? ==> StrAt(fetch(id, name).payload, "region", name)
    ensures var h := HandleMatch(req, t.regions, fetch, convert);
            h.conversions != [] && h.outcome.Returned? ==> h.outcome.m.region == req.region
  {
  }

  // ---------------------------------------------------------------------------
  // Startup.

  /** The command-line flags, with their declared defaults. */
  datatype Flags = Flags(riotApiToken: string, port: int, maxWorkers: int)

  const DefaultFlags := Flags("", 50001, 10)

  datatype Startup =
    | Refused(status: int)
    | Serving(token: string, port: int, maxWorkers: int)

  /** `main`: an empty token is refused with status 1 before anything starts;
      otherwise the server starts with the flags as given. */
  function Main(flags: Flags): (r: Startup)
    ensures r.Refused? <==> flags.riotApiToken == ""
    ensures r.Refused? ==> r.status == 1
    ensures r.Serving? ==> r.token == flags.riotApiToken && r.port == flags.port && r.maxWorkers == flags.maxWorkers
  {
    if flags.riotApiToken == "" then Refused(1)
    else Serving(flags.riotApiToken, flags.port, flags.maxWorkers)
  }

  /** The process exit status as the script is written: `main()` is called and
      its result dropped, so the interpreter exits with 0 whether `main`
      refused or served until interrupted. */
  function ExitStatusAsWritten(flags: Flags): (status: int)
    ensures status == 0
  {
    match Main(flags)
    case Refused(_) => 0
    case Serving(_, _, _) => 0
  }

  /** With the default flags the token is empty: `main` refuses, yet the
      process reports success. */
  lemma RefusalIsLost()
    ensures Main(DefaultFlags).Refused?
    ensures ExitStatusAsWritten(DefaultFlags) == 0
  {
  }

  /** The process exit status as evidently intended, `sys.exit(main())`: the
      refusal status, or 0 after serving. */
  function ExitStatus(flags: Flags): (status: int)
  {
    match Main(flags)
    case Refused(s) => s
    case Serving(_, _, _) => 0
  }

  /** The process fails exactly when the token is missing. */
  lemma ExitStatusReportsRefusal(flags: Flags)
    ensures ExitStatus(flags) != 0 <==> flags.riotApiToken == ""
  {
  }
}
