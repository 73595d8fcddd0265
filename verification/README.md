# PowerSpikeGG match fetcher, modelled in Dafny

This project models two parts of the PowerSpikeGG raw-data fetcher.

- **The `MatchFetcher.Match` handler and the startup check of `main`**
  (`powerspikegg/rawdata/fetcher/server.py`).
  - The handler validates the request's `id` and then its `region`.
  - It names the region with `constants_pb2.Region.Name` and fetches the match once from the Riot API handler.
  - A `riotwatcher.LoLException` becomes an empty `MatchReference`.
  - Otherwise the handler returns whatever `JSONConverter.json_match_to_match_pb` makes of the payload.
  - `main` refuses to start with an empty API token.
- **The JSON → `MatchReference` conversion**, as the end-to-end test
  `powerspikegg/rawdata/fetcher/converter_test.py` states it. That covers:
  - the header fields;
  - the three enum fields looked up by name;
  - the map name and the duration;
  - two teams, each found by `teamId`;
  - five participants per team, each joined with its identity on `participantId`;
  - the 30 statistics keys;
  - the four damage prefixes.

  `converter.py` is not part of this model. `Converter` is a conversion built to
  that contract and proved to meet it in both directions: whatever it returns
  satisfies the test, and whatever satisfies the test (arranged as the converter
  arranges it) is what it returns.

Files and modules:

| file | module | contents |
|---|---|---|
| `wrappers.dfy` | `Wrappers` | `Option`, `Result` |
| `lookup.dfy` | `Lookup` | first-match search |
| `enums.dfy` | `Enums` | protobuf enum tables with `Name` and `Value` |
| `json.dfy` | `Json` | the raw payload, typed member access, search by id, `SchemaError` |
| `schema.dfy` | `Schema` | the `match_pb2` records |
| `static.dfy` | `Static` | the lookup tables, as parameters |
| `converter_contract.dfy` | `ConverterContract` | the test's assertions as predicates |
| `converter.dfy` | `Converter` | the conversion |
| `server.dfy` | `MatchFetcher` | handler, step machine, startup |

The collaborators defined in `handler`, `converter`, `static` and the generated
`constants_pb2`, which this model does not cover, are parameters:
- `fetch(id, regionName)` is the Riot API handler. It returns a payload, fails with `LoLException`, or fails otherwise.
- `convert(payload)` is the converter, as the handler sees it.
- `Static.Tables` holds the three enum tables, the map-id table and the rule that assigns participants to a team.

The handler returns its outcome together with the calls it made. That is what
lets "no upstream call" and "exactly one upstream call" be stated.

How `Match` treats failures and the cache:
- **Conversion failures** propagate out of `Match`. The conversion (line 75) is outside the `try`, so a failure there is not turned into the empty result.
- **Upstream errors:** only `LoLException` is absorbed (lines 72-73). Any other exception from the fetch propagates (`UpstreamRaised`).
- **Cache:** the class docstring (lines 39-42) says results are cached in a database, but `Match` has no cache lookup or persist step. It always fetches, and the model follows the code.
- **Logging:** the `LoLException` path returns the empty reference without logging the cause.

## Model

| member | source | states |
|---|---|---|
| Lookup.First | powerspikegg/rawdata/fetcher/converter_test.py:161-166 | the index returned holds the first table entry satisfying the predicate; `None` exactly when no entry does |
| Json.FirstWith | powerspikegg/rawdata/fetcher/converter_test.py:48-54 | `next((x for x in s if x[key] == id), None)`: `Found` is the first element whose key holds the id, and every earlier element is an object holding the key with another value; `Absent` exactly when every element holds the key and none matches; `Raised` (`NotAnObject` or `MissingKey`) when an element reached before any match cannot be indexed by the key |
| Json.Member | powerspikegg/rawdata/fetcher/converter_test.py:57-60 | `j[key]` succeeds exactly on an object holding `key` and yields that value; otherwise `NotAnObject` or `MissingKey` |
| Json.IntMember | powerspikegg/rawdata/fetcher/converter_test.py:67-98 | succeeds exactly when `key` holds an integer, and yields it |
| Json.BoolMember | powerspikegg/rawdata/fetcher/converter_test.py:99-108 | succeeds exactly when `key` holds a boolean, and yields it |
| Json.StrMember | powerspikegg/rawdata/fetcher/converter_test.py:59-60 | succeeds exactly when `key` holds a string, and yields it |
| Json.ArrMember | powerspikegg/rawdata/fetcher/converter_test.py:48-53 | succeeds exactly when `key` holds an array, and yields its items |
| Enums.Name | powerspikegg/rawdata/fetcher/server.py:71 | `Region.Name(n)` exists exactly when some entry has number `n`, and that entry is in the table |
| Enums.Value | powerspikegg/rawdata/fetcher/converter_test.py:161-166 | `Value(name)` exists exactly when some entry has that name, and that entry is in the table |
| Enums.EntryFound | powerspikegg/rawdata/fetcher/converter_test.py:161-166 | in an alias-free table, every entry is found by both its name and its number |
| Enums.NameThenValue | powerspikegg/rawdata/fetcher/server.py:70-71 | `Value(Name(n)) == n` in an alias-free table |
| Enums.ValueThenName | powerspikegg/rawdata/fetcher/converter_test.py:161-162 | `Name(Value(s)) == s` in an alias-free table |
| Converter.ConvertDamage | powerspikegg/rawdata/fetcher/converter_test.py:29-40 | for each prefix, `total`, `to_champions` and `taken` read prefix+`DamageDealt`, prefix+`DamageDealtToChampions` and prefix+`DamageTaken`; any statistic satisfying that is the one returned |
| Converter.ConvertStats | powerspikegg/rawdata/fetcher/converter_test.py:64-118 | every statistics field equals its key, including `champLevel`, `neutralMinionsKilledEnemyJungle` and `visionWardsBoughtInGame`, plus the four damage prefixes; a conforming record is the unique result |
| Converter.ConvertParticipant | powerspikegg/rawdata/fetcher/converter_test.py:42-60 | the participant and its identity are both found by `participantId`; the summoner id and name come from `player`; the statistics come from `stats`; a missing participant or identity is reported, and so is the error the search raises on an element it cannot index; a conforming participant is the unique result |
| Converter.ConvertParticipants | powerspikegg/rawdata/fetcher/converter_test.py:149-150 | every converted participant passes `_check_participant`; success exactly when every id converts |
| Converter.ConvertTeam | powerspikegg/rawdata/fetcher/converter_test.py:120-150 | the team's ten fields are copied from the team object, and it has exactly five participants, each conforming; a conforming team is the unique result |
| Converter.ConvertTeams | powerspikegg/rawdata/fetcher/converter_test.py:172-175 | each team is converted from the team object at the same position; success exactly when every team converts |
| Converter.EnumMember | powerspikegg/rawdata/fetcher/converter_test.py:161-166 | the enum field is the table's `Value` of the payload's name; an unknown name fails |
| Converter.ConvertDetail | powerspikegg/rawdata/fetcher/converter_test.py:168-175 | the map is the map-table lookup of `mapId`; the duration is `matchDuration`; there are two teams and each passes `_check_team`; any conforming, arranged detail is the one returned |
| Converter.ConvertMatch | powerspikegg/rawdata/fetcher/converter_test.py:152-175 | the header fields are `matchId`, `matchCreation`, `matchVersion` and `platformId`, and `region`, `queueType` and `season` are looked up by name; a conversion succeeds exactly with the conforming, arranged match; a payload without `matchId` fails with `MissingKey` |
| Converter.TeamsAreFound | powerspikegg/rawdata/fetcher/converter_test.py:129-131 | with distinct team ids, the search by `teamId` finds each team at the position it came from |
| Converter.ConvertedTeamsConform | powerspikegg/rawdata/fetcher/converter_test.py:172-175 | both converted teams pass `_check_team` |
| Converter.ConformingTeams | powerspikegg/rawdata/fetcher/converter_test.py:172-175 | a detail that passes the test and is arranged as the converter arranges it holds exactly the teams the converter computes |
| MatchFetcher.HandleMatch | powerspikegg/rawdata/fetcher/server.py:54-75 | the ID error exactly when `id` is 0, and it wins over the Region error, which occurs exactly when `id` is set and `region` is 0; neither calls out; an unknown region number raises before the fetch; every other request makes exactly one fetch, with the id and the region's name; `LoLException` yields the empty reference without converting; other fetch errors propagate; a payload is converted once and the converter's result or failure is final |
| MatchFetcher.Step | powerspikegg/rawdata/fetcher/server.py:64-75 | one statement per step; only the fetch step and the conversion step record a call, and a finished machine stays put |
| MatchFetcher.Run | powerspikegg/rawdata/fetcher/server.py:54-75 | running never removes a recorded fetch, and a finished machine is not changed |
| MatchFetcher.RunIsHandleMatch | powerspikegg/rawdata/fetcher/server.py:54-75 | five steps of the machine end where `HandleMatch` does, with the same calls made |
| MatchFetcher.ReturnedConforms | powerspikegg/rawdata/fetcher/server.py:75 | with a converter that meets the test's contract, a returned converted match conforms to the fetched payload |
| MatchFetcher.RegionRoundTrip | powerspikegg/rawdata/fetcher/server.py:70-71 | if the payload reports the region name it was fetched under, the returned match carries the request's region number |
| MatchFetcher.Main | powerspikegg/rawdata/fetcher/server.py:90-97 | refused with status 1 exactly when the token is empty; otherwise the server starts with the given token, port and worker count |
| MatchFetcher.ExitStatusAsWritten | powerspikegg/rawdata/fetcher/server.py:105-107 | the process exit status is always 0 |
| MatchFetcher.RefusalIsLost | powerspikegg/rawdata/fetcher/server.py:105-107 | with the default flags `main` refuses, yet the exit status is 0 |
| MatchFetcher.ExitStatusReportsRefusal | powerspikegg/rawdata/fetcher/server.py:92-94 | with `main`'s status passed to the exit, the process fails exactly when the token is empty |

## Left out

- gRPC server construction, the thread pool, the daily sleep loop and the interrupt handling (`start_server`, lines 78-103 of `server.py`). They are I/O and concurrency plumbing; only the flags that reach `start_server` are modelled (`Serving`).
- Upstream calls made by the converter: `Match`'s converter is built with the same Riot API handler (`converter.JSONConverter(self.riot_api_handler)`, `server.py` line 52). The model assumes match conversion makes no upstream call, because the end-to-end test builds its converter with no handler at all (`JSONConverter(None)`, `converter_test.py` lines 26-27). If the conversion did call upstream, those calls would add to "exactly one fetch", and a `LoLException` from them would propagate, since line 75 is outside the `try`.
- The `RiotAPIHandler` and `riotwatcher`. These are network calls, so the fetch is a parameter. Rate limiting, retries and the Riot API's own responses are not modelled.
- Logging: `logging.critical` in `main` has no observable effect in the model.
- The contents of the three enum tables (the generated `constants_pb2`), the map-id table (`static.get_map_from_id`) and the grouping of participants into teams (inside `converter`). These modules are not covered by this model, so they are parameters; `Enums.Unique` is assumed only where a lemma needs it.
- `converter.py` is not part of this model. `Converter` is reconstructed to the test's contract, and the choices the test leaves open are fixed as follows:
  - teams keep payload order;
  - a team's participants are the ids the grouping rule gives, in that order;
  - the conversion fails with `TeamCount` unless there are exactly two teams;
  - it fails with `ParticipantCount` unless a team has exactly five participants;
  - it fails with `DuplicateTeamId` when both teams share an id.
- Reading `match.json` from disk (lines 17-24 of `converter_test.py`).
- Summoner spells, items and banned champions. The test marks them as not yet supported.
- Protobuf integer widths: ids, counts and damages are unbounded integers. Python protobuf raises `ValueError` when an out-of-range integer is assigned to an int32/int64 field; the model accepts such a value where the real conversion would reject it.
- JSON numbers are integers only. Python's `True == 1` equality between a JSON boolean and an id is not modelled: an id must be a JSON integer to match.
- Uniqueness of participant ids within a team is not enforced; `TeamConforms` asks only for five participants that each conform.
- Caching, persistence, streaming, aggregation and the summoner operations. None of these exist in the code modelled here.
- MatchFetcher.Main: the server that is started is not modelled past its arguments.
- MatchFetcher.ExitStatusAsWritten: the exit status after serving assumes the loop ends by interrupt and `server.stop(0)` returns normally.

## Findings

| source | as written | input that shows it | evidently intended | confidence | as-written member | corrected member |
|---|---|---|---|---|---|---|
| powerspikegg/rawdata/fetcher/server.py:105-107 | the script calls `main()` and discards its result, so the `return 1` for an empty token never becomes the exit status | no `--riot_api_token` flag (the default `""`): `main` logs and returns 1, and the process exits with 0 | `sys.exit(main())`: a refused start exits with 1 | medium; not executed | MatchFetcher.RefusalIsLost | MatchFetcher.ExitStatusReportsRefusal |
