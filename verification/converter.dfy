/** `JSONConverter.json_match_to_match_pb`: one upstream match payload to one
    `MatchReference`. The converter's own source is not part of this model;
    these definitions are built to the contract its end-to-end test states.
    Every step fails with a `SchemaError` instead of producing a partial value,
    and every step is specified in both directions: a success satisfies the
    contract, and any value that satisfies the contract is the one returned. */
module Converter {
  import opened Wrappers
  import opened Json
  import opened Schema
  import Enums
  import Lookup
  import Static
  import opened ConverterContract

  function ConvertDamage(stats: Json, k: DamageKind): (r: Result<DamageStatistic, SchemaError>)
    ensures r.Success? ==> DamageConforms(r.value, stats, k)
    ensures forall d :: DamageConforms(d, stats, k) ==> r == Success(d)
  {
    var total :- IntMember(stats, DealtKey(k));
    var toChampions :- IntMember(stats, ToChampionsKey(k));
    var taken :- IntMember(stats, TakenKey(k));
    Success(DamageStatistic(total, toChampions, taken))
  }

  method ConvertStats(stats: Json) returns (r: Result<PlayerStatistics, SchemaError>)
    ensures r.Success? ==> StatsConform(r.value, stats)
    ensures forall s :: StatsConform(s, stats) ==> r == Success(s)
  {
    var kills :- IntMember(stats, "kills");
    var deaths :- IntMember(stats, "deaths");
    var assists :- IntMember(stats, "assists");
    var championLevel :- IntMember(stats, "champLevel");
    var totalHeal :- IntMember(stats, "totalHeal");
    var largestCriticalStrike :- IntMember(stats, "largestCriticalStrike");
    var goldEarned :- IntMember(stats, "goldEarned");
    var goldSpent :- IntMember(stats, "goldSpent");
    var minionsKilled :- IntMember(stats, "minionsKilled");
    var neutralMinionsKilled :- IntMember(stats, "neutralMinionsKilled");
    var ennemyJungle :- IntMember(stats, "neutralMinionsKilledEnemyJungle");
    var teamJungle :- IntMember(stats, "neutralMinionsKilledTeamJungle");
    var visionWardsBought :- IntMember(stats, "visionWardsBoughtInGame");
    var wardsPlaced :- IntMember(stats, "wardsPlaced");
    var wardsKilled :- IntMember(stats, "wardsKilled");
    var doubleKills :- IntMember(stats, "doubleKills");
    var tripleKills :- IntMember(stats, "tripleKills");
    var quadraKills :- IntMember(stats, "quadraKills");
    var pentaKills :- IntMember(stats, "pentaKills");
    var unrealKills :- IntMember(stats, "unrealKills");
    var killingSprees :- IntMember(stats, "killingSprees");
    var largestKillingSpree :- IntMember(stats, "largestKillingSpree");
    var largestMultiKill :- IntMember(stats, "largestMultiKill");
    var inhibitorKills :- IntMember(stats, "inhibitorKills");
    var towerKills :- IntMember(stats, "towerKills");
    var firstBloodAssist :- BoolMember(stats, "firstBloodAssist");
    var firstBloodKill :- BoolMember(stats, "firstBloodKill");
    var firstInhibitorKill :- BoolMember(stats, "firstInhibitorKill");
    var firstTowerAssist :- BoolMember(stats, "firstTowerAssist");
    var firstTowerKill :- BoolMember(stats, "firstTowerKill");
    var magic :- ConvertDamage(stats, Magic);
    var physical :- ConvertDamage(stats, Physical);
    var trueDamages :- ConvertDamage(stats, TrueDamage);
    var totalDamages :- ConvertDamage(stats, Total);
    r := Success(PlayerStatistics(
      kills, deaths, assists, championLevel, totalHeal, largestCriticalStrike,
      goldEarned, goldSpent, minionsKilled, neutralMinionsKilled, ennemyJungle,
      teamJungle, visionWardsBought, wardsPlaced, wardsKilled, doubleKills,
      tripleKills, quadraKills, pentaKills, unrealKills, killingSprees,
      largestKillingSpree, largestMultiKill, inhibitorKills, towerKills,
      firstBloodAssist, firstBloodKill, firstInhibitorKill, firstTowerAssist,
      firstTowerKill, magic, physical, trueDamages, totalDamages));
  }

  /** A participant converted for `id`. */
  ghost predicate ParticipantFor(p: Participant, id: int, participants: seq<Json>, identities: seq<Json>)
  {
    p.id == id && ParticipantConforms(p, participants, identities)
  }

  /** One participant, joined with its identity on `participantId`. */
  method ConvertParticipant(id: int, participants: seq<Json>, identities: seq<Json>)
    returns (r: Result<Participant, SchemaError>)
    ensures r.Success? ==> ParticipantFor(r.value, id, participants, identities)
    ensures forall p :: ParticipantFor(p, id, participants, identities) ==> r == Success(p)
    ensures FirstWith(participants, "participantId", id).Raised? ==>
      r == Failure(FirstWith(participants, "participantId", id).error)
    ensures FirstWith(participants, "participantId", id).Absent? ==>
      r == Failure(MissingParticipant(id))
    ensures FirstWith(participants, "participantId", id).Found? &&
            FirstWith(identities, "participantId", id).Raised? ==>
      r == Failure(FirstWith(identities, "participantId", id).error)
    ensures FirstWith(participants, "participantId", id).Found? &&
            FirstWith(identities, "participantId", id).Absent? ==>
      r == Failure(MissingIdentity(id))
  {
    var i := FirstWith(participants, "participantId", id);
    var k := FirstWith(identities, "participantId", id);
    if i.Raised? {
      return Failure(i.error);
    }
    if i.Absent? {
      return Failure(MissingParticipant(id));
    }
    if k.Raised? {
      return Failure(k.error);
    }
    if k.Absent? {
      return Failure(MissingIdentity(id));
    }
    var player :- Member(identities[k.index], "player");
    var summonerId :- IntMember(player, "summonerId");
    var summonerName :- StrMember(player, "summonerName");
    var stats :- Member(participants[i.index], "stats");
    var statistics :- ConvertStats(stats);
    r := Success(Participant(id, Summoner(summonerId, summonerName), statistics));
  }

  /** `qs` are the participants converted for `ids`, in order. */
  ghost predicate ParticipantsFor(qs: seq<Participant>, ids: seq<int>, participants: seq<Json>, identities: seq<Json>)
  {
    && |qs| == |ids|
    && forall j :: 0 <= j < |ids| ==> ParticipantFor(qs[j], ids[j], participants, identities)
  }

  method ConvertParticipants(ids: seq<int>, participants: seq<Json>, identities: seq<Json>)
    returns (r: Result<seq<Participant>, SchemaError>)
    ensures r.Success? ==> ParticipantsFor(r.value, ids, participants, identities)
    ensures forall qs :: ParticipantsFor(qs, ids, participants, identities) ==> r == Success(qs)
  {
    var out: seq<Participant> := [];
    var i := 0;
    while i < |ids|
      invariant 0 <= i <= |ids|
      invariant ParticipantsUpTo(out, ids, i, participants, identities)
    {
      var p := ConvertParticipant(ids[i], participants, identities);
      if p.Failure? {
        NoParticipantsFor(ids, i, participants, identities);
        return Failure(p.error);
      }
      ParticipantsStep(out, ids, i, p.value, participants, identities);
      out := out + [p.value];
      i := i + 1;
    }
    ParticipantsWhole(out, ids, participants, identities);
    r := Success(out);
  }

  /** `out` holds the participants converted for the first `i` ids, and agrees
      with every complete conversion of `ids`. */
  ghost predicate ParticipantsUpTo(out: seq<Participant>, ids: seq<int>, i: int,
                                   participants: seq<Json>, identities: seq<Json>)
  {
    && 0 <= i <= |ids|
    && |out| == i
    && (forall j :: 0 <= j < i ==> ParticipantFor(out[j], ids[j], participants, identities))
    && forall qs :: ParticipantsFor(qs, ids, participants, identities) ==> out == qs[..i]
  }

  /** If no participant can be converted for `ids[i]`, none of `ids` can be. */
  lemma NoParticipantsFor(ids: seq<int>, i: int, participants: seq<Json>, identities: seq<Json>)
    requires 0 <= i < |ids|
    requires forall p :: !ParticipantFor(p, ids[i], participants, identities)
    ensures forall qs :: !ParticipantsFor(qs, ids, participants, identities)
  {
    forall qs | ParticipantsFor(qs, ids, participants, identities)
      ensures false
    {
      ParticipantAt(qs, ids, i, participants, identities);
    }
  }

  /** The `i`-th participant converted for `ids` is one converted for `ids[i]`. */
  lemma ParticipantAt(qs: seq<Participant>, ids: seq<int>, i: int, participants: seq<Json>, identities: seq<Json>)
    ensures ParticipantsFor(qs, ids, participants, identities) && 0 <= i < |ids| ==>
              ParticipantFor(qs[i], ids[i], participants, identities)
  {
  }

  /** Appending the one conversion of `ids[i]` extends the prefix. */
  lemma ParticipantsStep(out: seq<Participant>, ids: seq<int>, i: int, p: Participant,
                         participants: seq<Json>, identities: seq<Json>)
    requires i < |ids|
    requires ParticipantsUpTo(out, ids, i, participants, identities)
    requires ParticipantFor(p, ids[i], participants, identities)
    requires forall q :: ParticipantFor(q, ids[i], participants, identities) ==> q == p
    ensures ParticipantsUpTo(out + [p], ids, i + 1, participants, identities)
  {
  }

  /** A completed loop has converted every id. */
  lemma ParticipantsWhole(out: seq<Participant>, ids: seq<int>, participants: seq<Json>, identities: seq<Json>)
    requires ParticipantsUpTo(out, ids, |ids|, participants, identities)
    ensures ParticipantsFor(out, ids, participants, identities)
    ensures forall qs :: ParticipantsFor(qs, ids, participants, identities) ==> out == qs
  {
  }

  /** `td` is the team converted from `team`: its fields are copied and its
      participants are the ones the grouping rule assigns to its id. */
  ghost predicate TeamFrom(t: Static.Tables, td: TeamDetail, team: Json, participants: seq<Json>, identities: seq<Json>)
  {
    && IntAt(team, "teamId", td.id)
    && TeamFieldsConform(td, team)
    && |t.grouping(participants, td.id)| == 5
    && ParticipantsFor(td.participants, t.grouping(participants, td.id), participants, identities)
  }

  /** One team; a team that is not assigned exactly five participants is refused. */
  method ConvertTeam(t: Static.Tables, team: Json, participants: seq<Json>, identities: seq<Json>)
    returns (r: Result<TeamDetail, SchemaError>)
    ensures r.Success? ==> TeamFrom(t, r.value, team, participants, identities)
    ensures forall td :: TeamFrom(t, td, team, participants, identities) ==> r == Success(td)
  {
    var id :- IntMember(team, "teamId");
    var winner :- BoolMember(team, "winner");
    var baronKills :- IntMember(team, "baronKills");
    var dragonKills :- IntMember(team, "dragonKills");
    var towerKills :- IntMember(team, "towerKills");
    var firstBaron :- BoolMember(team, "firstBaron");
    var firstDragon :- BoolMember(team, "firstDragon");
    var firstBlood :- BoolMember(team, "firstBlood");
    var firstTower :- BoolMember(team, "firstTower");
    var firstInhibitor :- BoolMember(team, "firstInhibitor");
    var firstRiftHerald :- BoolMember(team, "firstRiftHerald");
    var ids := t.grouping(participants, id);
    if |ids| != 5 {
      return Failure(ParticipantCount(id, |ids|));
    }
    var members :- ConvertParticipants(ids, participants, identities);
    r := Success(TeamDetail(id, winner, baronKills, dragonKills, towerKills, firstBaron,
                            firstDragon, firstBlood, firstTower, firstInhibitor,
                            firstRiftHerald, members));
  }

  /** `tds` are the teams converted from `teams`, in payload order. */
  ghost predicate TeamsFrom(t: Static.Tables, tds: seq<TeamDetail>, teams: seq<Json>, participants: seq<Json>, identities: seq<Json>)
  {
    && |tds| == |teams|
    && forall j :: 0 <= j < |teams| ==> TeamFrom(t, tds[j], teams[j], participants, identities)
  }

  method ConvertTeams(t: Static.Tables, teams: seq<Json>, participants: seq<Json>, identities: seq<Json>)
    returns (r: Result<seq<TeamDetail>, SchemaError>)
    ensures r.Success? ==> TeamsFrom(t, r.value, teams, participants, identities)
    ensures forall tds :: TeamsFrom(t, tds, teams, participants, identities) ==> r == Success(tds)
  {
    var out: seq<TeamDetail> := [];
    var i := 0;
    while i < |teams|
      invariant 0 <= i <= |teams|
      invariant TeamsUpTo(t, out, teams, i, participants, identities)
    {
      var td := ConvertTeam(t, teams[i], participants, identities);
      if td.Failure? {
        NoTeamsFrom(t, teams, i, participants, identities);
        return Failure(td.error);
      }
      TeamsStep(t, out, teams, i, td.value, participants, identities);
      out := out + [td.value];
      i := i + 1;
    }
    TeamsWhole(t, out, teams, participants, identities);
    r := Success(out);
  }

  /** `out` holds the teams converted from the first `i` team objects, and
      agrees with every complete conversion of `teams`. */
  ghost predicate TeamsUpTo(t: Static.Tables, out: seq<TeamDetail>, teams: seq<Json>, i: int,
                            participants: seq<Json>, identities: seq<Json>)
  {
    && 0 <= i <= |teams|
    && |out| == i
    && (forall j :: 0 <= j < i ==> TeamFrom(t, out[j], teams[j], participants, identities))
    && forall tds :: TeamsFrom(t, tds, teams, participants, identities) ==> out == tds[..i]
  }

  /** If `teams[i]` cannot be converted, `teams` cannot be. */
  lemma NoTeamsFrom(t: Static.Tables, teams: seq<Json>, i: int, participants: seq<Json>, identities: seq<Json>)
    requires 0 <= i < |teams|
    requires forall td :: !TeamFrom(t, td, teams[i], participants, identities)
    ensures forall tds :: !TeamsFrom(t, tds, teams, participants, identities)
  {
    forall tds | TeamsFrom(t, tds, teams, participants, identities)
      ensures false
    {
      TeamAt(t, tds, teams, i, participants, identities);
    }
  }

  /** The `i`-th team converted from `teams` is one converted from `teams[i]`. */
  lemma TeamAt(t: Static.Tables, tds: seq<TeamDetail>, teams: seq<Json>, i: int, participants: seq<Json>, identities: seq<Json>)
    ensures TeamsFrom(t, tds, teams, participants, identities) && 0 <= i < |teams| ==>
              TeamFrom(t, tds[i], teams[i], participants, identities)
  {
  }

  /** Appending the one conversion of `teams[i]` extends the prefix. */
  lemma TeamsStep(t: Static.Tables, out: seq<TeamDetail>, teams: seq<Json>, i: int, td: TeamDetail,
                  participants: seq<Json>, identities: seq<Json>)
    requires i < |teams|
    requires TeamsUpTo(t, out, teams, i, participants, identities)
    requires TeamFrom(t, td, teams[i], participants, identities)
    requires forall d :: TeamFrom(t, d, teams[i], participants, identities) ==> d == td
    ensures TeamsUpTo(t, out + [td], teams, i + 1, participants, identities)
  {
  }

  /** A completed loop has converted every team. */
  lemma TeamsWhole(t: Static.Tables, out: seq<TeamDetail>, teams: seq<Json>, participants: seq<Json>, identities: seq<Json>)
    requires TeamsUpTo(t, out, teams, |teams|, participants, identities)
    ensures TeamsFrom(t, out, teams, participants, identities)
    ensures forall tds :: TeamsFrom(t, tds, teams, participants, identities) ==> out == tds
  {
  }

  /** An enum field given by name in the payload. */
  function EnumMember(raw: Json, key: string, table: Enums.EnumTable): (r: Result<int, SchemaError>)
    ensures r.Success? ==> NamedEnum(raw, key, table, r.value)
    ensures forall v :: NamedEnum(raw, key, table, v) ==> r == Success(v)
  {
    var name :- StrMember(raw, key);
    match Enums.Value(table, name)
    case None => Failure(UnknownName(key, name))
    case Some(v) => Success(v)
  }

  /** The choices the converter makes that the test leaves open: the teams are
      listed in payload order with distinct ids, and each team's participants
      are the ones the grouping rule assigns to it, in that order. */
  ghost predicate Arranged(t: Static.Tables, raw: Json, d: MatchDetail)
  {
    && raw.JObj?
    && "teams" in raw.fields && raw.fields["teams"].JArr?
    && "participants" in raw.fields && raw.fields["participants"].JArr?
    && var teams := d.teams;
       var teamsJson := raw.fields["teams"].items;
       var participants := raw.fields["participants"].items;
       && |teams| == |teamsJson|
       && (forall i, j :: 0 <= i < j < |teams| ==> teams[i].id != teams[j].id)
       && forall j :: 0 <= j < |teams| ==>
            && IntAt(teamsJson[j], "teamId", teams[j].id)
            && ListedAs(teams[j].participants, t.grouping(participants, teams[j].id))
  }

  /** The ids of `qs` are `ids`, in order. */
  ghost predicate ListedAs(qs: seq<Participant>, ids: seq<int>)
  {
    |qs| == |ids| && forall k :: 0 <= k < |qs| ==> qs[k].id == ids[k]
  }

  /** The map, duration and teams of a match. */
  method ConvertDetail(t: Static.Tables, raw: Json) returns (r: Result<MatchDetail, SchemaError>)
    ensures r.Success? ==> DetailConforms(t, raw, r.value) && Arranged(t, raw, r.value)
    ensures forall d :: DetailConforms(t, raw, d) && Arranged(t, raw, d) ==> r == Success(d)
  {
    forall d | DetailConforms(t, raw, d) && Arranged(t, raw, d)
      ensures ReadsAs(t, raw, d)
    {
      ConformingTeams(t, raw, d);
    }
    var mapId :- IntMember(raw, "mapId");
    var duration :- IntMember(raw, "matchDuration");
    var teamsJson :- ArrMember(raw, "teams");
    var participants :- ArrMember(raw, "participants");
    var identities :- ArrMember(raw, "participantIdentities");
    var gameMap := t.mapName(mapId);
    if gameMap.None? {
      return Failure(UnknownMapId(mapId));
    }
    if |teamsJson| != 2 {
      return Failure(TeamCount(|teamsJson|));
    }
    var teams :- ConvertTeams(t, teamsJson, participants, identities);
    if teams[0].id == teams[1].id {
      return Failure(DuplicateTeamId(teams[0].id));
    }
    ConvertedTeamsConform(t, teamsJson, teams, participants, identities);
    r := Success(MatchDetail(gameMap.value, duration, teams));
  }

  /** A whole match: the header fields, then the detail. */
  method ConvertMatch(t: Static.Tables, raw: Json) returns (r: Result<MatchReference, SchemaError>)
    ensures r.Success? ==> MatchConforms(t, raw, r.value) && Arranged(t, raw, r.value.detail)
    ensures forall m :: MatchConforms(t, raw, m) && Arranged(t, raw, m.detail) ==> r == Success(m)
    ensures raw.JObj? && "matchId" !in raw.fields ==> r == Failure(MissingKey("matchId"))
  {
    var id :- IntMember(raw, "matchId");
    var timestamp :- IntMember(raw, "matchCreation");
    var version :- StrMember(raw, "matchVersion");
    var plateformId :- StrMember(raw, "platformId");
    var region :- EnumMember(raw, "region", t.regions);
    var queueType :- EnumMember(raw, "queueType", t.queueTypes);
    var season :- EnumMember(raw, "season", t.seasons);
    var detail :- ConvertDetail(t, raw);
    r := Success(MatchReference(id, timestamp, version, plateformId, region, queueType, season, detail));
  }

  /** What each step of `ConvertDetail` reads from `raw` when `d` is the
      expected result. */
  ghost predicate ReadsAs(t: Static.Tables, raw: Json, d: MatchDetail)
  {
    && IntMember(raw, "mapId").Success?
    && t.mapName(IntMember(raw, "mapId").value) == Some(d.gameMap)
    && IntMember(raw, "matchDuration") == Success(d.duration)
    && ArrMember(raw, "teams").Success?
    && ArrMember(raw, "participants").Success?
    && ArrMember(raw, "participantIdentities").Success?
    && |ArrMember(raw, "teams").value| == 2
    && TeamsFrom(t, d.teams, ArrMember(raw, "teams").value, ArrMember(raw, "participants").value,
                 ArrMember(raw, "participantIdentities").value)
    && d.teams[0].id != d.teams[1].id
  }

  /** A conforming, arranged match holds exactly the teams converted from the
      payload's team list. */
  lemma ConformingTeams(t: Static.Tables, raw: Json, d: MatchDetail)
    requires DetailConforms(t, raw, d) && Arranged(t, raw, d)
    ensures ReadsAs(t, raw, d)
    ensures TeamsFrom(t, d.teams, raw.fields["teams"].items, raw.fields["participants"].items,
                      raw.fields["participantIdentities"].items)
  {
    var teams := d.teams;
    var teamsJson := raw.fields["teams"].items;
    var participants := raw.fields["participants"].items;
    var identities := raw.fields["participantIdentities"].items;
    TeamsAreFound(teamsJson, teams);
    forall j | 0 <= j < |teams|
      ensures TeamFrom(t, teams[j], teamsJson[j], participants, identities)
    {
      var team := teams[j];
      assert team in teams;
      assert TeamConforms(team, teamsJson, participants, identities);
      var ids := t.grouping(participants, team.id);
      forall k | 0 <= k < |ids|
        ensures ParticipantFor(team.participants[k], ids[k], participants, identities)
      {
        assert team.participants[k] in team.participants;
      }
    }
  }

  /** Two converted teams with distinct ids satisfy the test's team checks and
      are arranged as the converter lists them. */
  lemma ConvertedTeamsConform(t: Static.Tables, teamsJson: seq<Json>, teams: seq<TeamDetail>,
                              participants: seq<Json>, identities: seq<Json>)
    requires |teamsJson| == 2
    requires TeamsFrom(t, teams, teamsJson, participants, identities)
    requires teams[0].id != teams[1].id
    ensures forall team :: team in teams ==> TeamConforms(team, teamsJson, participants, identities)
    ensures forall j :: 0 <= j < |teams| ==>
              && IntAt(teamsJson[j], "teamId", teams[j].id)
              && ListedAs(teams[j].participants, t.grouping(participants, teams[j].id))
  {
  }

  /** With distinct ids, the test's first-match search by `teamId` finds each
      team at the position it was converted from. */
  lemma TeamsAreFound(teamsJson: seq<Json>, teams: seq<TeamDetail>)
    requires |teamsJson| == |teams| == 2
    requires forall j :: 0 <= j < |teams| ==> IntAt(teamsJson[j], "teamId", teams[j].id)
    requires teams[0].id != teams[1].id
    ensures forall j :: 0 <= j < |teams| ==> FirstWith(teamsJson, "teamId", teams[j].id) == Found(j)
  {
  }
}
