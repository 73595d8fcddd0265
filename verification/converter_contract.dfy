/** The conversion contract that `test_end_to_end` asserts of
    `JSONConverter.json_match_to_match_pb`, written as predicates relating a
    raw payload to a converted `MatchReference`. Every participant, identity
    and team is found the way the test finds it: the first array element whose
    id key equals the converted id. */
module ConverterContract {
  import opened Wrappers
  import opened Json
  import opened Schema
  import Enums
  import Lookup
  import Static

  /** The four damage kinds of `_check_participant`, each read under a key prefix. */
  datatype DamageKind = Magic | Physical | TrueDamage | Total

  function Prefix(k: DamageKind): string
  {
    match k
    case Magic => "magic"
    case Physical => "physical"
    case TrueDamage => "true"
    case Total => "total"
  }

  /** The key `prefix + "DamageDealt"`. */
  function DealtKey(k: DamageKind): string
  {
    Prefix(k) + "DamageDealt"
  }

  /** The key `prefix + "DamageDealtToChampions"`. */
  function ToChampionsKey(k: DamageKind): string
  {
    Prefix(k) + "DamageDealtToChampions"
  }

  /** The key `prefix + "DamageTaken"`. */
  function TakenKey(k: DamageKind): string
  {
    Prefix(k) + "DamageTaken"
  }

  /** `_check_damage_data`: the three keys read for one damage prefix. */
  predicate DamageConforms(d: DamageStatistic, stats: Json, k: DamageKind)
  {
    && IntAt(stats, DealtKey(k), d.total)
    && IntAt(stats, ToChampionsKey(k), d.toChampions)
    && IntAt(stats, TakenKey(k), d.taken)
  }

  /** The `PlayerStatistics` part of `_check_participant`, renamed keys included. */
  predicate StatsConform(s: PlayerStatistics, stats: Json)
  {
    && IntAt(stats, "kills", s.kills)
    && IntAt(stats, "deaths", s.deaths)
    && IntAt(stats, "assists", s.assists)
    && IntAt(stats, "champLevel", s.championLevel)
    && IntAt(stats, "totalHeal", s.totalHeal)
    && IntAt(stats, "largestCriticalStrike", s.largestCriticalStrike)
    && IntAt(stats, "goldEarned", s.goldEarned)
    && IntAt(stats, "goldSpent", s.goldSpent)
    && IntAt(stats, "minionsKilled", s.minionsKilled)
    && IntAt(stats, "neutralMinionsKilled", s.neutralMinionsKilled)
    && IntAt(stats, "neutralMinionsKilledEnemyJungle", s.neutralMinionsKilledEnnemyJungle)
    && IntAt(stats, "neutralMinionsKilledTeamJungle", s.neutralMinionsKilledTeamJungle)
    && IntAt(stats, "visionWardsBoughtInGame", s.visionWardsBought)
    && IntAt(stats, "wardsPlaced", s.wardsPlaced)
    && IntAt(stats, "wardsKilled", s.wardsKilled)
    && IntAt(stats, "doubleKills", s.doubleKills)
    && IntAt(stats, "tripleKills", s.tripleKills)
    && IntAt(stats, "quadraKills", s.quadraKills)
    && IntAt(stats, "pentaKills", s.pentaKills)
    && IntAt(stats, "unrealKills", s.unrealKills)
    && IntAt(stats, "killingSprees", s.killingSprees)
    && IntAt(stats, "largestKillingSpree", s.largestKillingSpree)
    && IntAt(stats, "largestMultiKill", s.largestMultiKill)
    && IntAt(stats, "inhibitorKills", s.inhibitorKills)
    && IntAt(stats, "towerKills", s.towerKills)
    && BoolAt(stats, "firstBloodAssist", s.firstBloodAssist)
    && BoolAt(stats, "firstBloodKill", s.firstBloodKill)
    && BoolAt(stats, "firstInhibitorKill", s.firstInhibitorKill)
    && BoolAt(stats, "firstTowerAssist", s.firstTowerAssist)
    && BoolAt(stats, "firstTowerKill", s.firstTowerKill)
    && DamageConforms(s.magicDamages, stats, Magic)
    && DamageConforms(s.physicalDamages, stats, Physical)
    && DamageConforms(s.trueDamages, stats, TrueDamage)
    && DamageConforms(s.totalDamages, stats, Total)
  }

  /** The summoner part of `_check_participant`: `identity["player"]`. */
  predicate IdentityConforms(s: Summoner, identity: Json)
  {
    && identity.JObj?
    && "player" in identity.fields
    && IntAt(identity.fields["player"], "summonerId", s.id)
    && StrAt(identity.fields["player"], "summonerName", s.name)
  }

  /** `_check_participant`: the participant and its identity both exist, and
      the summoner and statistics come from them. */
  predicate ParticipantConforms(p: Participant, participants: seq<Json>, identities: seq<Json>)
  {
    var i := FirstWith(participants, "participantId", p.id);
    var k := FirstWith(identities, "participantId", p.id);
    && i.Found?
    && k.Found?
    && IdentityConforms(p.summoner, identities[k.index])
    && participants[i.index].JObj?
    && "stats" in participants[i.index].fields
    && StatsConform(p.statistics, participants[i.index].fields["stats"])
  }

  /** The scalar part of `_check_team`. */
  predicate TeamFieldsConform(team: TeamDetail, j: Json)
  {
    && BoolAt(j, "winner", team.winner)
    && IntAt(j, "baronKills", team.baronKills)
    && IntAt(j, "dragonKills", team.dragonKills)
    && IntAt(j, "towerKills", team.towerKills)
    && BoolAt(j, "firstBaron", team.firstBaron)
    && BoolAt(j, "firstDragon", team.firstDragon)
    && BoolAt(j, "firstBlood", team.firstBlood)
    && BoolAt(j, "firstTower", team.firstTower)
    && BoolAt(j, "firstInhibitor", team.firstInhibitor)
    && BoolAt(j, "firstRiftHerald", team.firstRiftHerald)
  }

  /** `_check_team`: the team exists in the payload, its fields are copied, it
      has five participants and each of them conforms. */
  predicate TeamConforms(team: TeamDetail, teams: seq<Json>, participants: seq<Json>, identities: seq<Json>)
  {
    var i := FirstWith(teams, "teamId", team.id);
    && i.Found?
    && TeamFieldsConform(team, teams[i.index])
    && |team.participants| == 5
    && forall q :: q in team.participants ==> ParticipantConforms(q, participants, identities)
  }

  /** `raw[key]` is a name the enum table maps to `number`. */
  predicate NamedEnum(raw: Json, key: string, table: Enums.EnumTable, number: int)
  {
    raw.JObj? && key in raw.fields && raw.fields[key].JStr?
    && Enums.Value(table, raw.fields[key].s) == Some(number)
  }

  /** The detail part of `test_end_to_end`: the map named after `mapId`, the
      duration, two teams and the checks on each of them. */
  predicate DetailConforms(t: Static.Tables, raw: Json, d: MatchDetail)
  {
    && raw.JObj?
    && "mapId" in raw.fields && raw.fields["mapId"].JInt?
    && t.mapName(raw.fields["mapId"].n) == Some(d.gameMap)
    && IntAt(raw, "matchDuration", d.duration)
    && |d.teams| == 2
    && "teams" in raw.fields && raw.fields["teams"].JArr?
    && "participants" in raw.fields && raw.fields["participants"].JArr?
    && "participantIdentities" in raw.fields && raw.fields["participantIdentities"].JArr?
    && forall team :: team in d.teams ==>
         TeamConforms(team, raw.fields["teams"].items, raw.fields["participants"].items,
                      raw.fields["participantIdentities"].items)
  }

  /** `test_end_to_end`. */
  predicate MatchConforms(t: Static.Tables, raw: Json, m: MatchReference)
  {
    && IntAt(raw, "matchId", m.id)
    && IntAt(raw, "matchCreation", m.timestamp)
    && StrAt(raw, "matchVersion", m.version)
    && StrAt(raw, "platformId", m.plateformId)
    && NamedEnum(raw, "region", t.regions, m.region)
    && NamedEnum(raw, "queueType", t.queueTypes, m.queueType)
    && NamedEnum(raw, "season", t.seasons, m.season)
    && DetailConforms(t, raw, m.detail)
  }
}
