/** The canonical records produced by the converter (`match_pb2`): a match
    reference, its detail, two teams of five participants, and each
    participant's summoner and statistics. Integers are unbounded; see the
    README for the protobuf field widths this leaves out. */
module Schema {

  datatype DamageStatistic = DamageStatistic(total: int, toChampions: int, taken: int)

  datatype PlayerStatistics = PlayerStatistics(
    kills: int,
    deaths: int,
    assists: int,
    championLevel: int,
    totalHeal: int,
    largestCriticalStrike: int,
    goldEarned: int,
    goldSpent: int,
    minionsKilled: int,
    neutralMinionsKilled: int,
    neutralMinionsKilledEnnemyJungle: int,
    neutralMinionsKilledTeamJungle: int,
    visionWardsBought: int,
    wardsPlaced: int,
    wardsKilled: int,
    doubleKills: int,
    tripleKills: int,
    quadraKills: int,
    pentaKills: int,
    unrealKills: int,
    killingSprees: int,
    largestKillingSpree: int,
    largestMultiKill: int,
    inhibitorKills: int,
    towerKills: int,
    firstBloodAssist: bool,
    firstBloodKill: bool,
    firstInhibitorKill: bool,
    firstTowerAssist: bool,
    firstTowerKill: bool,
    magicDamages: DamageStatistic,
    physicalDamages: DamageStatistic,
    trueDamages: DamageStatistic,
    totalDamages: DamageStatistic)

  datatype Summoner = Summoner(id: int, name: string)

  datatype Participant = Participant(id: int, summoner: Summoner, statistics: PlayerStatistics)

  datatype TeamDetail = TeamDetail(
    id: int,
    winner: bool,
    baronKills: int,
    dragonKills: int,
    towerKills: int,
    firstBaron: bool,
    firstDragon: bool,
    firstBlood: bool,
    firstTower: bool,
    firstInhibitor: bool,
    firstRiftHerald: bool,
    participants: seq<Participant>)

  // `gameMap` is the proto field `map` (a reserved word here).
  datatype MatchDetail = MatchDetail(gameMap: string, duration: int, teams: seq<TeamDetail>)

  datatype MatchReference = MatchReference(
    id: int,
    timestamp: int,
    version: string,
    plateformId: string,
    region: int,
    queueType: int,
    season: int,
    detail: MatchDetail)

  /** `match_pb2.MatchReference()`: every scalar at its proto3 default (0, "",
      the enum's zero) and an unset detail, read back as the empty detail. */
  const EmptyMatchReference := MatchReference(0, 0, "", "", 0, 0, 0, MatchDetail("", 0, []))
}
