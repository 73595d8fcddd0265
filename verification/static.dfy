/** The lookup collaborators of the converter, none of whose contents is part of
    this model: the three protobuf enum tables (`constants_pb2.Region`,
    `QueueType`, `Season`), the static map table (`static.get_map_from_id`,
    `None` when the id is unknown), and the rule that assigns participants to a
    team (given the `participants` array and a `teamId`, the participant ids of
    that team, in order). */
module Static {
  import Enums
  import opened Wrappers
  import opened Json

  datatype Tables = Tables(
    regions: Enums.EnumTable,
    queueTypes: Enums.EnumTable,
    seasons: Enums.EnumTable,
    mapName: int -> Option<string>,
    grouping: (seq<Json>, int) -> seq<int>)
}
