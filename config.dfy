/** The parts of the command-line configuration that the routing engine reads. */
module Config {
  import opened Strings
  import opened Events

  datatype Cli = Cli(
    matrixUsername: UserId,
    stationName: string,
    stationOperators: seq<UserId>,
    matrixRooms: seq<RoomId>)

  /** `Cli::station_operators_string_list`: the operator ids joined with ", ". */
  function StationOperatorsStringList(cfg: Cli): (r: string)
    ensures cfg.stationOperators == [] ==> r == ""
    ensures |cfg.stationOperators| == 1 ==> r == cfg.stationOperators[0]
    ensures |cfg.stationOperators| >= 1 ==>
      |r| == SumLengths(cfg.stationOperators) + 2 * (|cfg.stationOperators| - 1)
  {
    if cfg.stationOperators == [] then ""
    else
      JoinLength(cfg.stationOperators, ", ");
      Join(cfg.stationOperators, ", ")
  }

  /** Adding an operator at the end of the list adds ", " and its id at the end of the text. */
  lemma StationOperatorsAppend(cfg: Cli, op: UserId)
    requires |cfg.stationOperators| >= 1
    ensures StationOperatorsStringList(cfg.(stationOperators := cfg.stationOperators + [op]))
         == StationOperatorsStringList(cfg) + ", " + op
  {
    JoinAppend(cfg.stationOperators, op, ", ");
  }

  /** Adding an operator at the front of the list adds its id and ", " at the front. */
  lemma StationOperatorsPrepend(cfg: Cli, op: UserId)
    requires |cfg.stationOperators| >= 1
    ensures StationOperatorsStringList(cfg.(stationOperators := [op] + cfg.stationOperators))
         == op + ", " + StationOperatorsStringList(cfg)
  {
    assert ([op] + cfg.stationOperators)[1..] == cfg.stationOperators;
  }
}
