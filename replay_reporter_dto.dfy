/**
 * The payload sent to the results server for one merged game: the winner,
 * the short map name, the textual match id and one-to-one copies of the
 * players, messages and actions.
 */
module ReplayReporterDto {
  import opened Wrappers
  import Text
  import opened PlayerInfo
  import opened Game

  /** The version string the reporter announces. */
  const REPORTER_VERSION := "1.0.3"

  /** The directory prefix of the game's multiplayer map paths. */
  const MAP_PATH_PREFIX := "DATA:maps\\pvp\\"

  datatype ReplayReporterPlayerDto = ReplayReporterPlayerDto(
    relicId: nat, hero: nat, race: nat, name: string, steamId: nat, team: nat, simId: nat, slot: nat)

  datatype ReplayReporterMessageDto = ReplayReporterMessageDto(
    receiver: string, sender: string, body: string, tick: nat, playerId: nat)

  datatype ReplayReportReporterDto = ReplayReportReporterDto(date: string, version: string)

  datatype ReplayReportDto = ReplayReportDto(
    aborted: bool,
    actions: seq<Action>,
    dev: bool,
    id: string,
    mapName: string,
    reporter: ReplayReportReporterDto,
    replay: string,
    modVersion: nat,
    ranked: bool,
    league: bool,
    frames: nat,
    ticks: nat,
    players: seq<ReplayReporterPlayerDto>,
    messages: seq<ReplayReporterMessageDto>,
    winner: nat)

  /** `ReplayReporterPlayerDto::from` */
  function PlayerDtoFrom(p: ExtendedPlayerInformation): ReplayReporterPlayerDto {
    ReplayReporterPlayerDto(p.relicId, p.hero, p.race, p.name, p.steamId, p.team, p.simId, p.slot)
  }

  /**
   * For a merged player the report takes relic id, hero, name and team from
   * the replay, and race, steam id, sim id and slot from the log.
   */
  lemma PlayerDtoOfMerged(l: LogfilePlayerInfo, p: ReplayPlayer)
    ensures PlayerDtoFrom(ExtendedFrom(l, p))
            == ReplayReporterPlayerDto(p.relicId, p.hero, l.race, p.name, l.steamId, p.team, l.simId, l.slot)
  {
  }

  /** `ReplayReporterMessageDto::from` */
  function MessageDtoFrom(m: Message): ReplayReporterMessageDto {
    ReplayReporterMessageDto(m.receiver, m.sender, m.body, m.tick, m.playerId)
  }

  /** The message a message DTO describes. */
  function MessageOf(d: ReplayReporterMessageDto): Message {
    Message(d.receiver, d.sender, d.body, d.tick, d.playerId)
  }

  /** A message DTO loses nothing: it converts back to the message, and back again. */
  lemma MessageDtoRoundTrip(m: Message, d: ReplayReporterMessageDto)
    ensures MessageOf(MessageDtoFrom(m)) == m
    ensures MessageDtoFrom(MessageOf(d)) == d
  {
  }

  /** The players' DTOs, one per player and in the same order. */
  function PlayerDtos(players: seq<ExtendedPlayerInformation>): (r: seq<ReplayReporterPlayerDto>)
    ensures |r| == |players|
    ensures forall i :: 0 <= i < |r| ==> r[i] == PlayerDtoFrom(players[i])
  {
    seq(|players|, i requires 0 <= i < |players| => PlayerDtoFrom(players[i]))
  }

  /** The messages' DTOs, one per message and in the same order; each converts back to its message. */
  function MessageDtos(messages: seq<Message>): (r: seq<ReplayReporterMessageDto>)
    ensures |r| == |messages|
    ensures forall i :: 0 <= i < |r| ==> MessageOf(r[i]) == messages[i]
  {
    seq(|messages|, i requires 0 <= i < |messages| => MessageDtoFrom(messages[i]))
  }

  /** The team of the first player who won, or 0 when nobody did. */
  function Winner(players: seq<ExtendedPlayerInformation>): (w: nat)
    ensures (forall i :: 0 <= i < |players| ==> players[i].status != Won) ==> w == 0
    ensures (exists i :: 0 <= i < |players| && players[i].status == Won) ==>
              exists i :: 0 <= i < |players| && players[i].status == Won && w == players[i].team
                          && forall j :: 0 <= j < i ==> players[j].status != Won
  {
    if players == [] then 0
    else if players[0].status == Won then players[0].team
    else
      var w := Winner(players[1..]);
      assert forall i :: 1 <= i < |players| ==> players[i] == players[1..][i - 1];
      assert (exists i :: 0 <= i < |players| && players[i].status == Won) ==>
               exists i :: 0 <= i < |players[1..]| && players[1..][i].status == Won;
      w
  }

  /** `ReplayReportDto::from`, with the wall-clock time of the report as `now`. */
  function ReportFrom(replay: ExtendedGameInformation, now: string): (r: ReplayReportDto)
    reads replay
    ensures r.aborted == replay.aborted && r.frames == replay.frames && r.ticks == replay.ticks
    ensures r.modVersion == replay.modVersion && r.actions == replay.actions
    ensures r.dev <==> replay.dev == Some(true)
    ensures r.replay == (if replay.replay.Some? then replay.replay.value else "")
    ensures !r.ranked && !r.league
    ensures r.id == Text.DecimalString(replay.id)
    ensures r.mapName == Text.RemoveAll(replay.mapRecord.path, MAP_PATH_PREFIX)
    ensures r.reporter == ReplayReportReporterDto(now, REPORTER_VERSION)
    ensures r.players == PlayerDtos(replay.players) && r.messages == MessageDtos(replay.messages)
    ensures r.winner == Winner(replay.players)
  {
    ReplayReportDto(
      replay.aborted,
      replay.actions,
      replay.dev.GetOr(false),
      Text.DecimalString(replay.id),
      Text.RemoveAll(replay.mapRecord.path, MAP_PATH_PREFIX),
      ReplayReportReporterDto(now, REPORTER_VERSION),
      replay.replay.GetOr(""),
      replay.modVersion,
      false,
      false,
      replay.frames,
      replay.ticks,
      PlayerDtos(replay.players),
      MessageDtos(replay.messages),
      Winner(replay.players))
  }

  /** The reported id is the decimal text of the match id and parses back to it. */
  lemma ReportIdRoundTrip(replay: ExtendedGameInformation, now: string)
    requires replay.id <= Text.USIZE_MAX
    ensures Text.ParseUsize(ReportFrom(replay, now).id) == Some(replay.id)
    ensures Text.AllDigits(ReportFrom(replay, now).id)
  {
    Text.ParseUsizeOfDecimalString(replay.id);
  }

  /** A map path that is the pvp prefix followed by a name free of it reports that name. */
  lemma ReportMapStripsPrefix(path: string, name: string)
    requires path == MAP_PATH_PREFIX + name && !Text.Contains(name, MAP_PATH_PREFIX)
    ensures Text.RemoveAll(path, MAP_PATH_PREFIX) == name
  {
    Text.RemoveAllLeading(MAP_PATH_PREFIX, name);
    Text.RemoveAllUnchangedIff(name, MAP_PATH_PREFIX);
  }

  /** A map path without the prefix is reported unchanged. */
  lemma ReportMapKeepsOtherPaths(path: string)
    requires !Text.Contains(path, MAP_PATH_PREFIX)
    ensures Text.RemoveAll(path, MAP_PATH_PREFIX) == path
  {
    Text.RemoveAllUnchangedIff(path, MAP_PATH_PREFIX);
  }

  /** The stock six-player map Estia is reported by its short name. */
  lemma ReportMapOfEstia()
    ensures Text.RemoveAll("DATA:maps\\pvp\\6p_estia", MAP_PATH_PREFIX) == "6p_estia"
  {
    assert "DATA:maps\\pvp\\6p_estia" == MAP_PATH_PREFIX + "6p_estia";
    Text.RemoveAllLeading(MAP_PATH_PREFIX, "6p_estia");
  }
}
