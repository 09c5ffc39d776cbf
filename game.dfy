/**
 * Joining one parsed replay with the log record of the same game: the
 * per-game summary (`GameInfo`), the merged player list, the actions
 * attributed to players, and the `ExtendedGameInformation` object that
 * receives all of it.
 */
module Game {
  import opened Wrappers
  import opened PlayerInfo
  import Logfile

  type byte = b: int | 0 <= b < 256

  /** The replay's game-settings record. */
  datatype ReplayGame = ReplayGame(name: string, mode: string, resources: string, locations: string, victoryPoints: nat)

  /** The game settings as presented to the user. */
  datatype GameInfo = GameInfo(name: string, mode: string, resources: string, locations: string, victoryPoints: nat)

  /** `GameInfo::default()` */
  const DefaultGameInfo := GameInfo("", "", "", "", 0)

  /** The replay's map record; `path` is the game-internal map path. */
  datatype Map = Map(name: string, description: string, abbrname: string, maxplayers: nat,
                     path: string, date: string, width: nat, height: nat)

  /** `Map::default()` */
  const DefaultMap := Map("", "", "", 0, "", "", 0, 0)

  /** A tagged record of the replay container; only these three tags are inspected. */
  datatype Chunk = PlayerChunk(player: ReplayPlayer) | MapChunk(mapRecord: Map) | GameChunk(game: ReplayGame) | OtherChunk

  /** One recorded command; byte 3 of its data identifies the issuing player. */
  datatype Action = Action(player: string, relicId: nat, tick: nat, data: seq<byte>)

  datatype Message = Message(receiver: string, sender: string, body: string, tick: nat, playerId: nat)

  /** What the replay library extracts from a replay file. */
  datatype ReplayInfo = ReplayInfo(
    name: string,
    modChksum: nat,
    modVersion: nat,
    md5: string,
    date: string,
    ticks: nat,
    game: Chunk,
    mapChunk: Chunk,
    players: seq<Chunk>,
    messages: seq<Message>,
    actions: seq<Action>)

  // ---------------------------------------------------------------------
  // Game settings and map
  // ---------------------------------------------------------------------

  /** `GameInfo::from`: all five settings carried over unchanged. */
  function GameInfoFrom(g: ReplayGame): (r: GameInfo)
    ensures ReplayGame(r.name, r.mode, r.resources, r.locations, r.victoryPoints) == g
  {
    GameInfo(g.name, g.mode, g.resources, g.locations, g.victoryPoints)
  }

  /** The settings of a game chunk, the defaults for any other chunk. */
  function GameInfoOf(c: Chunk): (r: GameInfo)
    ensures c.GameChunk? ==> ReplayGame(r.name, r.mode, r.resources, r.locations, r.victoryPoints) == c.game
    ensures !c.GameChunk? ==> r == DefaultGameInfo
  {
    if c.GameChunk? then GameInfoFrom(c.game) else DefaultGameInfo
  }

  /** The map of a map chunk, the default map for any other chunk. */
  function MapOf(c: Chunk): (r: Map)
    ensures c.MapChunk? ==> r == c.mapRecord
    ensures !c.MapChunk? ==> r == DefaultMap
  {
    match c
    case MapChunk(m) => m
    case _ => DefaultMap
  }

  // ---------------------------------------------------------------------
  // Players
  // ---------------------------------------------------------------------

  /**
   * The merged player at position `i`: pairs the replay chunk and the log
   * player with the same index, or the default player when the log has no
   * player there or the chunk is not a player.
   */
  function MergePlayer(chunk: Chunk, logPlayers: seq<LogfilePlayerInfo>, i: nat): ExtendedPlayerInformation {
    if i < |logPlayers| && chunk.PlayerChunk? then ExtendedFrom(logPlayers[i], chunk.player)
    else DefaultExtendedPlayer
  }

  /**
   * One merged player per replay player chunk, in replay order; the log
   * contributes by position, not by identity.
   */
  function MergePlayers(replayPlayers: seq<Chunk>, logPlayers: seq<LogfilePlayerInfo>): (r: seq<ExtendedPlayerInformation>)
    ensures |r| == |replayPlayers|
    ensures forall i :: 0 <= i < |r| && i < |logPlayers| && replayPlayers[i].PlayerChunk? ==>
              CarriesLogFields(r[i], logPlayers[i]) && ReplayPart(r[i]) == replayPlayers[i].player
    ensures forall i :: 0 <= i < |r| && (i >= |logPlayers| || !replayPlayers[i].PlayerChunk?) ==>
              r[i] == DefaultExtendedPlayer
  {
    seq(|replayPlayers|, i requires 0 <= i < |replayPlayers| => MergePlayer(replayPlayers[i], logPlayers, i))
  }

  // ---------------------------------------------------------------------
  // Actions
  // ---------------------------------------------------------------------

  /**
   * The sim id an action's player byte stands for: the byte minus 0xE8 in
   * 8-bit arithmetic (wrapping, as a release build does), plus 1000.
   */
  function ActionSimId(b: byte): (id: nat)
    ensures 1000 <= id < 1256
    ensures b >= 0xE8 ==> id == b - 0xE8 + 1000
    ensures b < 0xE8 ==> id == b + 256 - 0xE8 + 1000
  {
    (b + 256 - 0xE8) % 256 + 1000
  }

  /** Different player bytes stand for different sim ids. */
  lemma ActionSimIdInjective(b1: byte, b2: byte)
    requires ActionSimId(b1) == ActionSimId(b2)
    ensures b1 == b2
  {
  }

  /** Sim ids 1000 to 1023 come only from bytes 0xE8 to 0xFF. */
  lemma ActionSimIdOfPlayerRange(b: byte)
    requires 1000 <= ActionSimId(b) < 1024
    ensures 0xE8 <= b
  {
  }

  /** The first player with the given sim id. */
  function FindBySimId(players: seq<ExtendedPlayerInformation>, simId: nat): (r: Option<ExtendedPlayerInformation>)
    ensures r.None? <==> forall i :: 0 <= i < |players| ==> players[i].simId != simId
    ensures r.Some? ==> exists i :: 0 <= i < |players| && players[i] == r.value && r.value.simId == simId
                                    && forall j :: 0 <= j < i ==> players[j].simId != simId
  {
    if players == [] then None
    else if players[0].simId == simId then Some(players[0])
    else
      var rest := FindBySimId(players[1..], simId);
      assert forall i :: 1 <= i < |players| ==> players[i] == players[1..][i - 1];
      rest
  }

  /**
   * An action credited to the first player with the sim id it stands for
   * (name and relic id), or nothing when its data has no byte 3 or no player
   * has that sim id.
   */
  function AttributeAction(players: seq<ExtendedPlayerInformation>, a: Action): (r: Option<Action>)
    ensures r.Some? <==> |a.data| > 3 && FindBySimId(players, ActionSimId(a.data[3])).Some?
    ensures r.Some? ==> var p := FindBySimId(players, ActionSimId(a.data[3])).value;
                        r.value == Action(p.name, p.relicId, a.tick, a.data)
  {
    if |a.data| <= 3 then None
    else match FindBySimId(players, ActionSimId(a.data[3]))
      case None => None
      case Some(p) => Some(Action(p.name, p.relicId, a.tick, a.data))
  }

  /** The attributable actions, credited to their players, in their original order. */
  function AttributedActions(players: seq<ExtendedPlayerInformation>, actions: seq<Action>): (r: seq<Action>)
    ensures |r| <= |actions|
    ensures forall k :: 0 <= k < |r| ==> exists i :: 0 <= i < |actions| && AttributeAction(players, actions[i]) == Some(r[k])
  {
    if actions == [] then []
    else
      var rest := AttributedActions(players, actions[1..]);
      assert forall i :: 1 <= i < |actions| ==> actions[i] == actions[1..][i - 1];
      match AttributeAction(players, actions[0])
      case None => rest
      case Some(a) => [a] + rest
  }

  /** Attribution works action by action: it distributes over concatenation. */
  lemma {:induction false} AttributedActionsConcat(players: seq<ExtendedPlayerInformation>, a: seq<Action>, b: seq<Action>)
    ensures AttributedActions(players, a + b) == AttributedActions(players, a) + AttributedActions(players, b)
    decreases |a|
  {
    if a == [] {
      assert a + b == b;
    } else {
      assert (a + b)[1..] == a[1..] + b;
      AttributedActionsConcat(players, a[1..], b);
    }
  }

  /** Every attributable action appears among the attributed ones. */
  lemma {:induction false} AttributedActionsKeepsAttributable(players: seq<ExtendedPlayerInformation>, actions: seq<Action>, i: nat)
    requires i < |actions| && AttributeAction(players, actions[i]).Some?
    ensures AttributeAction(players, actions[i]).value in AttributedActions(players, actions)
    decreases i
  {
    if i > 0 {
      assert actions[1..][i - 1] == actions[i];
      AttributedActionsKeepsAttributable(players, actions[1..], i - 1);
    }
  }

  /** An action without byte 3, or whose sim id no player has, is dropped. */
  lemma UnattributableActionDropped(players: seq<ExtendedPlayerInformation>, actions: seq<Action>, a: Action)
    requires |a.data| <= 3 || forall p :: p in players ==> p.simId != ActionSimId(a.data[3])
    ensures AttributedActions(players, actions + [a]) == AttributedActions(players, actions)
  {
    AttributedActionsConcat(players, actions, [a]);
    assert [a][1..] == [];
  }

  // ---------------------------------------------------------------------
  // The merged game
  // ---------------------------------------------------------------------

  /** Everything known about one played game; `From` fills it. */
  class ExtendedGameInformation {
    var id: nat
    var name: string
    var modChksum: nat
    var modVersion: nat
    var md5: string
    var date: string
    var ticks: nat
    var game: GameInfo
    var mapRecord: Map
    var players: seq<ExtendedPlayerInformation>
    var messages: seq<Message>
    var actions: seq<Action>
    var aborted: bool
    var frames: nat
    var endedAt: string
    var status: string
    var dev: Option<bool>
    var replay: Option<string>

    /** `ExtendedGameInformation::new()`: every field at its default. */
    constructor ()
      ensures id == 0 && name == "" && modChksum == 0 && modVersion == 0 && md5 == "" && date == "" && ticks == 0
      ensures game == DefaultGameInfo && mapRecord == DefaultMap
      ensures players == [] && messages == [] && actions == []
      ensures !aborted && frames == 0 && endedAt == "" && status == "" && dev == None && replay == None
    {
      id, name, modChksum, modVersion, md5, date, ticks := 0, "", 0, 0, "", "", 0;
      game, mapRecord := DefaultGameInfo, DefaultMap;
      players, messages, actions := [], [], [];
      aborted, frames, endedAt, status, dev, replay := false, 0, "", "", None, None;
    }

    /** Abort flag, match id and frame count are those of the log record. */
    ghost predicate HasLogFields(logGame: Logfile.LogfileGameInfo)
      reads this`aborted, this`id, this`frames
    {
      aborted == logGame.aborted && id == logGame.id && frames == logGame.frames
    }

    /** Name, mod checksum and version, digest, tick count, messages and both dates are the replay's. */
    ghost predicate HasReplayFields(parsedReplay: ReplayInfo)
      reads this`messages, this`endedAt, this`date, this`name, this`modChksum, this`modVersion, this`md5, this`ticks
    {
      && messages == parsedReplay.messages
      && endedAt == parsedReplay.date && date == parsedReplay.date
      && name == parsedReplay.name && modChksum == parsedReplay.modChksum && modVersion == parsedReplay.modVersion
      && md5 == parsedReplay.md5 && ticks == parsedReplay.ticks
    }

    /**
     * Map and settings come from their chunks, players are merged by
     * position, and the actions are those attributable to the merged players.
     */
    ghost predicate HasMergedFields(parsedReplay: ReplayInfo, logGame: Logfile.LogfileGameInfo)
      reads this`mapRecord, this`game, this`players, this`actions
    {
      && mapRecord == MapOf(parsedReplay.mapChunk) && game == GameInfoOf(parsedReplay.game)
      && players == MergePlayers(parsedReplay.players, logGame.players)
      && actions == AttributedActions(players, parsedReplay.actions)
    }

    /** No server status, no development flag and no encoded replay yet. */
    ghost predicate IsUnreported()
      reads this`status, this`dev, this`replay
    {
      status == "" && dev == None && replay == None
    }

    /**
     * `ExtendedGameInformation::from`: overwrites every field from the
     * replay and the log record of the same game, and resets the
     * reporting fields.
     */
    method From(parsedReplay: ReplayInfo, logGame: Logfile.LogfileGameInfo)
      modifies this
      ensures HasLogFields(logGame) && HasReplayFields(parsedReplay)
      ensures HasMergedFields(parsedReplay, logGame) && IsUnreported()
    {
      TakeCopiedFields(parsedReplay, logGame);
      TakeComputedFields(parsedReplay, logGame);
    }

    /** The fields copied unchanged from the log record and the replay. */
    method TakeCopiedFields(parsedReplay: ReplayInfo, logGame: Logfile.LogfileGameInfo)
      modifies this`aborted, this`id, this`frames
      modifies this`messages, this`endedAt, this`date, this`name, this`modChksum, this`modVersion, this`md5, this`ticks
      ensures HasLogFields(logGame) && HasReplayFields(parsedReplay)
    {
      aborted, id, frames := logGame.aborted, logGame.id, logGame.frames;
      messages, endedAt, date := parsedReplay.messages, parsedReplay.date, parsedReplay.date;
      name, modChksum, modVersion := parsedReplay.name, parsedReplay.modChksum, parsedReplay.modVersion;
      md5, ticks := parsedReplay.md5, parsedReplay.ticks;
    }

    /** The fields computed from both sources, and the reset reporting fields. */
    method TakeComputedFields(parsedReplay: ReplayInfo, logGame: Logfile.LogfileGameInfo)
      modifies this`mapRecord, this`game, this`players, this`actions, this`status, this`dev, this`replay
      ensures HasMergedFields(parsedReplay, logGame) && IsUnreported()
    {
      var merged := MergePlayers(parsedReplay.players, logGame.players);
      mapRecord, game := MapOf(parsedReplay.mapChunk), GameInfoOf(parsedReplay.game);
      players, actions := merged, AttributedActions(merged, parsedReplay.actions);
      status, dev, replay := "", None, None;
    }
  }
}
