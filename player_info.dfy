/**
 * One player's outcome as read from a result line of the log, and the
 * combination of that outcome with the player record decoded from the replay.
 */
module PlayerInfo {
  import opened Wrappers
  import Text

  datatype LogfilePlayerStatus =
    | Unknown     // the default, and every result text that is not recognised
    | Won
    | Conceded    // gave up before the victory points ran out
    | Killed      // victory points reached zero
    | Playing     // still in a match that someone else left
    | Outofsync   // caused an out-of-sync error
    | Dropped     // disconnected without an out-of-sync error

  datatype LogfilePlayerInfo = LogfilePlayerInfo(
    simId: nat,
    race: nat,
    teamId: nat,
    relicId: nat,
    steamId: nat,
    slot: nat,
    status: LogfilePlayerStatus)

  /** `LogfilePlayerInfo::new()`: every number 0, status Unknown. */
  const NewPlayer := LogfilePlayerInfo(0, 0, 0, 0, 0, 0, Unknown)

  /**
   * The capture groups of one regular-expression match: group `i` at index
   * `i` (group 0 is the whole match), None for a group that took no part.
   */
  type Captures = seq<Option<string>>

  /** `Captures::get`: a group past the end is absent too. */
  function Group(c: Captures, i: nat): Option<string> {
    if i < |c| then c[i] else None
  }

  /** `convert_match_to_int`: the text's `usize` value, 0 when it does not parse. */
  function ConvertMatchToInt(s: string): (r: nat)
    ensures r <= Text.USIZE_MAX
    ensures Text.ParseUsize(s).None? ==> r == 0
  {
    Text.ParseUsize(s).GetOr(0)
  }

  /** `captures.get(i).map_or(0, convert_match_to_int)` */
  function GroupInt(c: Captures, i: nat): nat {
    match Group(c, i)
    case None => 0
    case Some(s) => ConvertMatchToInt(s)
  }

  /**
   * A missing group reads as 0, and a group holding the decimal text of a
   * `usize` value reads as that value.
   */
  lemma GroupIntOfCaptures(c: Captures, i: nat, n: nat)
    ensures Group(c, i).None? ==> GroupInt(c, i) == 0
    ensures Group(c, i) == Some(Text.DecimalString(n)) && n <= Text.USIZE_MAX ==> GroupInt(c, i) == n
  {
    if Group(c, i) == Some(Text.DecimalString(n)) && n <= Text.USIZE_MAX {
      ConvertMatchToIntOfDecimal(n);
    }
  }

  /** The result token the log writes for a status, for the five statuses that have one. */
  function StatusToken(status: LogfilePlayerStatus): Option<string> {
    match status
    case Killed => Some("PS_KILLED")
    case Won => Some("PS_WON")
    case Conceded => Some("PS_CONCEDED")
    case Playing => Some("PS_PLAYING")
    case Outofsync => Some("PS_OUTOFSYNC")
    case _ => None
  }

  /**
   * `convert_match_to_status`: a total lookup. A recognised status is the one
   * whose token is the text; every other text is Unknown; Dropped never comes
   * from a token.
   */
  function ConvertMatchToStatus(s: string): (r: LogfilePlayerStatus)
    ensures r != Dropped
    ensures r != Unknown ==> StatusToken(r) == Some(s)
    ensures r == Unknown <==> forall st: LogfilePlayerStatus :: StatusToken(st) != Some(s)
  {
    match s
    case "PS_KILLED" => Killed
    case "PS_WON" => Won
    case "PS_CONCEDED" => Conceded
    case "PS_PLAYING" => Playing
    case "PS_OUTOFSYNC" => Outofsync
    case _ => Unknown
  }

  /** Every status with a token is read back from that token. */
  lemma StatusTokenRoundTrip(status: LogfilePlayerStatus)
    requires StatusToken(status).Some?
    ensures ConvertMatchToStatus(StatusToken(status).value) == status
  {
  }

  /** A decimal number that fits in a `usize` converts to itself. */
  lemma ConvertMatchToIntOfDecimal(n: nat)
    requires n <= Text.USIZE_MAX
    ensures ConvertMatchToInt(Text.DecimalString(n)) == n
  {
    Text.ParseUsizeOfDecimalString(n);
  }

  /** A text with a non-digit character (a leading `+` aside) converts to 0. */
  lemma ConvertMatchToIntRejectsNonDigit(s: string, i: nat)
    requires i < |s| && !Text.IsDigit(s[i]) && !(i == 0 && s[0] == '+')
    ensures ConvertMatchToInt(s) == 0
  {
    Text.ParseUsizeRejectsNonDigit(s, i);
  }

  /** A number too large for a `usize` converts to 0. */
  lemma ConvertMatchToIntOverflow(n: nat)
    requires n > Text.USIZE_MAX
    ensures ConvertMatchToInt(Text.DecimalString(n)) == 0
  {
    Text.ParseUsizeOverflow(n);
  }

  /**
   * `LogfilePlayerInfo::parse(&mut self, captures, alt)`, as the player before
   * and after. The dropped-player shape (`alt`) sets sim id, race and team
   * from groups 1 to 3 and forces Dropped, leaving the relic id alone; the
   * normal shape also takes the relic id from group 4 and the status from the
   * token in group 5. Steam id and slot are never touched.
   */
  function Parse(p: LogfilePlayerInfo, c: Captures, alt: bool): (r: LogfilePlayerInfo)
    ensures r.simId == GroupInt(c, 1) && r.race == GroupInt(c, 2) && r.teamId == GroupInt(c, 3)
    ensures r.steamId == p.steamId && r.slot == p.slot
    ensures alt ==> r.status == Dropped && r.relicId == p.relicId
    ensures !alt ==> r.relicId == GroupInt(c, 4) && r.status != Dropped
    ensures !alt ==> (Group(c, 5).None? ==> r.status == Unknown)
    ensures !alt && Group(c, 5).Some? ==> r.status == ConvertMatchToStatus(Group(c, 5).value)
  {
    var simId, race, teamId := GroupInt(c, 1), GroupInt(c, 2), GroupInt(c, 3);
    if alt then
      p.(simId := simId, race := race, teamId := teamId, status := Dropped)
    else
      p.(simId := simId, race := race, teamId := teamId, relicId := GroupInt(c, 4),
         status := match Group(c, 5) { case None => Unknown case Some(s) => ConvertMatchToStatus(s) })
  }

  /**
   * The captures of "SimID:1001, raceID:4, teamID:0, uid:0:11718717,
   * result:3:PS_KILLED" give sim 1001, race 4, team 0, relic 11718717, Killed.
   */
  lemma ParseKilledPlayerLine()
    ensures Parse(NewPlayer, [Some("SimID:1001, raceID:4, teamID:0, uid:0:11718717, result:3:PS_KILLED"),
                              Some("1001"), Some("4"), Some("0"), Some("11718717"), Some("PS_KILLED")], false)
            == LogfilePlayerInfo(1001, 4, 0, 11718717, 0, 0, Killed)
  {
    assert Text.DecimalString(1) == "1";
    assert Text.DecimalString(10) == "10";
    assert Text.DecimalString(100) == "100";
    assert Text.DecimalString(1001) == "1001";
    ConvertMatchToIntOfDecimal(1001);
    assert Text.DecimalString(4) == "4";
    ConvertMatchToIntOfDecimal(4);
    assert Text.DecimalString(0) == "0";
    ConvertMatchToIntOfDecimal(0);
    assert Text.DecimalString(11) == "11";
    assert Text.DecimalString(117) == "117";
    assert Text.DecimalString(1171) == "1171";
    assert Text.DecimalString(11718) == "11718";
    assert Text.DecimalString(117187) == "117187";
    assert Text.DecimalString(1171871) == "1171871";
    assert Text.DecimalString(11718717) == "11718717";
    ConvertMatchToIntOfDecimal(11718717);
  }

  /**
   * The captures of the dropped-player shape "SimID:1000, raceID:4,
   * teamID:1, uid:[00000000:0098c7db]" give sim 1000, race 4, team 1, Dropped.
   */
  lemma ParseDroppedPlayerLine()
    ensures Parse(NewPlayer, [Some("SimID:1000, raceID:4, teamID:1, uid:[00000000:0098c7db]"),
                              Some("1000"), Some("4"), Some("1"), Some("0098c7db")], true)
            == LogfilePlayerInfo(1000, 4, 1, 0, 0, 0, Dropped)
  {
    assert Text.DecimalString(1) == "1";
    assert Text.DecimalString(10) == "10";
    assert Text.DecimalString(100) == "100";
    assert Text.DecimalString(1000) == "1000";
    ConvertMatchToIntOfDecimal(1000);
    assert Text.DecimalString(4) == "4";
    ConvertMatchToIntOfDecimal(4);
    assert Text.DecimalString(1) == "1";
    ConvertMatchToIntOfDecimal(1);
  }

  /** A player record as decoded from the replay (`chunky::Player`). */
  datatype ReplayPlayer = ReplayPlayer(
    name: string,
    kind: nat,
    team: nat,
    relicId: nat,
    rank: nat,
    cpu: nat,
    hero: nat,
    primaryColor: nat,
    secondaryColor: nat,
    trimColor: nat,
    accessoryColor: nat,
    skinPath: string,
    skinName: string,
    id: nat)

  datatype ExtendedPlayerInformation = ExtendedPlayerInformation(
    slot: nat,
    steamId: nat,
    simId: nat,
    status: LogfilePlayerStatus,
    name: string,
    kind: nat,
    team: nat,
    race: nat,
    relicId: nat,
    rank: nat,
    cpu: nat,
    hero: nat,
    primaryColor: nat,
    secondaryColor: nat,
    trimColor: nat,
    accessoryColor: nat,
    skinPath: string,
    skinName: string,
    id: nat)

  /** `ExtendedPlayerInformation::default()` */
  const DefaultExtendedPlayer := ExtendedPlayerInformation(0, 0, 0, Unknown, "", 0, 0, 0, 0, 0, 0, 0, 0, 0, 0, 0, "", "", 0)

  /** The replay's view of a merged player: the fields that come from the replay record. */
  function ReplayPart(e: ExtendedPlayerInformation): ReplayPlayer {
    ReplayPlayer(e.name, e.kind, e.team, e.relicId, e.rank, e.cpu, e.hero, e.primaryColor,
                 e.secondaryColor, e.trimColor, e.accessoryColor, e.skinPath, e.skinName, e.id)
  }

  /** The log's contribution to a merged player. */
  predicate CarriesLogFields(e: ExtendedPlayerInformation, l: LogfilePlayerInfo) {
    e.slot == l.slot && e.steamId == l.steamId && e.simId == l.simId && e.status == l.status && e.race == l.race
  }

  /**
   * `ExtendedPlayerInformation::from`: slot, steam id, sim id, status and race
   * from the log player, everything else (the relic id included) from the
   * replay player, which can be read back unchanged.
   */
  function ExtendedFrom(l: LogfilePlayerInfo, p: ReplayPlayer): (r: ExtendedPlayerInformation)
    ensures CarriesLogFields(r, l)
    ensures ReplayPart(r) == p
  {
    ExtendedPlayerInformation(l.slot, l.steamId, l.simId, l.status, p.name, p.kind, p.team, l.race,
                              p.relicId, p.rank, p.cpu, p.hero, p.primaryColor, p.secondaryColor,
                              p.trimColor, p.accessoryColor, p.skinPath, p.skinName, p.id)
  }
}
