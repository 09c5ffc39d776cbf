/**
 * Reconstruction of match records from the game's diagnostic log: the
 * inclusion filter applied when the log is read, and the state machine that
 * walks the retained lines, opening, updating and completing match records
 * and correlating player identities through a table keyed by steam id.
 */
module Logfile {
  import opened Wrappers
  import Text
  import opened PlayerInfo

  // ---------------------------------------------------------------------
  // Reading: the inclusion filter
  // ---------------------------------------------------------------------

  /** The literal texts of which a line must contain at least one to be kept. */
  const LOGFILE_FILTER_PATTERNS: seq<string> := [
    "Beginning mission",
    "Ending mission",
    "GAME -- Frame",
    "ReportSimStats",
    "ReportMatchStatsForPVP - SimID",
    "PlayerInfo",
    "Match Started",
    "MOD -- Game Over at frame",
    "LoadArbitrator::UpdateLoadProgress - info",
    "Found profile"
  ]

  /** `contains_desired_content`: the line contains one of the filter texts. */
  predicate ContainsDesiredContent(line: string) {
    exists i :: 0 <= i < |LOGFILE_FILTER_PATTERNS| && Text.Contains(line, LOGFILE_FILTER_PATTERNS[i])
  }

  /** The decoded lines that pass the filter, in their original order. */
  function FilterLines(lines: seq<string>): (r: seq<string>)
    ensures |r| <= |lines|
    ensures forall j :: 0 <= j < |r| ==> r[j] in lines && ContainsDesiredContent(r[j])
  {
    if lines == [] then []
    else (if ContainsDesiredContent(lines[0]) then [lines[0]] else []) + FilterLines(lines[1..])
  }

  /** Filtering is line by line: the kept lines of two parts, one after the other. */
  lemma {:induction false} FilterLinesConcat(a: seq<string>, b: seq<string>)
    ensures FilterLines(a + b) == FilterLines(a) + FilterLines(b)
  {
    if a == [] {
      assert a + b == b;
    } else {
      assert (a + b)[1..] == a[1..] + b;
      FilterLinesConcat(a[1..], b);
    }
  }

  /** No line with desired content is dropped. */
  lemma {:induction false} FilterLinesKeepsDesired(lines: seq<string>, j: nat)
    requires j < |lines| && ContainsDesiredContent(lines[j])
    ensures lines[j] in FilterLines(lines)
  {
    if j > 0 {
      FilterLinesKeepsDesired(lines[1..], j - 1);
    }
  }

  // ---------------------------------------------------------------------
  // Classified lines
  // ---------------------------------------------------------------------

  /** The ten structural line shapes, in the order the source lists them. */
  datatype PatternKind =
    | MatchStarted          // lobby line: per-match user id, steam id, slot
    | BeginningMission      // map name (numbers of humans and computers unused)
    | GameFrame             // frame marker, carries nothing
    | PlayerResult          // sim id, race, team, relic id, result token
    | DroppedPlayerResult   // sim id, race, team, bracketed user id
    | SimStatsReported      // the match's relic id
    | EndingMission         // termination status text
    | GameOverAtFrame       // final frame count
    | ProfileMapping        // relic id and steam id of one player
    | FoundProfile          // the local player's own steam id

  /** One pattern that a line matched, with that match's capture groups. */
  datatype PatternMatch = PatternMatch(kind: PatternKind, captures: Captures)

  /**
   * The compiled pattern set: for a line, one entry per structural pattern
   * that the line matches.
   */
  type Classifier = string -> seq<PatternMatch>

  // ---------------------------------------------------------------------
  // Records and parser state
  // ---------------------------------------------------------------------

  datatype LogfileGameInfo = LogfileGameInfo(
    aborted: bool,
    id: nat,
    mapName: string,
    frames: nat,
    endedAt: string,
    winner: nat,
    players: seq<LogfilePlayerInfo>,
    complete: bool)

  /** `LogfileGameInfo::new()` */
  const NewGame := LogfileGameInfo(false, 0, "", 0, "", 0, [], false)

  /** `block_complete`: the record's termination line has been seen. */
  predicate BlockComplete(g: LogfileGameInfo) {
    g.complete
  }

  /** One entry of the identity table. */
  datatype SteamIdMap = SteamIdMap(relicId: nat, slot: nat, uid: string)

  /** The identity table (`match_header`), keyed by steam id. */
  type MatchHeader = map<nat, SteamIdMap>

  datatype ParserAppError =
    | LogfileNotFoundError
    | LogfileParseError(message: string)
    | GenericError(message: string)

  /** How parsing ends: normally, with an error value, or by a panic of an `unwrap`. */
  datatype ParseResult = Ok | Err(error: ParserAppError) | Panic

  /** Everything one parse works on: the record list, the own steam id and the identity table. */
  datatype ParseState = ParseState(games: seq<LogfileGameInfo>, steamId: nat, header: MatchHeader)

  datatype StepResult = StepResult(state: ParseState, result: ParseResult)

  function Fail(st: ParseState, message: string): StepResult {
    StepResult(st, Err(LogfileParseError(message)))
  }

  function Last(games: seq<LogfileGameInfo>): LogfileGameInfo
    requires games != []
  {
    games[|games| - 1]
  }

  function WithLast(games: seq<LogfileGameInfo>, g: LogfileGameInfo): seq<LogfileGameInfo>
    requires games != []
  {
    games[|games| - 1 := g]
  }

  // ---------------------------------------------------------------------
  // One line
  // ---------------------------------------------------------------------

  /** A lobby line sets the entry of its steam id to the slot and user id, with relic id 0. */
  function OnMatchStarted(st: ParseState, c: Captures): StepResult {
    if Group(c, 1).None? then Fail(st, "Could not parse user id from match header block")
    else if Group(c, 2).None? then Fail(st, "Could not parse steam id from match header block")
    else if Group(c, 3).None? then Fail(st, "Could not parse slot number from match header block")
    else
      var steamId := Text.ParseUsize(Group(c, 2).value).GetOr(0);
      var slot := Text.ParseUsize(Group(c, 3).value).GetOr(0);
      StepResult(st.(header := st.header[steamId := SteamIdMap(0, slot, Group(c, 1).value)]), Ok)
  }

  /**
   * A mission start opens a new record when there is none or the last one is
   * complete, and otherwise reuses the open one; then it sets the map. A
   * missing map group is reported after the record was opened.
   */
  function OnBeginningMission(st: ParseState, c: Captures): StepResult {
    var games := if st.games == [] || BlockComplete(Last(st.games)) then st.games + [NewGame] else st.games;
    match Group(c, 1)
    case None => Fail(st.(games := games), "Could not parse map from logfile")
    case Some(m) => StepResult(st.(games := WithLast(games, Last(games).(mapName := m))), Ok)
  }

  /** Fills in steam id and slot from the entry `pick`, when there is one. */
  function ResolveByRelicId(header: MatchHeader, p: LogfilePlayerInfo, pick: Option<nat>): LogfilePlayerInfo {
    if pick.Some? && pick.value in header then p.(steamId := pick.value, slot := header[pick.value].slot)
    else p
  }

  /** Fills in steam id, slot and relic id from the entry `pick`, when there is one. */
  function ResolveByUid(header: MatchHeader, p: LogfilePlayerInfo, pick: Option<nat>): LogfilePlayerInfo {
    if pick.Some? && pick.value in header
    then p.(steamId := pick.value, slot := header[pick.value].slot, relicId := header[pick.value].relicId)
    else p
  }

  function AppendPlayer(st: ParseState, p: LogfilePlayerInfo): ParseState
    requires st.games != []
  {
    st.(games := WithLast(st.games, Last(st.games).(players := Last(st.games).players + [p])))
  }

  /** A normal result line adds a player to the open record, resolved by relic id. */
  function OnPlayerResult(st: ParseState, c: Captures, pick: Option<nat>): StepResult {
    if st.games == [] then StepResult(st, Ok)
    else StepResult(AppendPlayer(st, ResolveByRelicId(st.header, Parse(NewPlayer, c, false), pick)), Ok)
  }

  /** A dropped-player line adds a player to the open record, resolved by user id. */
  function OnDroppedPlayerResult(st: ParseState, c: Captures, pick: Option<nat>): StepResult {
    if st.games == [] then StepResult(st, Ok)
    else if Group(c, 4).None? then StepResult(st, Panic)
    else StepResult(AppendPlayer(st, ResolveByUid(st.header, Parse(NewPlayer, c, true), pick)), Ok)
  }

  /** The match's relic id, set on the last record. */
  function OnSimStatsReported(st: ParseState, c: Captures): StepResult {
    if st.games == [] then StepResult(st, Ok)
    else if Group(c, 1).None? then Fail(st, "Could not extract match relic id from logfile")
    else match Text.ParseUsize(Group(c, 1).value)
      case None => Fail(st, "Could not parse match relic id in logfile")
      case Some(id) => StepResult(st.(games := WithLast(st.games, Last(st.games).(id := id))), Ok)
  }

  /**
   * The `aborted` flag a termination status gives: only "Game over" is a
   * regular end; "Abort", any other text and a missing status are aborts.
   */
  function EndingAborted(status: Option<string>): (aborted: bool)
    ensures !aborted <==> status == Some("Game over")
  {
    match status
    case Some("Game over") => false
    case Some("Abort") => true
    case Some(_) => true
    case None => true
  }

  /** A termination line completes the last record. */
  function OnEndingMission(st: ParseState, c: Captures): StepResult {
    if st.games == [] then StepResult(st, Ok)
    else StepResult(st.(games := WithLast(st.games, Last(st.games).(aborted := EndingAborted(Group(c, 1)), complete := true))), Ok)
  }

  /** The final frame count, set on the last record. */
  function OnGameOverAtFrame(st: ParseState, c: Captures): StepResult {
    if st.games == [] then StepResult(st, Ok)
    else if Group(c, 1).None? then Fail(st, "Could not extract number of frames from logfile")
    else match Text.ParseUsize(Group(c, 1).value)
      case None => Fail(st, "Could not parse number of frames from logfile")
      case Some(frames) => StepResult(st.(games := WithLast(st.games, Last(st.games).(frames := frames))), Ok)
  }

  /**
   * A profile line sets the relic id of its steam id's entry, creating the
   * entry with slot 0 and an empty user id when there is none. Numbers that
   * do not parse make the `unwrap` panic.
   */
  function OnProfileMapping(st: ParseState, c: Captures): StepResult {
    if Group(c, 1).None? then Fail(st, "Could not parse relic id from logfile")
    else if Group(c, 2).None? then Fail(st, "Could not parse steam id from logfile")
    else
      var steamId := Text.ParseUsize(Group(c, 2).value);
      var relicId := Text.ParseUsize(Group(c, 1).value);
      if steamId.None? || relicId.None? then StepResult(st, Panic)
      else if steamId.value in st.header then
        StepResult(st.(header := st.header[steamId.value := st.header[steamId.value].(relicId := relicId.value)]), Ok)
      else
        StepResult(st.(header := st.header[steamId.value := SteamIdMap(relicId.value, 0, "")]), Ok)
  }

  /** The local player's own steam id, kept at list level. */
  function OnFoundProfile(st: ParseState, c: Captures): StepResult {
    if Group(c, 1).None? then Fail(st, "could not find player profile steam id in logfile")
    else match Text.ParseUsize(Group(c, 1).value)
      case Some(steamId) => StepResult(st.(steamId := steamId), Ok)
      case None => Fail(st, "could not read player profile steam id from logfile")
  }

  /**
   * One retained line, given the patterns it matched. A line that matched no
   * pattern or several is an error. `pick` is the identity-table key that the
   * table's iteration found for a player line (see ValidPick).
   */
  function Step(st: ParseState, line: seq<PatternMatch>, pick: Option<nat>): StepResult {
    if |line| != 1 then Fail(st, "Found more than 1 game to parse")
    else
      var c := line[0].captures;
      match line[0].kind
      case MatchStarted => OnMatchStarted(st, c)
      case BeginningMission => OnBeginningMission(st, c)
      case GameFrame => StepResult(st, Ok)
      case PlayerResult => OnPlayerResult(st, c, pick)
      case DroppedPlayerResult => OnDroppedPlayerResult(st, c, pick)
      case SimStatsReported => OnSimStatsReported(st, c)
      case EndingMission => OnEndingMission(st, c)
      case GameOverAtFrame => OnGameOverAtFrame(st, c)
      case ProfileMapping => OnProfileMapping(st, c)
      case FoundProfile => OnFoundProfile(st, c)
  }

  /** Keys whose entry carries the given relic id. */
  ghost function RelicIdCandidates(header: MatchHeader, relicId: nat): set<nat> {
    set k | k in header && header[k].relicId == relicId
  }

  /** Keys whose entry carries the given per-match user id. */
  ghost function UidCandidates(header: MatchHeader, uid: string): set<nat> {
    set k | k in header && header[k].uid == uid
  }

  /**
   * A lookup returns some matching key (which one depends on the hash table's
   * iteration order), and nothing only when no key matches.
   */
  ghost predicate PickFrom(candidates: set<nat>, pick: Option<nat>) {
    if candidates == {} then pick == None else pick.Some? && pick.value in candidates
  }

  /** The table keys a player line may be resolved to; no lookup is made for other lines. */
  ghost function Candidates(st: ParseState, line: seq<PatternMatch>): set<nat> {
    if |line| != 1 || st.games == [] then {}
    else
      var c := line[0].captures;
      match line[0].kind
      case PlayerResult => RelicIdCandidates(st.header, GroupInt(c, 4))
      case DroppedPlayerResult => if Group(c, 4).None? then {} else UidCandidates(st.header, Group(c, 4).value)
      case _ => {}
  }

  ghost predicate ValidPick(st: ParseState, line: seq<PatternMatch>, pick: Option<nat>) {
    PickFrom(Candidates(st, line), pick)
  }

  // ---------------------------------------------------------------------
  // The whole log
  // ---------------------------------------------------------------------

  /** The lines one after the other, stopping at the first that fails. */
  function Run(classify: Classifier, st: ParseState, content: seq<string>, picks: seq<Option<nat>>): StepResult
    requires |picks| == |content|
    decreases |content|
  {
    if content == [] then StepResult(st, Ok)
    else
      var prev := Run(classify, st, content[..|content| - 1], picks[..|picks| - 1]);
      if prev.result != Ok then prev
      else Step(prev.state, classify(content[|content| - 1]), picks[|picks| - 1])
  }

  /** Every lookup made before the run stopped picked a matching entry. */
  ghost predicate ValidPicks(classify: Classifier, st: ParseState, content: seq<string>, picks: seq<Option<nat>>)
    requires |picks| == |content|
    decreases |content|
  {
    content == [] ||
    (ValidPicks(classify, st, content[..|content| - 1], picks[..|picks| - 1]) &&
     var prev := Run(classify, st, content[..|content| - 1], picks[..|picks| - 1]);
     (prev.result == Ok ==> ValidPick(prev.state, classify(content[|content| - 1]), picks[|picks| - 1])))
  }

  /** The run and its lookups over one more line. */
  lemma RunOneMore(classify: Classifier, st: ParseState, content: seq<string>, picks: seq<Option<nat>>, pick: Option<nat>)
    requires |picks| < |content|
    ensures var i := |picks|;
            var prev := Run(classify, st, content[..i], picks);
            && Run(classify, st, content[..i + 1], picks + [pick])
               == (if prev.result != Ok then prev else Step(prev.state, classify(content[i]), pick))
            && (ValidPicks(classify, st, content[..i + 1], picks + [pick])
                <==> ValidPicks(classify, st, content[..i], picks)
                     && (prev.result == Ok ==> ValidPick(prev.state, classify(content[i]), pick)))
  {
    var i := |picks|;
    assert content[..i + 1][..i] == content[..i];
    assert (picks + [pick])[..i] == picks;
  }

  /** Once a line has failed, the lines after it change nothing. */
  lemma {:induction false} RunStopsAtError(classify: Classifier, st: ParseState, content: seq<string>, picks: seq<Option<nat>>, i: nat)
    requires |picks| == |content| && i <= |content|
    requires Run(classify, st, content[..i], picks[..i]).result != Ok
    ensures Run(classify, st, content, picks) == Run(classify, st, content[..i], picks[..i])
    decreases |content| - i
  {
    if i < |content| {
      var n := |content|;
      assert content[..n - 1][..i] == content[..i];
      assert picks[..n - 1][..i] == picks[..i];
      RunStopsAtError(classify, st, content[..n - 1], picks[..n - 1], i);
    } else {
      assert content[..i] == content;
      assert picks[..i] == picks;
    }
  }

  /** Lookups after the failing line are not made, so any picks for them are valid. */
  lemma {:induction false} ValidPicksAfterError(classify: Classifier, st: ParseState, content: seq<string>, picks: seq<Option<nat>>, i: nat)
    requires |picks| == |content| && i <= |content|
    requires ValidPicks(classify, st, content[..i], picks[..i])
    requires Run(classify, st, content[..i], picks[..i]).result != Ok
    ensures ValidPicks(classify, st, content, picks)
    decreases |content| - i
  {
    if i < |content| {
      var n := |content|;
      assert content[..n - 1][..i] == content[..i];
      assert picks[..n - 1][..i] == picks[..i];
      ValidPicksAfterError(classify, st, content[..n - 1], picks[..n - 1], i);
      RunStopsAtError(classify, st, content[..n - 1], picks[..n - 1], i);
    } else {
      assert content[..i] == content;
      assert picks[..i] == picks;
    }
  }

  // ---------------------------------------------------------------------
  // The imperative parser
  // ---------------------------------------------------------------------

  /** What reading the log file produced. */
  datatype LogfileSource =
    | Missing                     // the path does not exist
    | Unreadable(reason: string)  // an I/O or UTF-8 error while reading
    | Decoded(lines: seq<string>) // the decoded text, split into lines

  /**
   * Finds, in the table's (unspecified) iteration order, the first key whose
   * entry satisfies `matches`.
   */
  method FindSteamId(header: MatchHeader, matches: SteamIdMap -> bool) returns (found: Option<nat>)
    ensures found.Some? ==> found.value in header && matches(header[found.value])
    ensures found.None? ==> forall k :: k in header ==> !matches(header[k])
  {
    var keys := header.Keys;
    while keys != {}
      invariant keys <= header.Keys
      invariant forall k :: k in header && k !in keys ==> !matches(header[k])
      decreases keys
    {
      var k :| k in keys;
      if matches(header[k]) {
        return Some(k);
      }
      keys := keys - {k};
    }
    return None;
  }

  class LogfileGameList {
    var logfileContent: seq<string>
    var games: seq<LogfileGameInfo>
    var steamId: nat

    constructor ()
      ensures logfileContent == [] && games == [] && steamId == 0
    {
      logfileContent := [];
      games := [];
      steamId := 0;
    }

    /** `read_logfile`, from what reading the file produced: keeps the lines that pass the filter. */
    method ReadLogfile(source: LogfileSource) returns (result: ParseResult)
      modifies this
      ensures games == old(games) && steamId == old(steamId)
      ensures source.Missing? ==> result == Err(LogfileNotFoundError) && logfileContent == old(logfileContent)
      ensures source.Unreadable? ==> result == Err(GenericError(source.reason)) && logfileContent == old(logfileContent)
      ensures source.Decoded? ==> result == Ok && logfileContent == FilterLines(source.lines)
    {
      match source
      case Missing =>
        return Err(LogfileNotFoundError);
      case Unreadable(reason) =>
        return Err(GenericError(reason));
      case Decoded(lines) =>
        logfileContent := FilterLines(lines);
        return Ok;
    }

    /**
     * `parse`: walks the retained lines with a fresh identity table, changing
     * the record list and the own steam id in place, and stops at the first
     * line that fails. `picks` records, per line, the key each identity
     * lookup returned.
     */
    method Parse(classify: Classifier) returns (result: ParseResult, ghost picks: seq<Option<nat>>)
      modifies this
      ensures logfileContent == old(logfileContent) && |picks| == |logfileContent|
      ensures ValidPicks(classify, ParseState(old(games), old(steamId), map[]), logfileContent, picks)
      ensures var out := Run(classify, ParseState(old(games), old(steamId), map[]), logfileContent, picks);
              result == out.result && games == out.state.games && steamId == out.state.steamId
    {
      ghost var st0 := ParseState(games, steamId, map[]);
      var header: MatchHeader := map[];
      var i := 0;
      result := Ok;
      picks := [];
      while i < |logfileContent| && result == Ok
        invariant logfileContent == old(logfileContent)
        invariant 0 <= i <= |logfileContent| && |picks| == i
        invariant ValidPicks(classify, st0, logfileContent[..i], picks)
        invariant Run(classify, st0, logfileContent[..i], picks) == StepResult(ParseState(games, steamId, header), result)
      {
        var line := classify(logfileContent[i]);
        ghost var pick;
        header, result, pick := HandleLine(header, line);
        RunOneMore(classify, st0, logfileContent, picks, pick);
        picks := picks + [pick];
        i := i + 1;
      }
      if i < |logfileContent| {
        var n := |logfileContent|;
        ghost var all := picks + seq(n - i, _ => None);
        assert all[..i] == picks;
        RunStopsAtError(classify, st0, logfileContent, all, i);
        ValidPicksAfterError(classify, st0, logfileContent, all, i);
        picks := all;
      } else {
        assert logfileContent[..i] == logfileContent;
      }
    }

    /**
     * One iteration of the loop: dispatches the line's single match to its
     * arm, or reports a line that matched no pattern or several.
     */
    method HandleLine(header: MatchHeader, line: seq<PatternMatch>) returns (next: MatchHeader, result: ParseResult, ghost pick: Option<nat>)
      modifies this`games, this`steamId
      ensures ValidPick(ParseState(old(games), old(steamId), header), line, pick)
      ensures Step(ParseState(old(games), old(steamId), header), line, pick) == StepResult(ParseState(games, steamId, next), result)
    {
      next, pick := header, None;
      if |line| != 1 {
        result := Err(LogfileParseError("Found more than 1 game to parse"));
      } else {
        var c := line[0].captures;
        match line[0].kind {
          case MatchStarted =>
            next, result := HandleMatchStarted(header, c);
          case BeginningMission =>
            result := HandleBeginningMission(header, c);
          case GameFrame =>
            result := Ok;
          case PlayerResult =>
            result, pick := HandlePlayerResult(header, c);
          case DroppedPlayerResult =>
            result, pick := HandleDroppedPlayerResult(header, c);
          case SimStatsReported =>
            result := HandleSimStatsReported(header, c);
          case EndingMission =>
            result := HandleEndingMission(header, c);
          case GameOverAtFrame =>
            result := HandleGameOverAtFrame(header, c);
          case ProfileMapping =>
            next, result := HandleProfileMapping(header, c);
          case FoundProfile =>
            result := HandleFoundProfile(header, c);
        }
      }
    }

    /** The lobby-line arm: upserts the table entry of the line's steam id. */
    method HandleMatchStarted(header: MatchHeader, c: Captures) returns (next: MatchHeader, result: ParseResult)
      ensures OnMatchStarted(ParseState(games, steamId, header), c) == StepResult(ParseState(games, steamId, next), result)
    {
      next, result := header, Ok;
      if Group(c, 1).None? {
        result := Err(LogfileParseError("Could not parse user id from match header block"));
      } else if Group(c, 2).None? {
        result := Err(LogfileParseError("Could not parse steam id from match header block"));
      } else if Group(c, 3).None? {
        result := Err(LogfileParseError("Could not parse slot number from match header block"));
      } else {
        var uid := Group(c, 1).value;
        var steam := Text.ParseUsize(Group(c, 2).value).GetOr(0);
        var slot := Text.ParseUsize(Group(c, 3).value).GetOr(0);
        next := header[steam := SteamIdMap(0, slot, uid)];
      }
    }

    /** The mission-start arm: opens a record unless the last one is still open, then sets its map. */
    method HandleBeginningMission(header: MatchHeader, c: Captures) returns (result: ParseResult)
      modifies this`games
      ensures OnBeginningMission(ParseState(old(games), steamId, header), c) == StepResult(ParseState(games, steamId, header), result)
    {
      result := Ok;
      if games == [] || BlockComplete(games[|games| - 1]) {
        games := games + [NewGame];
      }
      if Group(c, 1).None? {
        result := Err(LogfileParseError("Could not parse map from logfile"));
      } else {
        var len := |games| - 1;
        games := games[len := games[len].(mapName := Group(c, 1).value)];
      }
    }

    /** The normal result-line arm: appends the player, resolved by relic id, to the last record. */
    method HandlePlayerResult(header: MatchHeader, c: Captures) returns (result: ParseResult, ghost pick: Option<nat>)
      modifies this`games
      ensures old(games) != [] ==> PickFrom(RelicIdCandidates(header, GroupInt(c, 4)), pick)
      ensures old(games) == [] ==> pick == None
      ensures OnPlayerResult(ParseState(old(games), steamId, header), c, pick) == StepResult(ParseState(games, steamId, header), result)
    {
      result, pick := Ok, None;
      if games != [] {
        var player := PlayerInfo.Parse(NewPlayer, c, false);
        var found := FindSteamId(header, (e: SteamIdMap) => e.relicId == player.relicId);
        pick := found;
        if found.Some? {
          assert found.value in RelicIdCandidates(header, GroupInt(c, 4));
          player := player.(steamId := found.value, slot := header[found.value].slot);
        }
        var len := |games| - 1;
        games := games[len := games[len].(players := games[len].players + [player])];
      }
    }

    /** The dropped-player arm: appends the player, resolved by user id, to the last record. */
    method HandleDroppedPlayerResult(header: MatchHeader, c: Captures) returns (result: ParseResult, ghost pick: Option<nat>)
      modifies this`games
      ensures old(games) != [] && Group(c, 4).Some? ==> PickFrom(UidCandidates(header, Group(c, 4).value), pick)
      ensures old(games) == [] || Group(c, 4).None? ==> pick == None
      ensures OnDroppedPlayerResult(ParseState(old(games), steamId, header), c, pick) == StepResult(ParseState(games, steamId, header), result)
    {
      result, pick := Ok, None;
      if games != [] {
        var player := PlayerInfo.Parse(NewPlayer, c, true);
        if Group(c, 4).None? {
          result := Panic;
        } else {
          var uid := Group(c, 4).value;
          var found := FindSteamId(header, (e: SteamIdMap) => e.uid == uid);
          pick := found;
          if found.Some? {
            assert found.value in UidCandidates(header, uid);
            var entry := header[found.value];
            player := player.(steamId := found.value, slot := entry.slot, relicId := entry.relicId);
          }
          var len := |games| - 1;
          games := games[len := games[len].(players := games[len].players + [player])];
        }
      }
    }

    /** The match-id arm: sets the relic match id of the last record. */
    method HandleSimStatsReported(header: MatchHeader, c: Captures) returns (result: ParseResult)
      modifies this`games
      ensures OnSimStatsReported(ParseState(old(games), steamId, header), c) == StepResult(ParseState(games, steamId, header), result)
    {
      result := Ok;
      if games != [] {
        if Group(c, 1).None? {
          result := Err(LogfileParseError("Could not extract match relic id from logfile"));
        } else {
          var id := Text.ParseUsize(Group(c, 1).value);
          if id.None? {
            result := Err(LogfileParseError("Could not parse match relic id in logfile"));
          } else {
            var len := |games| - 1;
            games := games[len := games[len].(id := id.value)];
          }
        }
      }
    }

    /** The termination arm: completes the last record and records whether it was aborted. */
    method HandleEndingMission(header: MatchHeader, c: Captures) returns (result: ParseResult)
      modifies this`games
      ensures OnEndingMission(ParseState(old(games), steamId, header), c) == StepResult(ParseState(games, steamId, header), result)
    {
      result := Ok;
      if games != [] {
        var len := |games| - 1;
        var aborted := EndingAborted(Group(c, 1));
        games := games[len := games[len].(aborted := aborted, complete := true)];
      }
    }

    /** The frame-count arm: sets the frame count of the last record. */
    method HandleGameOverAtFrame(header: MatchHeader, c: Captures) returns (result: ParseResult)
      modifies this`games
      ensures OnGameOverAtFrame(ParseState(old(games), steamId, header), c) == StepResult(ParseState(games, steamId, header), result)
    {
      result := Ok;
      if games != [] {
        if Group(c, 1).None? {
          result := Err(LogfileParseError("Could not extract number of frames from logfile"));
        } else {
          var frames := Text.ParseUsize(Group(c, 1).value);
          if frames.None? {
            result := Err(LogfileParseError("Could not parse number of frames from logfile"));
          } else {
            var len := |games| - 1;
            games := games[len := games[len].(frames := frames.value)];
          }
        }
      }
    }

    /** The profile arm: sets the relic id of the steam id's table entry, creating it if needed. */
    method HandleProfileMapping(header: MatchHeader, c: Captures) returns (next: MatchHeader, result: ParseResult)
      ensures OnProfileMapping(ParseState(games, steamId, header), c) == StepResult(ParseState(games, steamId, next), result)
    {
      next, result := header, Ok;
      if Group(c, 1).None? {
        result := Err(LogfileParseError("Could not parse relic id from logfile"));
      } else if Group(c, 2).None? {
        result := Err(LogfileParseError("Could not parse steam id from logfile"));
      } else {
        var steam := Text.ParseUsize(Group(c, 2).value);
        var relic := Text.ParseUsize(Group(c, 1).value);
        if steam.None? || relic.None? {
          result := Panic;
        } else if steam.value in header {
          next := header[steam.value := header[steam.value].(relicId := relic.value)];
        } else {
          next := header[steam.value := SteamIdMap(relic.value, 0, "")];
        }
      }
    }

    /** The own-profile arm: records the local player's steam id. */
    method HandleFoundProfile(header: MatchHeader, c: Captures) returns (result: ParseResult)
      modifies this`steamId
      ensures OnFoundProfile(ParseState(games, old(steamId), header), c) == StepResult(ParseState(games, steamId, header), result)
    {
      result := Ok;
      if Group(c, 1).None? {
        result := Err(LogfileParseError("could not find player profile steam id in logfile"));
      } else {
        var own := Text.ParseUsize(Group(c, 1).value);
        if own.Some? {
          steamId := own.value;
        } else {
          result := Err(LogfileParseError("could not read player profile steam id from logfile"));
        }
      }
    }
  }
}
