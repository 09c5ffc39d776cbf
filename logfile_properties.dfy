/**
 * What the state machine of module Logfile guarantees, line by line and over
 * a whole log.
 */
module LogfileProperties {
  import opened Wrappers
  import Text
  import opened PlayerInfo
  import opened Logfile

  // ---------------------------------------------------------------------
  // Failing lines
  // ---------------------------------------------------------------------

  /** A line that matched no structural pattern or several fails without touching anything. */
  lemma AmbiguousLineFails(st: ParseState, line: seq<PatternMatch>, pick: Option<nat>)
    requires |line| != 1
    ensures Step(st, line, pick) == StepResult(st, Err(LogfileParseError("Found more than 1 game to parse")))
  {
  }

  /**
   * The outcome of a parse whose line `i` is the first to fail is that line's
   * failure, on the state just after it: nothing later is handled.
   */
  lemma FailingLineEndsParse(classify: Classifier, st: ParseState, content: seq<string>, picks: seq<Option<nat>>, i: nat)
    requires |picks| == |content| && i < |content|
    requires Run(classify, st, content[..i], picks[..i]).result == Ok
    requires Step(Run(classify, st, content[..i], picks[..i]).state, classify(content[i]), picks[i]).result != Ok
    ensures Run(classify, st, content, picks) == Step(Run(classify, st, content[..i], picks[..i]).state, classify(content[i]), picks[i])
  {
    assert content[..i + 1][..i] == content[..i];
    assert picks[..i + 1][..i] == picks[..i];
    RunStopsAtError(classify, st, content, picks, i + 1);
  }

  /** In particular an ambiguous or unrecognised line ends the parse with a parse error. */
  lemma AmbiguousLineEndsParse(classify: Classifier, st: ParseState, content: seq<string>, picks: seq<Option<nat>>, i: nat)
    requires |picks| == |content| && i < |content|
    requires Run(classify, st, content[..i], picks[..i]).result == Ok
    requires |classify(content[i])| != 1
    ensures Run(classify, st, content, picks)
            == StepResult(Run(classify, st, content[..i], picks[..i]).state, Err(LogfileParseError("Found more than 1 game to parse")))
  {
    FailingLineEndsParse(classify, st, content, picks, i);
  }

  // ---------------------------------------------------------------------
  // Record boundaries
  // ---------------------------------------------------------------------

  /** With no record, or the last one complete, a mission start appends a new record with the map. */
  lemma MissionStartOpensRecord(st: ParseState, c: Captures, pick: Option<nat>)
    requires st.games == [] || BlockComplete(Last(st.games))
    ensures var out := Step(st, [PatternMatch(BeginningMission, c)], pick);
            && out.state.header == st.header && out.state.steamId == st.steamId
            && (Group(c, 1).Some? ==> out == StepResult(st.(games := st.games + [NewGame.(mapName := Group(c, 1).value)]), Ok))
            && (Group(c, 1).None? ==> out == Fail(st.(games := st.games + [NewGame]), "Could not parse map from logfile"))
  {
  }

  /** While the last record is open, a mission start opens nothing and only overwrites its map. */
  lemma MissionStartReusesOpenRecord(st: ParseState, c: Captures, pick: Option<nat>)
    requires st.games != [] && !BlockComplete(Last(st.games))
    ensures var out := Step(st, [PatternMatch(BeginningMission, c)], pick);
            && (Group(c, 1).Some? ==> out == StepResult(st.(games := WithLast(st.games, Last(st.games).(mapName := Group(c, 1).value))), Ok))
            && (Group(c, 1).None? ==> out == Fail(st, "Could not parse map from logfile"))
  {
  }

  /** Either way, afterwards there is a record and the last one carries the captured map. */
  lemma MissionStartLeavesMapOnLastRecord(st: ParseState, c: Captures, pick: Option<nat>)
    ensures var out := Step(st, [PatternMatch(BeginningMission, c)], pick);
            && out.state.games != []
            && (Group(c, 1).Some? ==> out.result == Ok && Last(out.state.games).mapName == Group(c, 1).value)
  {
  }

  /**
   * A termination line completes the last record; it is aborted unless the
   * status is "Game over" ("Abort", any other text and no status at all).
   */
  lemma MissionEndCompletesRecord(st: ParseState, c: Captures, pick: Option<nat>)
    requires st.games != []
    ensures var out := Step(st, [PatternMatch(EndingMission, c)], pick);
            && out.result == Ok
            && out.state.header == st.header && out.state.steamId == st.steamId
            && |out.state.games| == |st.games|
            && out.state.games[..|st.games| - 1] == st.games[..|st.games| - 1]
            && BlockComplete(Last(out.state.games))
            && (Last(out.state.games).aborted <==> Group(c, 1) != Some("Game over"))
            && Last(out.state.games).(aborted := Last(st.games).aborted, complete := Last(st.games).complete) == Last(st.games)
  {
  }

  /** The status texts the source singles out. */
  lemma MissionEndStatuses()
    ensures !EndingAborted(Some("Game over"))
    ensures EndingAborted(Some("Abort"))
    ensures EndingAborted(None)
  {
  }

  /** Lines that edit the last record change nothing at all when there is no record. */
  lemma RecordLinesNeedARecord(st: ParseState, kind: PatternKind, c: Captures, pick: Option<nat>)
    requires st.games == []
    requires kind in {PlayerResult, DroppedPlayerResult, SimStatsReported, EndingMission, GameOverAtFrame}
    ensures Step(st, [PatternMatch(kind, c)], pick) == StepResult(st, Ok)
  {
  }

  /** A match-id line sets only the id of the last record; a missing or unparsable id fails. */
  lemma MatchIdSetsOnlyId(st: ParseState, c: Captures, pick: Option<nat>)
    requires st.games != []
    ensures var out := Step(st, [PatternMatch(SimStatsReported, c)], pick);
            && (Group(c, 1).None? ==> out == Fail(st, "Could not extract match relic id from logfile"))
            && (Group(c, 1).Some? && Text.ParseUsize(Group(c, 1).value).None? ==>
                  out == Fail(st, "Could not parse match relic id in logfile"))
            && (Group(c, 1).Some? && Text.ParseUsize(Group(c, 1).value).Some? ==>
                  out == StepResult(st.(games := WithLast(st.games, Last(st.games).(id := Text.ParseUsize(Group(c, 1).value).value))), Ok))
  {
  }

  /** A frame-count line sets only the frames of the last record; a missing or unparsable count fails. */
  lemma FrameCountSetsOnlyFrames(st: ParseState, c: Captures, pick: Option<nat>)
    requires st.games != []
    ensures var out := Step(st, [PatternMatch(GameOverAtFrame, c)], pick);
            && (Group(c, 1).None? ==> out == Fail(st, "Could not extract number of frames from logfile"))
            && (Group(c, 1).Some? && Text.ParseUsize(Group(c, 1).value).None? ==>
                  out == Fail(st, "Could not parse number of frames from logfile"))
            && (Group(c, 1).Some? && Text.ParseUsize(Group(c, 1).value).Some? ==>
                  out == StepResult(st.(games := WithLast(st.games, Last(st.games).(frames := Text.ParseUsize(Group(c, 1).value).value))), Ok))
  {
  }

  // ---------------------------------------------------------------------
  // Players and identities
  // ---------------------------------------------------------------------

  /** The player appended by a result line of the given shape. */
  function ResultLinePlayer(st: ParseState, kind: PatternKind, c: Captures, pick: Option<nat>): LogfilePlayerInfo
    requires kind == PlayerResult || kind == DroppedPlayerResult
  {
    if kind == PlayerResult then ResolveByRelicId(st.header, Parse(NewPlayer, c, false), pick)
    else ResolveByUid(st.header, Parse(NewPlayer, c, true), pick)
  }

  /**
   * A result line of either shape appends exactly one player at the end of
   * the last record's players and changes nothing else.
   */
  lemma ResultLineAppendsOnePlayer(st: ParseState, kind: PatternKind, c: Captures, pick: Option<nat>)
    requires st.games != []
    requires kind == PlayerResult || (kind == DroppedPlayerResult && Group(c, 4).Some?)
    ensures var out := Step(st, [PatternMatch(kind, c)], pick);
            && out.result == Ok
            && out.state.header == st.header && out.state.steamId == st.steamId
            && |out.state.games| == |st.games|
            && out.state.games[..|st.games| - 1] == st.games[..|st.games| - 1]
            && Last(out.state.games) == Last(st.games).(players := Last(st.games).players + [ResultLinePlayer(st, kind, c, pick)])
  {
  }

  /** A dropped-player line whose user id group is absent panics in `unwrap`. */
  lemma DroppedLineWithoutUidPanics(st: ParseState, c: Captures, pick: Option<nat>)
    requires st.games != [] && Group(c, 4).None?
    ensures Step(st, [PatternMatch(DroppedPlayerResult, c)], pick) == StepResult(st, Panic)
  {
  }

  /**
   * A normal result line's player takes steam id and slot from an entry with
   * its relic id when there is one, and keeps both at 0 otherwise.
   */
  lemma PlayerResolvedByRelicId(st: ParseState, c: Captures, pick: Option<nat>)
    requires st.games != []
    requires ValidPick(st, [PatternMatch(PlayerResult, c)], pick)
    ensures var p := ResultLinePlayer(st, PlayerResult, c, pick);
            && p.simId == GroupInt(c, 1) && p.race == GroupInt(c, 2) && p.teamId == GroupInt(c, 3)
            && p.relicId == GroupInt(c, 4)
            && ((exists k :: k in st.header && st.header[k].relicId == p.relicId) ==>
                  p.steamId in st.header && st.header[p.steamId].relicId == p.relicId && p.slot == st.header[p.steamId].slot)
            && ((forall k :: k in st.header ==> st.header[k].relicId != p.relicId) ==> p.steamId == 0 && p.slot == 0)
  {
    var p := ResultLinePlayer(st, PlayerResult, c, pick);
    if exists k :: k in st.header && st.header[k].relicId == p.relicId {
      var k :| k in st.header && st.header[k].relicId == p.relicId;
      assert k in RelicIdCandidates(st.header, GroupInt(c, 4));
    }
  }

  /**
   * A dropped-player line's player takes steam id, slot and relic id from an
   * entry with its user id when there is one, and keeps all three at 0
   * otherwise; its status is Dropped.
   */
  lemma PlayerResolvedByUid(st: ParseState, c: Captures, pick: Option<nat>)
    requires st.games != [] && Group(c, 4).Some?
    requires ValidPick(st, [PatternMatch(DroppedPlayerResult, c)], pick)
    ensures var p := ResultLinePlayer(st, DroppedPlayerResult, c, pick);
            var uid := Group(c, 4).value;
            && p.status == Dropped
            && ((exists k :: k in st.header && st.header[k].uid == uid) ==>
                  p.steamId in st.header && st.header[p.steamId].uid == uid
                  && p.slot == st.header[p.steamId].slot && p.relicId == st.header[p.steamId].relicId)
            && ((forall k :: k in st.header ==> st.header[k].uid != uid) ==> p.steamId == 0 && p.slot == 0 && p.relicId == 0)
  {
    var uid := Group(c, 4).value;
    if exists k :: k in st.header && st.header[k].uid == uid {
      var k :| k in st.header && st.header[k].uid == uid;
      assert k in UidCandidates(st.header, uid);
    }
  }

  /** A lobby line inserts or overwrites its steam id's entry as (relic 0, slot, user id). */
  lemma MatchStartedUpsertsEntry(st: ParseState, c: Captures, pick: Option<nat>)
    requires Group(c, 1).Some? && Group(c, 2).Some? && Group(c, 3).Some?
    ensures var out := Step(st, [PatternMatch(MatchStarted, c)], pick);
            var steamId := Text.ParseUsize(Group(c, 2).value).GetOr(0);
            && out.result == Ok
            && out.state.games == st.games && out.state.steamId == st.steamId
            && out.state.header == st.header[steamId := SteamIdMap(0, Text.ParseUsize(Group(c, 3).value).GetOr(0), Group(c, 1).value)]
  {
  }

  /**
   * A profile line sets only the relic id of an existing entry, or inserts
   * an entry with slot 0 and an empty user id.
   */
  lemma ProfileMappingSetsRelicId(st: ParseState, c: Captures, pick: Option<nat>)
    requires Group(c, 1).Some? && Group(c, 2).Some?
    requires Text.ParseUsize(Group(c, 1).value).Some? && Text.ParseUsize(Group(c, 2).value).Some?
    ensures var out := Step(st, [PatternMatch(ProfileMapping, c)], pick);
            var relicId := Text.ParseUsize(Group(c, 1).value).value;
            var steamId := Text.ParseUsize(Group(c, 2).value).value;
            && out.result == Ok
            && out.state.games == st.games && out.state.steamId == st.steamId
            && out.state.header.Keys == st.header.Keys + {steamId}
            && (forall k :: k in st.header && k != steamId ==> out.state.header[k] == st.header[k])
            && out.state.header[steamId].relicId == relicId
            && (steamId in st.header ==> out.state.header[steamId] == st.header[steamId].(relicId := relicId))
            && (steamId !in st.header ==> out.state.header[steamId] == SteamIdMap(relicId, 0, ""))
  {
  }

  /** A profile line with a number that does not parse panics in `unwrap`. */
  lemma ProfileMappingPanicsOnBadNumber(st: ParseState, c: Captures, pick: Option<nat>)
    requires Group(c, 1).Some? && Group(c, 2).Some?
    requires Text.ParseUsize(Group(c, 1).value).None? || Text.ParseUsize(Group(c, 2).value).None?
    ensures Step(st, [PatternMatch(ProfileMapping, c)], pick) == StepResult(st, Panic)
  {
  }

  /** Frame markers change nothing. */
  lemma FrameMarkerChangesNothing(st: ParseState, c: Captures, pick: Option<nat>)
    ensures Step(st, [PatternMatch(GameFrame, c)], pick) == StepResult(st, Ok)
  {
  }

  /** An own-profile line changes only the list-level steam id; a missing or unparsable id fails. */
  lemma OwnProfileChangesOnlySteamId(st: ParseState, c: Captures, pick: Option<nat>)
    ensures var out := Step(st, [PatternMatch(FoundProfile, c)], pick);
            && (Group(c, 1).None? ==> out == Fail(st, "could not find player profile steam id in logfile"))
            && (Group(c, 1).Some? && Text.ParseUsize(Group(c, 1).value).None? ==>
                  out == Fail(st, "could not read player profile steam id from logfile"))
            && (Group(c, 1).Some? && Text.ParseUsize(Group(c, 1).value).Some? ==>
                  out == StepResult(st.(steamId := Text.ParseUsize(Group(c, 1).value).value), Ok))
  {
  }

  // ---------------------------------------------------------------------
  // Over a whole log
  // ---------------------------------------------------------------------

  /** At most the last record is incomplete. */
  ghost predicate OnlyLastOpen(games: seq<LogfileGameInfo>) {
    forall j {:trigger BlockComplete(games[j])} :: 0 <= j < |games| - 1 ==> BlockComplete(games[j])
  }

  /**
   * `b` is a later version of the record list `a`: no record is removed,
   * every record before `a`'s last is untouched, and `a`'s last one only
   * gained players at the end of its list and stays complete once complete.
   */
  ghost predicate Extends(a: seq<LogfileGameInfo>, b: seq<LogfileGameInfo>) {
    && |a| <= |b|
    && (forall j :: 0 <= j < |a| - 1 ==> b[j] == a[j])
    && (a != [] ==>
          var g, h := a[|a| - 1], b[|a| - 1];
          && g.players <= h.players
          && (BlockComplete(g) ==> BlockComplete(h)))
  }

  /** How one line may change the record list. */
  ghost predicate Grows(a: seq<LogfileGameInfo>, b: seq<LogfileGameInfo>) {
    Extends(a, b) && (OnlyLastOpen(a) ==> OnlyLastOpen(b))
  }

  lemma GrowsRefl(games: seq<LogfileGameInfo>)
    ensures Grows(games, games)
  {
  }

  lemma GrowsByLast(games: seq<LogfileGameInfo>, g: LogfileGameInfo)
    requires games != []
    requires Last(games).players <= g.players
    requires BlockComplete(Last(games)) ==> BlockComplete(g)
    ensures Grows(games, WithLast(games, g))
  {
  }

  lemma GrowsByAppend(games: seq<LogfileGameInfo>, g: LogfileGameInfo)
    requires games == [] || BlockComplete(Last(games))
    ensures Grows(games, games + [g])
  {
  }

  /** A line with exactly one match is handled by the arm for that match's kind. */
  lemma StepDispatch(st: ParseState, line: seq<PatternMatch>, pick: Option<nat>)
    requires |line| == 1
    ensures var c := line[0].captures;
      && (line[0].kind == MatchStarted ==> Step(st, line, pick) == OnMatchStarted(st, c))
      && (line[0].kind == BeginningMission ==> Step(st, line, pick) == OnBeginningMission(st, c))
      && (line[0].kind == GameFrame ==> Step(st, line, pick) == StepResult(st, Ok))
      && (line[0].kind == PlayerResult ==> Step(st, line, pick) == OnPlayerResult(st, c, pick))
      && (line[0].kind == DroppedPlayerResult ==> Step(st, line, pick) == OnDroppedPlayerResult(st, c, pick))
      && (line[0].kind == SimStatsReported ==> Step(st, line, pick) == OnSimStatsReported(st, c))
      && (line[0].kind == EndingMission ==> Step(st, line, pick) == OnEndingMission(st, c))
      && (line[0].kind == GameOverAtFrame ==> Step(st, line, pick) == OnGameOverAtFrame(st, c))
      && (line[0].kind == ProfileMapping ==> Step(st, line, pick) == OnProfileMapping(st, c))
      && (line[0].kind == FoundProfile ==> Step(st, line, pick) == OnFoundProfile(st, c))
  {
  }

  lemma MissionStartGrows(st: ParseState, c: Captures)
    ensures Grows(st.games, OnBeginningMission(st, c).state.games)
  {
    if st.games == [] || BlockComplete(Last(st.games)) {
      match Group(c, 1)
      case None => GrowsByAppend(st.games, NewGame);
      case Some(m) =>
        assert WithLast(st.games + [NewGame], NewGame.(mapName := m)) == st.games + [NewGame.(mapName := m)];
        GrowsByAppend(st.games, NewGame.(mapName := m));
    } else {
      match Group(c, 1)
      case None => GrowsRefl(st.games);
      case Some(m) => GrowsByLast(st.games, Last(st.games).(mapName := m));
    }
  }

  lemma PlayerResultGrows(st: ParseState, c: Captures, pick: Option<nat>)
    ensures Grows(st.games, OnPlayerResult(st, c, pick).state.games)
  {
    if st.games == [] {
      GrowsRefl(st.games);
    } else {
      var g := Last(st.games);
      GrowsByLast(st.games, g.(players := g.players + [ResolveByRelicId(st.header, Parse(NewPlayer, c, false), pick)]));
    }
  }

  lemma DroppedPlayerResultGrows(st: ParseState, c: Captures, pick: Option<nat>)
    ensures Grows(st.games, OnDroppedPlayerResult(st, c, pick).state.games)
  {
    if st.games == [] || Group(c, 4).None? {
      GrowsRefl(st.games);
    } else {
      var g := Last(st.games);
      GrowsByLast(st.games, g.(players := g.players + [ResolveByUid(st.header, Parse(NewPlayer, c, true), pick)]));
    }
  }

  lemma SimStatsGrows(st: ParseState, c: Captures)
    ensures Grows(st.games, OnSimStatsReported(st, c).state.games)
  {
    if st.games == [] || Group(c, 1).None? || Text.ParseUsize(Group(c, 1).value).None? {
      GrowsRefl(st.games);
    } else {
      GrowsByLast(st.games, Last(st.games).(id := Text.ParseUsize(Group(c, 1).value).value));
    }
  }

  lemma MissionEndGrows(st: ParseState, c: Captures)
    ensures Grows(st.games, OnEndingMission(st, c).state.games)
  {
    if st.games == [] {
      GrowsRefl(st.games);
    } else {
      GrowsByLast(st.games, Last(st.games).(aborted := EndingAborted(Group(c, 1)), complete := true));
    }
  }

  lemma FrameCountGrows(st: ParseState, c: Captures)
    ensures Grows(st.games, OnGameOverAtFrame(st, c).state.games)
  {
    if st.games == [] || Group(c, 1).None? || Text.ParseUsize(Group(c, 1).value).None? {
      GrowsRefl(st.games);
    } else {
      GrowsByLast(st.games, Last(st.games).(frames := Text.ParseUsize(Group(c, 1).value).value));
    }
  }

  /** The arms that never touch the records: table lines and the own profile. */
  lemma MatchStartedKeepsRecords(st: ParseState, c: Captures)
    ensures OnMatchStarted(st, c).state.games == st.games
  {
  }

  lemma ProfileMappingKeepsRecords(st: ParseState, c: Captures)
    ensures OnProfileMapping(st, c).state.games == st.games
  {
  }

  lemma FoundProfileKeepsRecords(st: ParseState, c: Captures)
    ensures OnFoundProfile(st, c).state.games == st.games
  {
  }

  /** Every line keeps at most the last record open and only appends or grows records. */
  lemma StepGrows(st: ParseState, line: seq<PatternMatch>, pick: Option<nat>)
    ensures Grows(st.games, Step(st, line, pick).state.games)
  {
    if |line| != 1 {
      GrowsRefl(st.games);
    } else {
      StepDispatch(st, line, pick);
      var c := line[0].captures;
      match line[0].kind
      case BeginningMission => MissionStartGrows(st, c);
      case PlayerResult => PlayerResultGrows(st, c, pick);
      case DroppedPlayerResult => DroppedPlayerResultGrows(st, c, pick);
      case SimStatsReported => SimStatsGrows(st, c);
      case EndingMission => MissionEndGrows(st, c);
      case GameOverAtFrame => FrameCountGrows(st, c);
      case GameFrame => GrowsRefl(st.games);
      case MatchStarted => MatchStartedKeepsRecords(st, c); GrowsRefl(st.games);
      case ProfileMapping => ProfileMappingKeepsRecords(st, c); GrowsRefl(st.games);
      case FoundProfile => FoundProfileKeepsRecords(st, c); GrowsRefl(st.games);
    }
  }

  lemma ExtendsTransitive(a: seq<LogfileGameInfo>, b: seq<LogfileGameInfo>, c: seq<LogfileGameInfo>)
    requires Extends(a, b) && Extends(b, c)
    ensures Extends(a, c)
  {
    if a != [] && |a| < |b| {
      assert c[|a| - 1] == b[|a| - 1];
    }
  }

  /** Every parse keeps at most one open record, at the tail. */
  lemma {:induction false} RunKeepsOnlyLastOpen(classify: Classifier, st: ParseState, content: seq<string>, picks: seq<Option<nat>>)
    requires |picks| == |content| && OnlyLastOpen(st.games)
    ensures OnlyLastOpen(Run(classify, st, content, picks).state.games)
    decreases |content|
  {
    if content != [] {
      var n := |content|;
      RunKeepsOnlyLastOpen(classify, st, content[..n - 1], picks[..n - 1]);
      var prev := Run(classify, st, content[..n - 1], picks[..n - 1]);
      if prev.result == Ok {
        var next := Step(prev.state, classify(content[n - 1]), picks[n - 1]);
        StepGrows(prev.state, classify(content[n - 1]), picks[n - 1]);
        assert Run(classify, st, content, picks) == next;
      } else {
        assert Run(classify, st, content, picks) == prev;
      }
    }
  }

  /**
   * Over a whole parse records are only appended and marked: none is
   * deleted, earlier ones never change, and players keep their order.
   */
  lemma {:induction false} RunExtends(classify: Classifier, st: ParseState, content: seq<string>, picks: seq<Option<nat>>)
    requires |picks| == |content|
    ensures Extends(st.games, Run(classify, st, content, picks).state.games)
    decreases |content|
  {
    if content == [] {
      GrowsRefl(st.games);
    } else {
      var n := |content|;
      RunExtends(classify, st, content[..n - 1], picks[..n - 1]);
      var prev := Run(classify, st, content[..n - 1], picks[..n - 1]);
      if prev.result == Ok {
        var next := Step(prev.state, classify(content[n - 1]), picks[n - 1]);
        StepGrows(prev.state, classify(content[n - 1]), picks[n - 1]);
        assert Run(classify, st, content, picks) == next;
        ExtendsTransitive(st.games, prev.state.games, next.state.games);
      } else {
        assert Run(classify, st, content, picks) == prev;
      }
    }
  }

  /**
   * Each later state of a parse extends each earlier one, so records the
   * parse itself opens are kept too: none is deleted, those before the last
   * never change again, and their players keep their order.
   */
  lemma {:induction false} RunExtendsPrefix(classify: Classifier, st: ParseState, content: seq<string>, picks: seq<Option<nat>>, i: nat)
    requires |picks| == |content| && i <= |content|
    ensures Extends(Run(classify, st, content[..i], picks[..i]).state.games, Run(classify, st, content, picks).state.games)
    decreases |content| - i
  {
    if i == |content| {
      assert content[..i] == content && picks[..i] == picks;
      GrowsRefl(Run(classify, st, content, picks).state.games);
    } else {
      var n := |content|;
      assert content[..n - 1][..i] == content[..i];
      assert picks[..n - 1][..i] == picks[..i];
      RunExtendsPrefix(classify, st, content[..n - 1], picks[..n - 1], i);
      var prev := Run(classify, st, content[..n - 1], picks[..n - 1]);
      if prev.result == Ok {
        var next := Step(prev.state, classify(content[n - 1]), picks[n - 1]);
        StepGrows(prev.state, classify(content[n - 1]), picks[n - 1]);
        assert Run(classify, st, content, picks) == next;
        ExtendsTransitive(Run(classify, st, content[..i], picks[..i]).state.games, prev.state.games, next.state.games);
      } else {
        assert Run(classify, st, content, picks) == prev;
      }
    }
  }
}
