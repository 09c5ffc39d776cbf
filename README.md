# replay-parser-gui: log reconstruction and replay merge, in Dafny

This project models the core of replay-parser-gui, a desktop companion for a
real-time strategy game. The game writes a diagnostic log. The application
reads that log, rebuilds one record per played match, and merges the latest
record with the decoded replay of the same match. It then builds the report
that is sent to a results server.

The model has these parts:

- **Reading the log** (`Logfile.LogfileGameList.ReadLogfile`,
  `Logfile.FilterLines`). Only lines that contain one of ten filter texts
  are kept.
- **The parser state machine** (`Logfile.LogfileGameList.Parse`). It walks
  the kept lines once. Each line is classified by the ten structural
  patterns. A line must match exactly one of them; otherwise the parser
  fails. The matched line then updates one of three things:
  - the list of match records: open a record, set its map, id or frame
    count, append a player, or complete it;
  - a transient identity table keyed by steam id;
  - the list-level steam id of the local player.

  `Parse` is a class method with a `while` loop. Each arm is its own method
  (`HandleMatchStarted`, `HandleBeginningMission`, …). Each method is
  proved against the pure step function `Logfile.Step`, and the loop is
  proved against the fold `Logfile.Run`. Module `LogfileProperties` proves
  what the source promises about `Step` and `Run`: record boundaries,
  termination statuses, identity resolution, player order, and that at most
  the last record is open.
- **Player results** (`PlayerInfo`): field extraction with a default of 0,
  the status-token table, the forced Dropped status of the disconnected-player
  line shape, and the merge of a log player with a replay player.
- **The merge** (`Game`). Players are paired by position. Actions are
  credited to the player whose sim id their byte 3 encodes; the rest are
  dropped. `Game.ExtendedGameInformation.From` assigns every field of the
  merged game object.
- **The report** (`ReplayReporterDto`): winner selection, map-path prefix
  removal, textual match id, and one-to-one player and message lists.

The regular-expression engine is a parameter `Classifier`. It maps a line to
the list of patterns it matched, each with that match's capture groups. A
capture group is an `Option<string>`, so the source's "group missing" error
branches are modelled too. The steam-id lookups iterate over a hash map, so
their order is unspecified. The loop therefore uses an arbitrary order, and
its contract returns the key each lookup found as a ghost trace `picks`. The
trace is constrained by `Logfile.ValidPicks`: a lookup returns some matching
key, and returns nothing only when no key matches. Failing `unwrap`s become
the outcome `ParseResult.Panic`.

What the code of `src-tauri/src/core/logfile.rs` does at these points:

- An event that needs a record, arriving while there is none, is skipped
  silently. It is not reported as an error.
- The error for a line with zero or several matches is the fixed message
  "Found more than 1 game to parse". It does not carry the line.
- Identity lookup returns an arbitrary matching table entry, not the first
  one in insertion order.
- A lobby ("Match Started") line resets the entry's relic id to 0; it does
  not keep it.
- Numeric fields do not always default to 0. A match id or frame count that
  does not parse is an error. A profile line that does not parse panics.
  Only the player-result fields and the lobby line's numbers default to 0
  (`ConvertMatchToInt`, `unwrap_or_default`).

## Model

| member | source | states |
|---|---|---|
| Text.ParseUsize | src-tauri/src/core/player_info.rs:129 | `parse::<usize>` yields a value only within the 64-bit `usize` range |
| Text.DigitsOfValue | src-tauri/src/core/player_info.rs:129 | the digit scan yields a value exactly for all-digit texts, and that value is their decimal value |
| Text.ParseUsizeOfDecimalString | src-tauri/src/core/player_info.rs:129 | the decimal text of any value up to `usize::MAX` parses back to that value |
| Text.ParseUsizeOverflow | src-tauri/src/core/player_info.rs:129 | the decimal text of a value above `usize::MAX` does not parse |
| Text.ParseUsizeRejectsNonDigit | src-tauri/src/core/player_info.rs:129 | a text with a non-digit character (other than a leading `+`) does not parse |
| Text.DecimalString | src-tauri/src/core/replay_reporter_dto.rs:110 | `to_string` of a number is a non-empty string of digits without a leading zero |
| Text.DigitsValueOfDecimalString | src-tauri/src/core/replay_reporter_dto.rs:110 | the digits of `to_string` read back to the number |
| Text.RemoveAll | src-tauri/src/core/replay_reporter_dto.rs:111 | replacing a pattern by "" never lengthens the text |
| Text.RemoveAllShortens | src-tauri/src/core/replay_reporter_dto.rs:111 | if the pattern occurs anywhere, the result is strictly shorter |
| Text.RemoveAllNoOccurrence | src-tauri/src/core/replay_reporter_dto.rs:111 | if the pattern does not occur, the text is unchanged |
| Text.RemoveAllUnchangedIff | src-tauri/src/core/replay_reporter_dto.rs:111 | the text is unchanged if and only if the pattern does not occur in it |
| Text.RemoveAllLeading | src-tauri/src/core/replay_reporter_dto.rs:111 | a leading occurrence is removed and the rest is processed on its own |
| PlayerInfo.ConvertMatchToInt | src-tauri/src/core/player_info.rs:128-134 | the converted value always fits in a `usize`, and is 0 whenever the text does not parse as one |
| PlayerInfo.ConvertMatchToIntRejectsNonDigit | src-tauri/src/core/player_info.rs:128-134 | a text with a character other than a digit (a leading `+` aside) converts to 0 |
| PlayerInfo.ConvertMatchToIntOfDecimal | src-tauri/src/core/player_info.rs:128-131 | a decimal number that fits in a `usize` converts to itself |
| PlayerInfo.ConvertMatchToIntOverflow | src-tauri/src/core/player_info.rs:128-134 | a number too large for a `usize` converts to 0 |
| PlayerInfo.GroupIntOfCaptures | src-tauri/src/core/player_info.rs:86-94 | a missing group reads as 0, and a group with the decimal text of a `usize` value reads as that value |
| PlayerInfo.ConvertMatchToStatus | src-tauri/src/core/player_info.rs:136-145 | a recognised status is the one whose token is the text; the result is Unknown exactly when no status has that token; Dropped never comes from a token |
| PlayerInfo.StatusTokenRoundTrip | src-tauri/src/core/player_info.rs:136-145 | each of the five tokens is read back as its own status |
| PlayerInfo.Parse | src-tauri/src/core/player_info.rs:84-99 | sim id, race and team come from groups 1-3 (0 when missing); the alternative shape forces Dropped and keeps the relic id; the normal shape takes the relic id from group 4 and the status from group 5 (Unknown when missing); slot and steam id are untouched |
| PlayerInfo.ParseKilledPlayerLine | src-tauri/src/core/player_info.rs:152-163 | the captures of the killed-player line give sim 1001, race 4, team 0, relic 11718717, Killed |
| PlayerInfo.ParseDroppedPlayerLine | src-tauri/src/core/player_info.rs:166-177 | the captures of the dropped-player line give sim 1000, race 4, team 1, Dropped |
| PlayerInfo.ExtendedFrom | src-tauri/src/core/player_info.rs:103-125 | slot, steam id, sim id, status and race come from the log player, and the replay player can be read back unchanged from the rest |
| Logfile.FilterLines | src-tauri/src/core/logfile.rs:106-110 | every kept line is an input line that contains a filter text |
| Logfile.FilterLinesConcat | src-tauri/src/core/logfile.rs:106-110 | filtering works line by line and keeps the input order |
| Logfile.FilterLinesKeepsDesired | src-tauri/src/core/logfile.rs:375-381 | no line containing a filter text is dropped |
| Logfile.EndingAborted | src-tauri/src/core/logfile.rs:274-300 | a termination is regular exactly when its status is "Game over" |
| Logfile.RunOneMore | src-tauri/src/core/logfile.rs:127-369 | the run over one more line is the run so far followed by that line's step, unless the run had already stopped |
| Logfile.RunStopsAtError | src-tauri/src/core/logfile.rs:142-147 | once a line has failed, the lines after it change nothing |
| Logfile.ValidPicksAfterError | src-tauri/src/core/logfile.rs:212-218 | no lookup is made after the failing line |
| Logfile.FindSteamId | src-tauri/src/core/logfile.rs:212-218 | the key found has an entry that satisfies the test; nothing is found only when no entry does |
| Logfile.LogfileGameList.constructor | src-tauri/src/core/logfile.rs:85-87 | a new list has no lines, no records and steam id 0 |
| Logfile.LogfileGameList.ReadLogfile | src-tauri/src/core/logfile.rs:89-115 | a missing file gives LogfileNotFoundError, a read or decode failure gives an error, and otherwise the kept content is exactly the filtered lines; records and steam id are untouched |
| Logfile.LogfileGameList.Parse | src-tauri/src/core/logfile.rs:117-372 | records, steam id and outcome are those of the run of `Step` over the kept lines from an empty identity table, with every lookup picking a matching entry |
| Logfile.LogfileGameList.HandleLine | src-tauri/src/core/logfile.rs:142-368 | one loop iteration does what `Step` says for the line, and its lookup picks a matching entry |
| Logfile.LogfileGameList.HandleMatchStarted | src-tauri/src/core/logfile.rs:152-180 | the lobby arm does what `OnMatchStarted` says |
| Logfile.LogfileGameList.HandleBeginningMission | src-tauri/src/core/logfile.rs:181-204 | the mission-start arm does what `OnBeginningMission` says |
| Logfile.LogfileGameList.HandlePlayerResult | src-tauri/src/core/logfile.rs:206-228 | the result-line arm does what `OnPlayerResult` says, with a key carrying the player's relic id, if there is one |
| Logfile.LogfileGameList.HandleDroppedPlayerResult | src-tauri/src/core/logfile.rs:229-255 | the dropped-player arm does what `OnDroppedPlayerResult` says, with a key carrying the line's user id, if there is one |
| Logfile.LogfileGameList.HandleSimStatsReported | src-tauri/src/core/logfile.rs:256-270 | the match-id arm does what `OnSimStatsReported` says |
| Logfile.LogfileGameList.HandleEndingMission | src-tauri/src/core/logfile.rs:271-302 | the termination arm does what `OnEndingMission` says |
| Logfile.LogfileGameList.HandleGameOverAtFrame | src-tauri/src/core/logfile.rs:303-319 | the frame-count arm does what `OnGameOverAtFrame` says |
| Logfile.LogfileGameList.HandleProfileMapping | src-tauri/src/core/logfile.rs:320-345 | the profile arm does what `OnProfileMapping` says |
| Logfile.LogfileGameList.HandleFoundProfile | src-tauri/src/core/logfile.rs:346-360 | the own-profile arm does what `OnFoundProfile` says |
| LogfileProperties.AmbiguousLineFails | src-tauri/src/core/logfile.rs:142-147 | a line with zero or several matches fails with the parse error and changes nothing |
| LogfileProperties.FailingLineEndsParse | src-tauri/src/core/logfile.rs:127-369 | the outcome of a parse is the failure of its first failing line, on the state just after it |
| LogfileProperties.AmbiguousLineEndsParse | src-tauri/src/core/logfile.rs:142-147 | an ambiguous or unrecognised line ends the parse with the parse error, after the earlier lines |
| LogfileProperties.MissionStartOpensRecord | src-tauri/src/core/logfile.rs:183-203 | with no record, or the last one complete, a mission start appends a new record with the map (or an empty one, then the map error) |
| LogfileProperties.MissionStartReusesOpenRecord | src-tauri/src/core/logfile.rs:183-203 | while the last record is open, a mission start only overwrites its map |
| LogfileProperties.MissionStartLeavesMapOnLastRecord | src-tauri/src/core/logfile.rs:196-203 | afterwards there is a record, and the last one carries the captured map |
| LogfileProperties.MissionEndCompletesRecord | src-tauri/src/core/logfile.rs:272-300 | a termination line completes the last record, sets `aborted` unless the status is "Game over", and changes nothing else |
| LogfileProperties.MissionEndStatuses | src-tauri/src/core/logfile.rs:274-299 | "Game over" is regular; "Abort" and a missing status are aborts |
| LogfileProperties.RecordLinesNeedARecord | src-tauri/src/core/logfile.rs:206-319 | with no record, player, match-id, termination and frame-count lines change nothing and do not fail |
| LogfileProperties.MatchIdSetsOnlyId | src-tauri/src/core/logfile.rs:256-270 | a match-id line sets only the last record's id; a missing or unparsable id fails with its message |
| LogfileProperties.FrameCountSetsOnlyFrames | src-tauri/src/core/logfile.rs:303-319 | a frame-count line sets only the last record's frames; a missing or unparsable count fails with its message |
| LogfileProperties.ResultLineAppendsOnePlayer | src-tauri/src/core/logfile.rs:206-255 | a result line of either shape appends exactly one player at the end of the last record and changes nothing else |
| LogfileProperties.DroppedLineWithoutUidPanics | src-tauri/src/core/logfile.rs:235 | a dropped-player line without its user id group panics |
| LogfileProperties.PlayerResolvedByRelicId | src-tauri/src/core/logfile.rs:208-222 | the player takes steam id and slot from an entry with its relic id when one exists, and keeps 0 for both otherwise |
| LogfileProperties.PlayerResolvedByUid | src-tauri/src/core/logfile.rs:231-249 | the dropped player is Dropped, takes steam id, slot and relic id from an entry with its user id when one exists, and keeps 0 for all three otherwise |
| LogfileProperties.MatchStartedUpsertsEntry | src-tauri/src/core/logfile.rs:152-179 | a lobby line inserts or overwrites its steam id's entry as relic 0, slot, user id, and changes nothing else |
| LogfileProperties.ProfileMappingSetsRelicId | src-tauri/src/core/logfile.rs:320-344 | a profile line sets only the relic id of an existing entry, or adds an entry with slot 0 and an empty user id; other entries are unchanged |
| LogfileProperties.ProfileMappingPanicsOnBadNumber | src-tauri/src/core/logfile.rs:331-332 | a profile line with a number that does not parse panics |
| LogfileProperties.FrameMarkerChangesNothing | src-tauri/src/core/logfile.rs:205 | a frame marker changes nothing |
| LogfileProperties.OwnProfileChangesOnlySteamId | src-tauri/src/core/logfile.rs:346-360 | an own-profile line sets only the list-level steam id; a missing or unparsable id fails with its message |
| LogfileProperties.StepDispatch | src-tauri/src/core/logfile.rs:151-368 | a line with one match is handled by the arm of that match's kind |
| LogfileProperties.MissionStartGrows | src-tauri/src/core/logfile.rs:181-204 | for a mission start line: no record is removed; the records before the last are unchanged; the last record's players only gain entries at the end, and it stays complete once complete; if at most the last record was open before, the same holds after |
| LogfileProperties.PlayerResultGrows | src-tauri/src/core/logfile.rs:206-228 | for a result line: no record is removed; the records before the last are unchanged; the last record's players only gain entries at the end, and it stays complete once complete; if at most the last record was open before, the same holds after |
| LogfileProperties.DroppedPlayerResultGrows | src-tauri/src/core/logfile.rs:229-255 | for a dropped-player line: no record is removed; the records before the last are unchanged; the last record's players only gain entries at the end, and it stays complete once complete; if at most the last record was open before, the same holds after |
| LogfileProperties.SimStatsGrows | src-tauri/src/core/logfile.rs:256-270 | for a match-id line: no record is removed; the records before the last are unchanged; the last record's players only gain entries at the end, and it stays complete once complete; if at most the last record was open before, the same holds after |
| LogfileProperties.MissionEndGrows | src-tauri/src/core/logfile.rs:271-302 | for a termination line: no record is removed; the records before the last are unchanged; the last record's players only gain entries at the end, and it stays complete once complete; if at most the last record was open before, the same holds after |
| LogfileProperties.FrameCountGrows | src-tauri/src/core/logfile.rs:303-319 | for a frame-count line: no record is removed; the records before the last are unchanged; the last record's players only gain entries at the end, and it stays complete once complete; if at most the last record was open before, the same holds after |
| LogfileProperties.MatchStartedKeepsRecords | src-tauri/src/core/logfile.rs:152-180 | a lobby line leaves the records alone |
| LogfileProperties.ProfileMappingKeepsRecords | src-tauri/src/core/logfile.rs:320-345 | a profile line leaves the records alone |
| LogfileProperties.FoundProfileKeepsRecords | src-tauri/src/core/logfile.rs:346-360 | an own-profile line leaves the records alone |
| LogfileProperties.StepGrows | src-tauri/src/core/logfile.rs:151-368 | every line keeps at most the last record open and only appends or grows records |
| LogfileProperties.RunKeepsOnlyLastOpen | src-tauri/src/core/logfile.rs:183-194 | over a whole parse, every record except possibly the last is complete |
| LogfileProperties.RunExtends | src-tauri/src/core/logfile.rs:127-369 | over a whole parse no record present before it is deleted, those before its last are never changed, and players keep their order |
| LogfileProperties.RunExtendsPrefix | src-tauri/src/core/logfile.rs:127-369 | every later state of a parse extends every earlier one: records the parse opens are never deleted, those before the last never change again, and their players keep their order |
| Game.GameInfoFrom | src-tauri/src/core/game.rs:66-74 | all five settings are carried over unchanged |
| Game.GameInfoOf | src-tauri/src/core/game.rs:113-116 | a game chunk gives its settings, any other chunk the defaults |
| Game.MapOf | src-tauri/src/core/game.rs:108-111 | a map chunk gives its map, any other chunk the default map |
| Game.MergePlayers | src-tauri/src/core/game.rs:87-106 | one merged player per replay chunk; entry i combines log player i with replay player i, and is the default when either is missing or not a player |
| Game.ActionSimId | src-tauri/src/core/game.rs:123 | the byte minus 0xE8 in 8-bit arithmetic, plus 1000: always in 1000..1255 |
| Game.ActionSimIdInjective | src-tauri/src/core/game.rs:123 | different bytes give different sim ids |
| Game.ActionSimIdOfPlayerRange | src-tauri/src/core/game.rs:123 | the sim ids 1000-1023 only come from bytes 0xE8 and above |
| Game.FindBySimId | src-tauri/src/core/game.rs:124-126 | the first player with the sim id, or nothing exactly when no player has it |
| Game.AttributeAction | src-tauri/src/core/game.rs:122-134 | an action is credited exactly when it has a byte 3 and a player has the sim id it encodes; it then carries the name and relic id of the first such player, with its own tick and data |
| Game.AttributedActions | src-tauri/src/core/game.rs:118-136 | every kept action is the attribution of an input action, and at most as many are kept |
| Game.AttributedActionsConcat | src-tauri/src/core/game.rs:118-136 | attribution works action by action and keeps the original order |
| Game.AttributedActionsKeepsAttributable | src-tauri/src/core/game.rs:118-136 | every attributable action is kept |
| Game.UnattributableActionDropped | src-tauri/src/core/game.rs:118-136 | an action without byte 3, or whose sim id no player has, is dropped |
| Game.ExtendedGameInformation.constructor | src-tauri/src/core/game.rs:78-80 | a new game has every field at its default |
| Game.ExtendedGameInformation.From | src-tauri/src/core/game.rs:82-158 | abort flag, id and frames are the log record's; name, checksum, version, digest, dates, ticks and messages are the replay's; map, settings, merged players and attributed actions are as computed; status, dev flag and encoded replay are reset |
| Game.ExtendedGameInformation.TakeCopiedFields | src-tauri/src/core/game.rs:138-151 | the fields copied from the log record and the replay |
| Game.ExtendedGameInformation.TakeComputedFields | src-tauri/src/core/game.rs:140-155 | the computed fields and the reset reporting fields |
| ReplayReporterDto.PlayerDtoOfMerged | src-tauri/src/core/replay_reporter_dto.rs:57-69 | a merged player's DTO takes relic id, hero, name and team from the replay, and race, steam id, sim id and slot from the log |
| ReplayReporterDto.MessageDtoRoundTrip | src-tauri/src/core/replay_reporter_dto.rs:72-82 | a message DTO converts back to its message, and a DTO is the DTO of the message it describes |
| ReplayReporterDto.PlayerDtos | src-tauri/src/core/replay_reporter_dto.rs:126-130 | one player DTO per player, in order |
| ReplayReporterDto.MessageDtos | src-tauri/src/core/replay_reporter_dto.rs:131-135 | one message DTO per message, in order, each converting back to its message |
| ReplayReporterDto.Winner | src-tauri/src/core/replay_reporter_dto.rs:86-91 | the team of the first player who won, or 0 when nobody won |
| ReplayReporterDto.ReportFrom | src-tauri/src/core/replay_reporter_dto.rs:85-138 | copies aborted, frames, ticks, version and actions; dev only when set to true; replay "" when absent; never ranked or league; textual id; map path without the pvp prefix; reporter stamp; one-to-one players and messages; the winner |
| ReplayReporterDto.ReportIdRoundTrip | src-tauri/src/core/replay_reporter_dto.rs:110 | the reported id is all digits and parses back to the match id |
| ReplayReporterDto.ReportMapStripsPrefix | src-tauri/src/core/replay_reporter_dto.rs:111 | a path made of the pvp prefix and a name reports that name |
| ReplayReporterDto.ReportMapKeepsOtherPaths | src-tauri/src/core/replay_reporter_dto.rs:111 | a path without the prefix is reported unchanged |
| ReplayReporterDto.ReportMapOfEstia | src-tauri/src/core/replay_reporter_dto.rs:111 | `DATA:maps\pvp\6p_estia` is reported as `6p_estia` |

## Left out

- Opening, transcoding and decoding the log file (src-tauri/src/core/logfile.rs:91-106) is I/O. Its outcome is the parameter `LogfileSource`: missing, unreadable with a reason, or decoded lines.
- The regular-expression engine and the ten pattern texts are left out. Classification is the `Classifier` parameter. Nothing is proved about which lines match which pattern.
- The filter test is a literal substring test. The ten filter patterns contain no regular-expression operators.
- Hash-map iteration order is left out. Lookups return some matching key; which one is not modelled.
- The catch-all arm for a pattern index of 10 or more (src-tauri/src/core/logfile.rs:361-367) is left out. Classification yields only the ten kinds, so that arm cannot be reached.
- Logging through `tracing` is left out.
- PlayerInfo.Parse: `LogfilePlayerInfo::parse` assigns fields of `self` in place. It is modelled as a function from the old player to the new one, because the player is a plain value that no one else references.
- Logfile.Step (src-tauri/src/core/logfile.rs:142-368) carries no contract of its own. Its behaviour is stated in `StepDispatch`, `AmbiguousLineFails`, `StepGrows` and the per-line lemmas of `LogfileProperties`, and `LogfileGameList.HandleLine` is proved equal to it.
- Logfile.Run (src-tauri/src/core/logfile.rs:127-369) carries no contract of its own. `LogfileGameList.Parse` is proved equal to it, and `RunOneMore`, `RunStopsAtError`, `FailingLineEndsParse`, `RunKeepsOnlyLastOpen`, `RunExtends` and `RunExtendsPrefix` state its behaviour.
- Logfile.OnMatchStarted, Logfile.OnBeginningMission, Logfile.OnPlayerResult, Logfile.OnDroppedPlayerResult, Logfile.OnSimStatsReported, Logfile.OnEndingMission, Logfile.OnGameOverAtFrame, Logfile.OnProfileMapping and Logfile.OnFoundProfile (the arms at src-tauri/src/core/logfile.rs:152-360) carry no contract of their own. Each arm's effect is stated in the per-line lemma of `LogfileProperties` for that line kind, and the `Handle…` method for that arm is proved equal to it.
- Logfile.ContainsDesiredContent (src-tauri/src/core/logfile.rs:375-381) carries no contract of its own. It is stated through `FilterLines` and `FilterLinesKeepsDesired`, which keep exactly the lines it accepts.
- MissionStartGrows: states only the shared growth property of every line, not which record a mission start appends or edits; that exact effect is stated in `MissionStartOpensRecord` and `MissionStartReusesOpenRecord`.
- PlayerResultGrows: states only the shared growth property of every line, not that exactly one player is appended; that exact effect is stated in `ResultLineAppendsOnePlayer`, and the player's fields in `PlayerResolvedByRelicId`.
- DroppedPlayerResultGrows: states only the shared growth property of every line, not that exactly one player is appended; that exact effect is stated in `ResultLineAppendsOnePlayer` and `DroppedLineWithoutUidPanics`, and the player's fields in `PlayerResolvedByUid`.
- SimStatsGrows: states only the shared growth property of every line, not that only the last record's id changes; that exact effect is stated in `MatchIdSetsOnlyId`.
- MissionEndGrows: states only the shared growth property of every line, not that the last record becomes complete; that exact effect is stated in `MissionEndCompletesRecord`.
- FrameCountGrows: states only the shared growth property of every line, not that only the last record's frames change; that exact effect is stated in `FrameCountSetsOnlyFrames`.
- Logfile.BlockComplete (src-tauri/src/core/logfile.rs:59-61) carries no contract of its own. Its role is stated in `MissionStartOpensRecord`, `MissionStartReusesOpenRecord`, `MissionEndCompletesRecord` and `RunKeepsOnlyLastOpen`.
- Logfile.ResolveByRelicId and Logfile.ResolveByUid (src-tauri/src/core/logfile.rs:219-222 and 245-249) carry no contract of their own. They are stated in `PlayerResolvedByRelicId` and `PlayerResolvedByUid`.
- PlayerInfo.GroupInt (src-tauri/src/core/player_info.rs:86-94) carries no contract of its own. It is stated in `GroupIntOfCaptures` and in the ensures of `PlayerInfo.Parse`.
- Game.MergePlayer (src-tauri/src/core/game.rs:91-104) carries no contract of its own. It is stated in the ensures of `MergePlayers`.
- Text.Contains carries no contract of its own. It is stated in `RemoveAllUnchangedIff`, `RemoveAllShortens` and `RemoveAllNoOccurrence`.
- ReplayReporterDto.PlayerDtoFrom and ReplayReporterDto.MessageDtoFrom carry no contract of their own. What they state is proved in `PlayerDtoOfMerged`, `MessageDtoRoundTrip`, `PlayerDtos` and `MessageDtos`.
- Game.ActionSimId: models the 8-bit subtraction with wrap-around, as in a release build. A debug build panics for bytes below 0xE8.
- Integer widths of the replay library's fields (`u32`, `u64`, `u8`) and the `as usize` casts on them are not modelled. Those numbers are unbounded `nat`s, because the replay library is not part of this model.
- The reporter's RFC 3339 time stamp (src-tauri/src/core/replay_reporter_dto.rs:113) reads the wall clock. It is the parameter `now`.
- The `copy_replay_file`, `send_replay_to_server`, `transform_replay_to_base64` and `notify_main_window` methods of game.rs are left out: filesystem, HTTP, base64 and window messaging.
- The file watcher and debouncer in mod.rs, the bootstrap in main.rs and error display in error.rs are left out. mod.rs is not part of this model.
- The user interface under `src/` is left out.
- Decoding of the replay file is left out. `Game.ReplayInfo` stands for what the replay library returns.
