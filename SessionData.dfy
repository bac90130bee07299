/** The persisted record of a session (SessionData.cs): when it started,
    the rules it was played with and, per map, its result and the replays
    attributed to it. Saving is an event in a log of file-system effects;
    what gets serialised is the snapshot the event carries. */
module SessionRecords {
  import opened Wrappers
  import opened Strings

  // ---------------------------------------------------------------------
  // The start time and its text

  /** A `DateTimeOffset`, down to the second. Its sub-second ticks and its
      offset from UTC are not part of this model. */
  datatype Moment = Moment(year: nat, month: nat, day: nat, hour: nat, minute: nat, second: nat)

  type Instant = m: Moment
    | 1 <= m.year <= 9999 && 1 <= m.month <= 12 && 1 <= m.day <= 31
      && m.hour < 24 && m.minute < 60 && m.second < 60
    witness Moment(1, 1, 1, 0, 0, 0)

  /** `StartedAt.ToString("yyyy-MM-dd HH_mm_ss")`: the name of the session's
      directory, with the fields of the Gregorian calendar, as the
      invariant culture writes them. The source passes no format provider,
      so it writes the current culture's calendar. */
  function StartedAtText(t: Instant): (s: string)
    ensures |s| == 19
  {
    PadDigits(t.year, 4) + "-" + PadDigits(t.month, 2) + "-" + PadDigits(t.day, 2)
    + " " + PadDigits(t.hour, 2) + "_" + PadDigits(t.minute, 2) + "_" + PadDigits(t.second, 2)
  }

  /** Reads a `yyyy-MM-dd HH_mm_ss` text back. */
  function ParseStartedAtText(s: string): Option<Instant> {
    if |s| == 19 && s[4] == '-' && s[7] == '-' && s[10] == ' ' && s[13] == '_' && s[16] == '_'
       && AllDigits(s[0..4]) && AllDigits(s[5..7]) && AllDigits(s[8..10])
       && AllDigits(s[11..13]) && AllDigits(s[14..16]) && AllDigits(s[17..19])
    then
      var m := Moment(DigitsValue(s[0..4]), DigitsValue(s[5..7]), DigitsValue(s[8..10]),
                      DigitsValue(s[11..13]), DigitsValue(s[14..16]), DigitsValue(s[17..19]));
      if 1 <= m.year <= 9999 && 1 <= m.month <= 12 && 1 <= m.day <= 31
         && m.hour < 24 && m.minute < 60 && m.second < 60
      then Some(m) else None
    else None
  }

  /** The directory name gives the clock fields of the start time back:
      year to second. Two sessions started within the same second, or at
      the same local clock time on both sides of a change of UTC offset,
      get the same directory. */
  lemma StartedAtTextRoundTrip(t: Instant)
    ensures ParseStartedAtText(StartedAtText(t)) == Some(t)
  {
    var s := StartedAtText(t);
    assert s[0..4] == PadDigits(t.year, 4);
    assert s[5..7] == PadDigits(t.month, 2);
    assert s[8..10] == PadDigits(t.day, 2);
    assert s[11..13] == PadDigits(t.hour, 2);
    assert s[14..16] == PadDigits(t.minute, 2);
    assert s[17..19] == PadDigits(t.second, 2);
    PadDigitsRoundTrip(t.year, 4);
    PadDigitsRoundTrip(t.month, 2);
    PadDigitsRoundTrip(t.day, 2);
    PadDigitsRoundTrip(t.hour, 2);
    PadDigitsRoundTrip(t.minute, 2);
    PadDigitsRoundTrip(t.second, 2);
  }

  /** The directory name holds digits, '-', ' ' and '_' only: no ':' and no
      path separator. */
  lemma StartedAtTextCharacters(t: Instant, k: nat)
    requires k < 19
    ensures var c := StartedAtText(t)[k]; IsDigit(c) || c == '-' || c == ' ' || c == '_'
  {
    var s := StartedAtText(t);
    assert s[0..4] == PadDigits(t.year, 4);
    assert s[5..7] == PadDigits(t.month, 2);
    assert s[8..10] == PadDigits(t.day, 2);
    assert s[11..13] == PadDigits(t.hour, 2);
    assert s[14..16] == PadDigits(t.minute, 2);
    assert s[17..19] == PadDigits(t.second, 2);
    if k < 4 { assert s[k] == s[0..4][k]; }
    else if 4 < k < 7 { assert s[k] == s[5..7][k - 5]; }
    else if 7 < k < 10 { assert s[k] == s[8..10][k - 8]; }
    else if 10 < k < 13 { assert s[k] == s[11..13][k - 11]; }
    else if 13 < k < 16 { assert s[k] == s[14..16][k - 14]; }
    else if 16 < k { assert s[k] == s[17..19][k - 17]; }
  }

  // ---------------------------------------------------------------------
  // Maps, replays and the configuration

  /** A replay attributed to a map: its file name in the session's replay
      directory and the session time at which it was made. */
  datatype Replay = Replay(fileName: string, timestamp: int)

  /** A `SessionDataMap`: the map's uid, its result, the session time of its
      last event and its replays. */
  datatype DataMap = DataMap(uid: string, result: Option<string>, lastTimestamp: Option<int>, replays: seq<Replay>)

  datatype PlayMode = Race | Platform | Puzzle | Crazy | Shortcut | Stunts | Script

  /** The map being played, as the session reports it. */
  datatype SessionMap = SessionMap(mapUid: string, mapName: string, mode: PlayMode, lastTimestamp: Option<int>)

  /** One ghost of a replay: the numbers the score text uses. */
  datatype ReplayGhost = ReplayGhost(stuntScore: int, respawns: int)

  /** A parsed replay: its ghosts (clips excluded), its time already written
      as a TM time string, and the player's login. */
  datatype ReplayRecord = ReplayRecord(ghosts: seq<ReplayGhost>, timeText: string, playerLogin: string)

  /** The rules of the randomizer, read at construction. */
  datatype RandomizerRules = RandomizerRules(timeLimit: int)

  /** The configuration the session data reads. */
  datatype RandomizerConfig = RandomizerConfig(rules: RandomizerRules, replayFileFormat: Option<string>)

  /** The text operations the replay file name goes through, which are not
      part of this model: cleaning the map name (deformatting, trimming,
      replacing special characters) and `string.Format` followed by
      `ClearFileName`. `string.Format` throws on a format it cannot read
      (an unbalanced brace, an argument index past the third): then
      `replayFileName` gives `None`. */
  datatype Formatters = Formatters(cleanMapName: string -> string,
                                   replayFileName: (string, string, string, string) -> Option<string>)

  /** The exceptions the updates can throw. */
  datatype SessionError =
    | NoGhost                // `First` on a replay without ghosts
    | BadReplayFileFormat    // the `FormatException` of `string.Format`
    | NoSuchMap              // `First` on the maps: no map with that uid

  /** What the session file holds when it is written. */
  datatype Snapshot = Snapshot(version: Option<string>, startedAt: Instant, originalTimeLimit: int,
                               rules: RandomizerRules, maps: seq<DataMap>)

  /** The file-system effects, in the order they happen. */
  datatype FileEvent =
    | CreateSessionDirectory(path: seq<string>)
    | CreateReplaysDirectory
    | CopyReplay(from: string, toName: string)
    | WriteSessionFile(snapshot: Snapshot)

  // ---------------------------------------------------------------------
  // The pure parts of the updates

  /** `Maps.First(x => x.Uid == uid)`, as a position. */
  function FirstIndex(maps: seq<DataMap>, uid: string): (k: Option<nat>)
    ensures k.Some? ==> k.value < |maps| && maps[k.value].uid == uid
                        && forall j | 0 <= j < k.value :: maps[j].uid != uid
    ensures k.None? <==> forall j | 0 <= j < |maps| :: maps[j].uid != uid
  {
    if maps == [] then None
    else if maps[0].uid == uid then Some(0)
    else
      var k := FirstIndex(maps[1..], uid);
      if k.Some? then Some(k.value + 1) else None
  }

  /** The maps after a result is recorded on the first map with the uid,
      or None when there is none (`First` throws). */
  function WithResult(maps: seq<DataMap>, uid: string, result: string, lastTimestamp: Option<int>)
    : (res: Option<seq<DataMap>>)
    ensures res.None? <==> FirstIndex(maps, uid).None?
    ensures res.Some? ==>
      var k := FirstIndex(maps, uid).value;
      && |res.value| == |maps|
      && res.value[k] == DataMap(uid, Some(result), lastTimestamp, maps[k].replays)
      && forall j | 0 <= j < |maps| && j != k :: res.value[j] == maps[j]
  {
    var k := FirstIndex(maps, uid);
    if k.None? then None
    else Some(maps[k.value := maps[k.value].(result := Some(result), lastTimestamp := lastTimestamp)])
  }

  /** The maps after a replay is appended to the first map with the uid, or
      None when there is none. */
  function WithReplay(maps: seq<DataMap>, uid: string, replay: Replay): (res: Option<seq<DataMap>>)
    ensures res.None? <==> FirstIndex(maps, uid).None?
    ensures res.Some? ==>
      var k := FirstIndex(maps, uid).value;
      && |res.value| == |maps|
      && res.value[k] == maps[k].(replays := maps[k].replays + [replay])
      && forall j | 0 <= j < |maps| && j != k :: res.value[j] == maps[j]
  {
    var k := FirstIndex(maps, uid);
    if k.None? then None
    else Some(maps[k.value := maps[k.value].(replays := maps[k.value].replays + [replay])])
  }

  /** All replays of all maps, in order. */
  function AllReplays(maps: seq<DataMap>): seq<Replay> {
    if maps == [] then [] else maps[0].replays + AllReplays(maps[1..])
  }

  lemma {:induction false} AllReplaysAppend(maps: seq<DataMap>, k: nat, replay: Replay)
    requires k < |maps|
    ensures |AllReplays(maps[k := maps[k].(replays := maps[k].replays + [replay])])| == |AllReplays(maps)| + 1
  {
    var updated := maps[k := maps[k].(replays := maps[k].replays + [replay])];
    if k > 0 {
      assert updated[1..] == maps[1..][k - 1 := maps[1..][k - 1].(replays := maps[1..][k - 1].replays + [replay])];
      AllReplaysAppend(maps[1..], k - 1, replay);
    } else {
      assert updated[1..] == maps[1..];
    }
  }

  /** Attributing a replay adds exactly one replay to the session, and the
      replays keep their order: the map's earlier replays come first. */
  lemma WithReplayAddsOne(maps: seq<DataMap>, uid: string, replay: Replay)
    requires WithReplay(maps, uid, replay).Some?
    ensures |AllReplays(WithReplay(maps, uid, replay).value)| == |AllReplays(maps)| + 1
    ensures var k := FirstIndex(maps, uid).value;
            WithReplay(maps, uid, replay).value[k].replays[..|maps[k].replays|] == maps[k].replays
  {
    var k := FirstIndex(maps, uid).value;
    AllReplaysAppend(maps, k, replay);
    assert WithReplay(maps, uid, replay).value == maps[k := maps[k].(replays := maps[k].replays + [replay])];
  }

  /** Recording a result touches no replay. */
  lemma {:induction false} WithResultKeepsReplays(maps: seq<DataMap>, uid: string, result: string, lastTimestamp: Option<int>)
    requires WithResult(maps, uid, result, lastTimestamp).Some?
    ensures AllReplays(WithResult(maps, uid, result, lastTimestamp).value) == AllReplays(maps)
  {
    var ms := WithResult(maps, uid, result, lastTimestamp).value;
    SameReplays(maps, ms);
  }

  lemma {:induction false} SameReplays(a: seq<DataMap>, b: seq<DataMap>)
    requires |a| == |b| && forall j | 0 <= j < |a| :: a[j].replays == b[j].replays
    ensures AllReplays(a) == AllReplays(b)
  {
    if a != [] {
      SameReplays(a[1..], b[1..]);
    }
  }

  /** The score part of the replay name: the stunt score and '_' on Stunts,
      the respawn count and '_' on Platform, nothing otherwise, followed by
      the time; the first ghost is required on the first two modes. */
  function ScoreText(mode: PlayMode, replay: ReplayRecord): (r: Result<string, SessionError>)
    ensures r.Failure? <==> (mode == Stunts || mode == Platform) && replay.ghosts == []
    ensures r.Failure? ==> r.error == NoGhost
  {
    match mode
    case Stunts =>
      if replay.ghosts == [] then Failure(NoGhost)
      else Success(IntToDecimal(replay.ghosts[0].stuntScore) + "_" + replay.timeText)
    case Platform =>
      if replay.ghosts == [] then Failure(NoGhost)
      else Success(IntToDecimal(replay.ghosts[0].respawns) + "_" + replay.timeText)
    case _ => Success(replay.timeText)
  }

  /** The score text reads back: split at its first '_', the prefix is the
      first ghost's stunt score or respawn count and the rest is the time;
      on every other mode it is the time alone. */
  lemma ScoreTextReadBack(mode: PlayMode, replay: ReplayRecord)
    requires '_' !in replay.timeText
    requires ScoreText(mode, replay).Success?
    ensures var score := ScoreText(mode, replay).value;
      if mode == Stunts || mode == Platform then
        var n := if mode == Stunts then replay.ghosts[0].stuntScore else replay.ghosts[0].respawns;
        Split(score, '_') == [IntToDecimal(n), replay.timeText] && ParseInt(Split(score, '_')[0]) == Some(n)
      else score == replay.timeText
  {
    if mode == Stunts || mode == Platform {
      var n := if mode == Stunts then replay.ghosts[0].stuntScore else replay.ghosts[0].respawns;
      IntToDecimalChars(n, '_');
      SplitAfter(IntToDecimal(n), '_', replay.timeText);
      SplitWithout(replay.timeText, '_');
      IntToDecimalRoundTrip(n);
    }
  }

  /** The replay name format: the configured one unless it is null or white
      space only, in which case the default. */
  function ReplayFileFormat(configured: Option<string>, defaultFormat: string): (format: string)
    ensures IsNullOrWhiteSpace(configured) ==> format == defaultFormat
    ensures !IsNullOrWhiteSpace(configured) ==> format == configured.value
  {
    if IsNullOrWhiteSpace(configured) then defaultFormat else configured.value
  }

  /** With a default that is not blank, the format used is never blank. */
  lemma ReplayFileFormatNotBlank(configured: Option<string>, defaultFormat: string)
    requires !IsNullOrWhiteSpace(Some(defaultFormat))
    ensures !IsNullOrWhiteSpace(Some(ReplayFileFormat(configured, defaultFormat)))
  {
  }

  /** The replay's file name: `None` when there is no score (no ghost) or
      when `string.Format` rejects the replay file format. */
  function ReplayName(config: RandomizerConfig, defaultFormat: string, fmt: Formatters,
                      sessionMap: SessionMap, replay: ReplayRecord): (name: Option<string>)
    ensures ScoreText(sessionMap.mode, replay).Failure? ==> name.None?
    ensures ScoreText(sessionMap.mode, replay).Success? ==>
              name == fmt.replayFileName(ReplayFileFormat(config.replayFileFormat, defaultFormat),
                                         fmt.cleanMapName(sessionMap.mapName),
                                         ScoreText(sessionMap.mode, replay).value, replay.playerLogin)
  {
    match ScoreText(sessionMap.mode, replay)
    case Failure(_) => None
    case Success(score) =>
      fmt.replayFileName(ReplayFileFormat(config.replayFileFormat, defaultFormat),
                         fmt.cleanMapName(sessionMap.mapName), score, replay.playerLogin)
  }

  // ---------------------------------------------------------------------
  // The record

  class SessionData {
    var version: Option<string>
    var startedAt: Instant
    var originalTimeLimit: int
    var rules: RandomizerRules
    var maps: seq<DataMap>
    /** The sessions directory joined with the start time text. */
    const directoryPath: seq<string>
    const config: RandomizerConfig
    const hasFileSystem: bool
    /** How many times `Save` ran, with or without a file system. */
    var saves: nat
    var fileEvents: seq<FileEvent>

    function Snap(): Snapshot
      reads this
    {
      Snapshot(version, startedAt, originalTimeLimit, rules, maps)
    }

    /** The private constructor: the time limit is read from the
        configuration's rules and the rules themselves are taken from it, the
        directory is named after the start. The source shares the rules
        object with the configuration; here the rules are a value, the ones
        the configuration holds at construction. */
    constructor (version: Option<string>, startedAt: Instant, config: RandomizerConfig,
                 sessionsDirectory: string, hasFileSystem: bool)
      ensures this.version == version && this.startedAt == startedAt
      ensures originalTimeLimit == config.rules.timeLimit && rules == config.rules
      ensures directoryPath == [sessionsDirectory, StartedAtText(startedAt)]
      ensures this.config == config && this.hasFileSystem == hasFileSystem
      ensures maps == [] && saves == 0 && fileEvents == []
    {
      this.version := version;
      this.startedAt := startedAt;
      originalTimeLimit := config.rules.timeLimit;
      this.config := config;
      this.hasFileSystem := hasFileSystem;
      rules := config.rules;
      directoryPath := [sessionsDirectory, StartedAtText(startedAt)];
      maps := [];
      saves := 0;
      fileEvents := [];
    }

    /** `Initialize`: a record on a file system, its directory created and
        the record saved once. */
    static method Initialize(version: Option<string>, startedAt: Instant, config: RandomizerConfig,
                             sessionsDirectory: string) returns (data: SessionData)
      ensures fresh(data)
      ensures data.version == version && data.startedAt == startedAt
      ensures data.originalTimeLimit == config.rules.timeLimit && data.rules == config.rules
      ensures data.directoryPath == [sessionsDirectory, StartedAtText(startedAt)]
      ensures data.config == config && data.hasFileSystem && data.maps == []
      ensures data.saves == 1
      ensures data.fileEvents == [CreateSessionDirectory(data.directoryPath), WriteSessionFile(data.Snap())]
    {
      data := new SessionData(version, startedAt, config, sessionsDirectory, true);
      data.fileEvents := data.fileEvents + [CreateSessionDirectory(data.directoryPath)];
      data.Save();
    }

    /** `Save`: one save event; the file is written only on a file system. */
    method Save()
      modifies this
      ensures saves == old(saves) + 1
      ensures fileEvents == old(fileEvents) + (if hasFileSystem then [WriteSessionFile(old(Snap()))] else [])
      ensures version == old(version) && startedAt == old(startedAt) && originalTimeLimit == old(originalTimeLimit)
      ensures rules == old(rules) && maps == old(maps)
    {
      saves := saves + 1;
      if hasFileSystem {
        fileEvents := fileEvents + [WriteSessionFile(Snap())];
      }
    }

    /** `SetMapResult`: records the result and the last timestamp on the
        first map with the uid, then saves; throws, changing nothing, when
        no map has it. */
    method SetMapResult(sessionMap: SessionMap, result: string) returns (thrown: Option<SessionError>)
      modifies this
      ensures thrown.None? <==> FirstIndex(old(maps), sessionMap.mapUid).Some?
      ensures thrown.Some? ==> thrown.value == NoSuchMap
      ensures thrown.Some? ==> maps == old(maps) && saves == old(saves) && fileEvents == old(fileEvents)
      ensures thrown.None? ==> maps == WithResult(old(maps), sessionMap.mapUid, result, sessionMap.lastTimestamp).value
      ensures thrown.None? ==> saves == old(saves) + 1
      ensures thrown.None? ==> fileEvents == old(fileEvents) + (if hasFileSystem then [WriteSessionFile(Snap())] else [])
      ensures version == old(version) && startedAt == old(startedAt) && originalTimeLimit == old(originalTimeLimit)
      ensures rules == old(rules)
    {
      var k := FirstIndex(maps, sessionMap.mapUid);
      if k.None? {
        return Some(NoSuchMap);
      }
      var i := k.value;
      maps := maps[i := maps[i].(result := Some(result))];
      maps := maps[i := maps[i].(lastTimestamp := sessionMap.lastTimestamp)];
      Save();
      return None;
    }

    /** `UpdateFromAutosave`: names the replay after the map, the score and
        the player, copies it into the replay directory when there is a file
        system, appends it to the first map with the uid and saves. No ghost
        on a Stunts or Platform map, and a replay file format `string.Format`
        cannot read, throw before anything happens; a missing map throws
        after the copy, before the append. */
    method UpdateFromAutosave(fullPath: string, sessionMap: SessionMap, replay: ReplayRecord, elapsed: int,
                              defaultFormat: string, fmt: Formatters) returns (thrown: Option<SessionError>)
      modifies this
      ensures ScoreText(sessionMap.mode, replay).Failure? ==> thrown == Some(NoGhost)
      ensures ScoreText(sessionMap.mode, replay).Success? && ReplayName(config, defaultFormat, fmt, sessionMap, replay).None?
              ==> thrown == Some(BadReplayFileFormat)
      ensures ReplayName(config, defaultFormat, fmt, sessionMap, replay).Some? ==>
                (thrown.None? <==> FirstIndex(old(maps), sessionMap.mapUid).Some?)
                && (thrown.Some? ==> thrown == Some(NoSuchMap))
      ensures ReplayName(config, defaultFormat, fmt, sessionMap, replay).None? ==>
                maps == old(maps) && saves == old(saves) && fileEvents == old(fileEvents)
      ensures ReplayName(config, defaultFormat, fmt, sessionMap, replay).Some? ==>
        var name := ReplayName(config, defaultFormat, fmt, sessionMap, replay).value;
        var copied := old(fileEvents) + (if hasFileSystem then [CreateReplaysDirectory, CopyReplay(fullPath, name)] else []);
        && (thrown == Some(NoSuchMap) ==> maps == old(maps) && saves == old(saves) && fileEvents == copied)
        && (thrown.None? ==>
              && maps == WithReplay(old(maps), sessionMap.mapUid, Replay(name, elapsed)).value
              && saves == old(saves) + 1
              && fileEvents == copied + (if hasFileSystem then [WriteSessionFile(Snap())] else []))
      ensures version == old(version) && startedAt == old(startedAt) && originalTimeLimit == old(originalTimeLimit)
      ensures rules == old(rules)
    {
      var score := ScoreText(sessionMap.mode, replay);
      if score.Failure? {
        return Some(score.error);
      }
      var mapName := fmt.cleanMapName(sessionMap.mapName);
      var replayFileFormat := ReplayFileFormat(config.replayFileFormat, defaultFormat);
      var formatted := fmt.replayFileName(replayFileFormat, mapName, score.value, replay.playerLogin);
      if formatted.None? {
        return Some(BadReplayFileFormat);
      }
      var replayFileName := formatted.value;
      if hasFileSystem {
        fileEvents := fileEvents + [CreateReplaysDirectory];
        fileEvents := fileEvents + [CopyReplay(fullPath, replayFileName)];
      }
      var k := FirstIndex(maps, sessionMap.mapUid);
      if k.None? {
        return Some(NoSuchMap);
      }
      var i := k.value;
      maps := maps[i := maps[i].(replays := maps[i].replays + [Replay(replayFileName, elapsed)])];
      Save();
      return None;
    }
  }
}
