/** The session state machine of RandomizerEngine.cs: at most one current
    session, started on request and ended manually. The session itself
    runs elsewhere; here it is an object whose start, stop and
    cancellation are recorded, and whose task, when awaited, ends in one of
    three outcomes. The await is one atomic step. */
module Engine {
  import opened Wrappers

  /** A running randomizer session, as far as the engine sees it. */
  class Session {
    var authorMaps: seq<string>
    var goldMaps: seq<string>
    var skippedMaps: seq<string>
    var started: bool
    var stopped: bool
    var cancellationRequested: bool
    /** Whether the session's task exists (`Task is not null`). */
    const hasTask: bool

    constructor (hasTask: bool)
      ensures authorMaps == [] && goldMaps == [] && skippedMaps == []
      ensures !started && !stopped && !cancellationRequested && this.hasTask == hasTask
    {
      authorMaps, goldMaps, skippedMaps := [], [], [];
      started, stopped, cancellationRequested := false, false, false;
      this.hasTask := hasTask;
    }

    method Start()
      modifies this
      ensures started
      ensures stopped == old(stopped) && cancellationRequested == old(cancellationRequested)
      ensures authorMaps == old(authorMaps) && goldMaps == old(goldMaps) && skippedMaps == old(skippedMaps)
    {
      started := true;
    }

    method Stop()
      modifies this
      ensures stopped
      ensures started == old(started) && cancellationRequested == old(cancellationRequested)
      ensures authorMaps == old(authorMaps) && goldMaps == old(goldMaps) && skippedMaps == old(skippedMaps)
    {
      stopped := true;
    }

    /** `TokenSource.Cancel()`. */
    method Cancel()
      modifies this
      ensures cancellationRequested
      ensures started == old(started) && stopped == old(stopped)
      ensures authorMaps == old(authorMaps) && goldMaps == old(goldMaps) && skippedMaps == old(skippedMaps)
    {
      cancellationRequested := true;
    }
  }

  /** How awaiting the session's task ends. */
  datatype TaskOutcome =
    | RanToCompletion
    | Canceled     // TaskCanceledException, which is swallowed
    | Faulted      // any other exception, which propagates

  /** What the rich presence is told: the counts of author, gold and
      skipped maps, or nothing when no session exists. */
  datatype ScoreReport = NoSession | Score(author: nat, gold: nat, skipped: nat)

  /** The engine's state as its two fields give it. */
  datatype EngineState = EngineState(running: bool, ending: bool)

  function StartStep(s: EngineState, hasGameDirectory: bool): EngineState {
    if hasGameDirectory then s.(running := true) else s
  }

  function ClearStep(s: EngineState): EngineState {
    s.(running := false)
  }

  /** The state after `EndSessionAsync`, and whether it throws. */
  function EndStep(s: EngineState, hasTask: bool, outcome: TaskOutcome): (r: (EngineState, bool))
  {
    if s.ending || !s.running then (s, false)
    else if hasTask && outcome == Faulted then (EngineState(true, true), true)
    else (EngineState(false, false), false)
  }

  /** Ending returns the engine to its idle state unless awaiting the task
      throws something other than a cancellation, in which case the
      session stays and the engine is left ending. */
  lemma EndStepResult(s: EngineState, hasTask: bool, outcome: TaskOutcome)
    requires s.running && !s.ending
    ensures var (t, thrown) := EndStep(s, hasTask, outcome);
      && (thrown <==> hasTask && outcome == Faulted)
      && (!thrown ==> !t.running && !t.ending)
      && (thrown ==> t.running && t.ending)
  {
  }

  /** Ending again right after an end, whatever its outcome, does nothing:
      either no session is left or the engine is still ending. */
  lemma EndStepIdempotent(s: EngineState, hasTask: bool, outcome: TaskOutcome, hasTask': bool, outcome': TaskOutcome)
    ensures var t := EndStep(s, hasTask, outcome).0;
            EndStep(t, hasTask', outcome') == (t, false)
  {
  }

  /** The engine is ending only while a session exists: every operation
      keeps this. */
  predicate EndingOnlyWhileRunning(s: EngineState) {
    s.ending ==> s.running
  }

  lemma StepsKeepEndingOnlyWhileRunning(s: EngineState, hasGameDirectory: bool, hasTask: bool, outcome: TaskOutcome)
    requires EndingOnlyWhileRunning(s)
    ensures EndingOnlyWhileRunning(StartStep(s, hasGameDirectory))
    ensures EndingOnlyWhileRunning(EndStep(s, hasTask, outcome).0)
  {
  }

  /** Events the engine sends out, in order. */
  datatype EngineEvent =
    | Status(text: string)
    | SessionWriterRemoved

  class RandomizerEngine {
    var currentSession: Session?
    var sessionEnding: bool
    /** `config.GameDirectory`. */
    const gameDirectory: Option<string>
    /** Whether the logger writes to files, so that a session writer exists. */
    const logsToFile: bool
    var events: seq<EngineEvent>

    constructor (gameDirectory: Option<string>, logsToFile: bool)
      ensures currentSession == null && !sessionEnding && events == []
      ensures this.gameDirectory == gameDirectory && this.logsToFile == logsToFile
    {
      currentSession := null;
      sessionEnding := false;
      this.gameDirectory := gameDirectory;
      this.logsToFile := logsToFile;
      events := [];
    }

    function State(): EngineState
      reads this
    {
      EngineState(currentSession != null, sessionEnding)
    }

    /** `HasSessionRunning`. */
    function HasSessionRunning(): (running: bool)
      reads this
      ensures running <==> State().running
    {
      currentSession != null
    }

    /** What `ScoreChanged` reports to the rich presence. */
    method ScoreChanged() returns (report: ScoreReport)
      ensures currentSession == null ==> report == NoSession
      ensures currentSession != null ==>
        report == Score(|currentSession.authorMaps|, |currentSession.goldMaps|, |currentSession.skippedMaps|)
    {
      if currentSession == null {
        report := NoSession;
      } else {
        report := Score(|currentSession.authorMaps|, |currentSession.goldMaps|, |currentSession.skippedMaps|);
      }
    }

    /** `StartSession`: without a game directory nothing happens; otherwise
        a new session replaces the current one, running or not, and starts. */
    method StartSession(hasTask: bool)
      modifies this
      ensures State() == StartStep(old(State()), gameDirectory.Some?)
      ensures gameDirectory.None? ==> currentSession == old(currentSession)
      ensures gameDirectory.Some? ==> fresh(currentSession) && currentSession.started && !currentSession.stopped
      ensures old(currentSession) != null ==> unchanged(old(currentSession))
      ensures events == old(events)
    {
      if gameDirectory.None? {
        return;
      }
      currentSession := new Session(hasTask);
      currentSession.Start();
    }

    /** `ClearCurrentSession`: stops the session, drops it, and removes the
        session log writer. */
    method ClearCurrentSession()
      modifies this, currentSession
      ensures State() == ClearStep(old(State()))
      ensures currentSession == null
      ensures old(currentSession) != null ==>
        && old(currentSession).stopped
        && old(currentSession).started == old(currentSession.started)
        && old(currentSession).cancellationRequested == old(currentSession.cancellationRequested)
        && old(currentSession).authorMaps == old(currentSession.authorMaps)
        && old(currentSession).goldMaps == old(currentSession.goldMaps)
        && old(currentSession).skippedMaps == old(currentSession.skippedMaps)
      ensures events == old(events) + (if logsToFile then [SessionWriterRemoved] else [])
      ensures sessionEnding == old(sessionEnding)
    {
      if currentSession != null {
        currentSession.Stop();
      }
      currentSession := null;
      if logsToFile {
        events := events + [SessionWriterRemoved];
      }
    }

    /** `EndSessionAsync`: unless a session is ending already or none
        exists, marks the engine as ending, announces it, cancels the
        session, awaits its task (when it has one) and clears the session.
        A cancellation of the task is swallowed; any other failure
        propagates and leaves the engine ending. */
    method EndSessionAsync(outcome: TaskOutcome) returns (thrown: bool)
      modifies this, currentSession
      ensures var hasTask := old(currentSession) != null && old(currentSession).hasTask;
              (State(), thrown) == EndStep(old(State()), hasTask, outcome)
      ensures old(sessionEnding) || old(currentSession) == null ==>
        currentSession == old(currentSession) && events == old(events) && !thrown
      ensures !old(sessionEnding) && old(currentSession) != null ==>
        && old(currentSession).cancellationRequested
        && old(currentSession).started == old(currentSession.started)
        && old(currentSession).authorMaps == old(currentSession.authorMaps)
        && old(currentSession).goldMaps == old(currentSession.goldMaps)
        && old(currentSession).skippedMaps == old(currentSession.skippedMaps)
        && (thrown ==> currentSession == old(currentSession)
                       && currentSession.stopped == old(currentSession.stopped)
                       && events == old(events) + [Status("Ending the session...")])
        && (!thrown ==> old(currentSession).stopped
                        && events == old(events) + [Status("Ending the session...")]
                                                 + (if logsToFile then [SessionWriterRemoved] else []))
    {
      if sessionEnding || currentSession == null {
        return false;
      }
      sessionEnding := true;
      events := events + [Status("Ending the session...")];
      currentSession.Cancel();
      if currentSession.hasTask {
        if outcome == Faulted {
          return true;
        }
      }
      ClearCurrentSession();
      sessionEnding := false;
      return false;
    }
  }
}
