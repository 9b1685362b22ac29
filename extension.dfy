/**
 * src/extension.ts: the session toggle. A single flag, `sessionInProgress`,
 * read and overwritten by the `codetrack.startSession` and
 * `codetrack.endSession` commands; an invalid transition only shows a
 * warning. Notifications are appended to a log instead of being shown.
 */
module Extension {

  const AlreadyInProgress := "A coding session is already in progress."
  const Started := "Started tracking your coding session"
  const NoneInProgress := "No coding session is currently in progress."
  const Ended := "Ended tracking your coding session"

  /** A notification shown through `showInformationMessage` or `showWarningMessage`. */
  datatype Notification = Info(text: string) | Warning(text: string)

  /** The two commands that touch the session flag. */
  datatype Command = StartSession | EndSession

  /** The new flag and the notification one command produces. */
  datatype Outcome = Outcome(inProgress: bool, notice: Notification)

  /**
   * One command: a start while idle or an end while a session runs flips the
   * flag and informs; the other two cases warn and leave the flag alone.
   */
  function Step(inProgress: bool, cmd: Command): (r: Outcome)
    ensures r.inProgress <==> cmd == StartSession
    ensures r.notice.Warning? <==> r.inProgress == inProgress
    ensures r.notice.text == match cmd
      case StartSession => if inProgress then AlreadyInProgress else Started
      case EndSession => if inProgress then Ended else NoneInProgress
  {
    match cmd
    case StartSession =>
      if inProgress then Outcome(inProgress, Warning(AlreadyInProgress))
      else Outcome(true, Info(Started))
    case EndSession =>
      if !inProgress then Outcome(inProgress, Warning(NoneInProgress))
      else Outcome(false, Info(Ended))
  }

  /** The flag after a sequence of commands. */
  function Run(inProgress: bool, cmds: seq<Command>): bool
    decreases |cmds|
  {
    if cmds == [] then inProgress else Run(Step(inProgress, cmds[0]).inProgress, cmds[1..])
  }

  /** Running two sequences is running the first, then the second. */
  lemma {:induction false} RunAppend(inProgress: bool, a: seq<Command>, b: seq<Command>)
    ensures Run(inProgress, a + b) == Run(Run(inProgress, a), b)
    decreases |a|
  {
    if a == [] {
      assert a + b == b;
    } else {
      assert (a + b)[0] == a[0];
      assert (a + b)[1..] == a[1..] + b;
      RunAppend(Step(inProgress, a[0]).inProgress, a[1..], b);
    }
  }

  /**
   * After any non-empty sequence of commands the flag says whether the last
   * command was a start; with none, it keeps its initial value.
   */
  lemma {:induction false} FlagFollowsLastCommand(inProgress: bool, cmds: seq<Command>)
    ensures Run(inProgress, cmds) == if cmds == [] then inProgress else cmds[|cmds| - 1] == StartSession
    decreases |cmds|
  {
    if cmds != [] {
      FlagFollowsLastCommand(Step(inProgress, cmds[0]).inProgress, cmds[1..]);
    }
  }

  /** A start repeated is a single start: `start; start` ≡ `start` in any context. */
  lemma RepeatedStartIsOneStart(inProgress: bool, before: seq<Command>, after: seq<Command>)
    ensures Run(inProgress, before + [StartSession, StartSession] + after)
         == Run(inProgress, before + [StartSession] + after)
  {
    RunAppend(inProgress, before + [StartSession, StartSession], after);
    RunAppend(inProgress, before, [StartSession, StartSession]);
    RunAppend(inProgress, before + [StartSession], after);
    RunAppend(inProgress, before, [StartSession]);
  }

  /** An end repeated is a single end: `end; end` ≡ `end` in any context. */
  lemma RepeatedEndIsOneEnd(inProgress: bool, before: seq<Command>, after: seq<Command>)
    ensures Run(inProgress, before + [EndSession, EndSession] + after)
         == Run(inProgress, before + [EndSession] + after)
  {
    RunAppend(inProgress, before + [EndSession, EndSession], after);
    RunAppend(inProgress, before, [EndSession, EndSession]);
    RunAppend(inProgress, before + [EndSession], after);
    RunAppend(inProgress, before, [EndSession]);
  }

  /** The extension's module state and the notifications it has shown. */
  class CodeTrack {
    var sessionInProgress: bool
    var notifications: seq<Notification>

    /** Module load: no session in progress. */
    constructor ()
      ensures !sessionInProgress && notifications == []
    {
      sessionInProgress := false;
      notifications := [];
    }

    /** The `codetrack.startSession` handler. */
    method StartSession()
      modifies this
      ensures sessionInProgress == Step(old(sessionInProgress), Command.StartSession).inProgress
      ensures notifications == old(notifications) + [Step(old(sessionInProgress), Command.StartSession).notice]
    {
      if sessionInProgress {
        notifications := notifications + [Warning(AlreadyInProgress)];
        return;
      }
      sessionInProgress := true;
      notifications := notifications + [Info(Started)];
    }

    /** The `codetrack.endSession` handler. */
    method EndSession()
      modifies this
      ensures sessionInProgress == Step(old(sessionInProgress), Command.EndSession).inProgress
      ensures notifications == old(notifications) + [Step(old(sessionInProgress), Command.EndSession).notice]
    {
      if !sessionInProgress {
        notifications := notifications + [Warning(NoneInProgress)];
        return;
      }
      sessionInProgress := false;
      notifications := notifications + [Info(Ended)];
    }

    /**
     * The configuration-change handler: it reads the three settings into
     * fresh locals that shadow the outer ones, so no state changes.
     */
    method OnDidChangeConfiguration(affectsCodetrack: bool, notionSecret: string, trackingDatabaseUrl: string, autoStartOnVSCode: bool)
      ensures sessionInProgress == old(sessionInProgress) && notifications == old(notifications)
    {
      if affectsCodetrack {
        var secret, databaseUrl, autoStart := notionSecret, trackingDatabaseUrl, autoStartOnVSCode;
      }
    }
  }
}
