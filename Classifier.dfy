/** The session-error classifier (`handleSessionError`): decides from an
    error's message whether the session was lost, and what it does about it. */
module Classifier {
  import opened Values
  import opened Text
  import opened Effects

  /** Substrings that mean the browser session behind the client is gone. */
  const SessionClosedMarkers: seq<string> := ["Session closed", "Protocol error", "Target closed"]

  /** Substring that means a stale browser profile lock blocks the client. */
  const LockMarker: string := "SingletonLock"

  const LockPath: string := "/root/app/soporte/.wwebjs_auth/session-cliente-2/SingletonLock"

  /** The cleanup commands, in the order they are run. */
  const CleanupSteps: seq<Effect> :=
    [KillProcesses("puppeteer"), KillProcesses("chrome"), RemoveFile(LockPath)]

  datatype Verdict = Unrecognised | SessionClosed | LockContention

  /** Which of the three cleanup commands would succeed if run. */
  datatype Cleanup = Cleanup(puppeteerKilled: bool, chromeKilled: bool, lockRemoved: bool)
  {
    predicate Complete() {
      puppeteerKilled && chromeKilled && lockRemoved
    }
  }

  ghost predicate Mentions(message: string, marker: string) {
    exists i :: OccursAt(message, marker, i)
  }

  /** The classification `handleSessionError` makes, by scanning the message
      for each marker in turn. */
  function Classify(message: string): Verdict {
    if Contains(message, "Session closed") || Contains(message, "Protocol error")
      || Contains(message, "Target closed")
    then SessionClosed
    else if Contains(message, LockMarker) then LockContention
    else Unrecognised
  }

  /** Session-closed markers are tested first, so they win over a lock
      marker in the same text; an error without a message is never
      recognised. */
  lemma ClassifyMeaning(message: string)
    ensures Classify(message) == SessionClosed <==>
      exists k :: 0 <= k < |SessionClosedMarkers| && Mentions(message, SessionClosedMarkers[k])
    ensures Classify(message) == LockContention <==>
      Classify(message) != SessionClosed && Mentions(message, LockMarker)
    ensures message == "" ==> Classify(message) == Unrecognised
  {
    ContainsIffOccurs(message, SessionClosedMarkers[0]);
    ContainsIffOccurs(message, SessionClosedMarkers[1]);
    ContainsIffOccurs(message, SessionClosedMarkers[2]);
    ContainsIffOccurs(message, LockMarker);
  }

  /** `handleSessionError`'s return value: true when the error was recognised. */
  predicate Recoverable(message: string) {
    Classify(message) != Unrecognised
  }

  /** The cleanup commands actually run: each one only after the previous one
      succeeded, since the first to throw ends the `try` block. */
  function CleanupRun(c: Cleanup): (e: seq<Effect>)
    ensures 1 <= |e| <= |CleanupSteps| && e == CleanupSteps[..|e|]
    ensures |e| >= 2 <==> c.puppeteerKilled
    ensures |e| == |CleanupSteps| <==> c.puppeteerKilled && c.chromeKilled
  {
    [KillProcesses("puppeteer")]
    + if !c.puppeteerKilled then []
      else [KillProcesses("chrome")] + if !c.chromeKilled then [] else [RemoveFile(LockPath)]
  }

  /** The commands `handleSessionError` runs for an error with this message. */
  function ErrorEffects(message: string, c: Cleanup): seq<Effect> {
    if Classify(message) == LockContention then CleanupRun(c) else []
  }

  /** The readiness flag after `handleSessionError`, given the flag before. */
  function ReadyAfterError(ready: bool, message: string, c: Cleanup): bool {
    match Classify(message)
    case SessionClosed => false
    case LockContention => ready && !c.Complete()
    case Unrecognised => ready
  }

  /** Session-closed texts clear readiness and never run the lock cleanup,
      whatever else the text mentions. */
  lemma ClosedSessionSkipsCleanup(message: string, c: Cleanup, ready: bool)
    requires Contains(message, "Session closed") || Contains(message, "Protocol error")
      || Contains(message, "Target closed")
    ensures Recoverable(message)
    ensures !ReadyAfterError(ready, message, c) && ErrorEffects(message, c) == []
  {
  }

  /** Lock texts are always recoverable; readiness is cleared only when all
      three cleanup commands succeed, and is kept otherwise. */
  lemma LockCleanupOutcome(message: string, c: Cleanup, ready: bool)
    requires Contains(message, LockMarker)
    requires !Contains(message, "Session closed") && !Contains(message, "Protocol error")
      && !Contains(message, "Target closed")
    ensures Recoverable(message)
    ensures ReadyAfterError(ready, message, c) == (ready && !c.Complete())
    ensures ErrorEffects(message, c)[0] == KillProcesses("puppeteer")
    ensures KillProcesses("chrome") in ErrorEffects(message, c) <==> c.puppeteerKilled
    ensures RemoveFile(LockPath) in ErrorEffects(message, c) <==> c.puppeteerKilled && c.chromeKilled
  {
  }

  /** Any other text, and an error without a message, is not recoverable and
      changes nothing. */
  lemma UnrecognisedChangesNothing(message: string, c: Cleanup, ready: bool)
    requires !Contains(message, LockMarker)
    requires !Contains(message, "Session closed") && !Contains(message, "Protocol error")
      && !Contains(message, "Target closed")
    ensures !Recoverable(message)
    ensures ReadyAfterError(ready, message, c) == ready && ErrorEffects(message, c) == []
  {
  }
}
