/** The session supervisor: the readiness flag and the time of the last
    successful operation, and every handler that changes them — the error
    classifier, the readiness probe, the health check and its 30-second tick,
    the zombie watchdog's 5-minute tick, and the client's lifecycle events.
    Time is the `now` argument of each operation (milliseconds); the calls made
    on the outside world are appended to `trace`, and their outcomes are
    arguments. */
module Session {
  import opened Values
  import opened Effects
  import opened Classifier
  import opened Bridge

  /** Idle time after which a ready client is presumed a zombie. */
  const MaxIdleMs: int := 15 * 60 * 1000

  /** Delay between destroying a zombie client and initializing it again. */
  const RestartDelayMs: int := 5000

  /** The state `getState` reports for a working session. */
  const Connected: string := "CONNECTED"

  /** The environment variables the core reads; absent ones are `None`. */
  datatype Config = Config(onMessage: Option<string>, onDown: Option<string>, tokenAccess: Option<string>)

  /** The watchdog's test: ready, and idle for strictly longer than allowed. */
  predicate IsZombie(ready: bool, lastOp: int, now: int) {
    ready && now - lastOp > MaxIdleMs
  }

  /** The ONDOWN post made by `notifyDown`, when ONDOWN is set. */
  function DownNotice(onDown: Option<string>, reason: Json, now: int): seq<Effect> {
    if IsSet(onDown) then [Post(onDown.value, DownPayload(reason, now))] else []
  }

  /** The ONMESSAGE post made after a call was rejected, when ONMESSAGE is set. */
  function CallNotice(onMessage: Option<string>, call: IncomingCall, now: int): seq<Effect> {
    if IsSet(onMessage) then [Post(onMessage.value, CallPayload(call, now))] else []
  }

  class Supervisor {
    /** `whatsappState.isReady` */
    var ready: bool
    /** `lastSuccessfulOperation` */
    var lastOp: int
    /** The calls made on the outside world so far, oldest first. */
    var trace: seq<Effect>

    /** The state at module load: not ready, last operation now. */
    constructor (now: int)
      ensures !ready && lastOp == now && trace == []
    {
      ready := false;
      lastOp := now;
      trace := [];
    }

    /** `updateLastOperation` */
    method UpdateLastOperation(now: int)
      modifies this`lastOp
      ensures lastOp == now
    {
      lastOp := now;
    }

    /** `handleSessionError`: reports whether the error was recognised, clears
        readiness for a closed session, and for a lock error runs the cleanup
        commands, clearing readiness only when all of them succeed. */
    method HandleSessionError(message: string, cleanup: Cleanup) returns (recoverable: bool)
      modifies this`ready, this`trace
      ensures recoverable == Recoverable(message)
      ensures ready == ReadyAfterError(old(ready), message, cleanup)
      ensures trace == old(trace) + ErrorEffects(message, cleanup)
    {
      var verdict := Classify(message);
      if verdict == SessionClosed {
        ready := false;
        return true;
      }
      if verdict == LockContention {
        trace := trace + [KillProcesses("puppeteer")];
        if cleanup.puppeteerKilled {
          trace := trace + [KillProcesses("chrome")];
          if cleanup.chromeKilled {
            trace := trace + [RemoveFile(LockPath)];
            if cleanup.lockRemoved {
              ready := false;
            }
          }
        }
        return true;
      }
      return false;
    }

    /** `isClientReady`: false at once when not marked ready; otherwise asks
        for the state, refreshes the timestamp whenever an answer comes back
        (connected or not), and clears readiness when the question throws. */
    method IsClientReady(now: int, state: Result<string>) returns (ok: bool)
      modifies this
      ensures ok <==> old(ready) && state == Ok(Connected)
      ensures ready == (old(ready) && state.Ok?)
      ensures lastOp == if old(ready) && state.Ok? then now else old(lastOp)
      ensures trace == old(trace) + if old(ready) then [GetState] else []
    {
      if !ready {
        return false;
      }
      trace := trace + [GetState];
      match state
      case Ok(s) =>
        UpdateLastOperation(now);
        ok := s == Connected;
      case Err(_) =>
        ready := false;
        ok := false;
    }

    /** `performHealthCheck`: when ready, asks for the state and then for the
        contacts; both answering refreshes the timestamp, and the check passes
        when the state is connected. The first call to throw goes through the
        classifier and fails the check. */
    method PerformHealthCheck(now: int, state: Result<string>, contacts: Result<()>, cleanup: Cleanup)
      returns (healthy: bool)
      modifies this
      ensures healthy <==> old(ready) && state == Ok(Connected) && contacts.Ok?
      ensures !old(ready) ==>
        ready == old(ready) && lastOp == old(lastOp) && trace == old(trace)
      ensures old(ready) && state.Err? ==>
        && ready == ReadyAfterError(true, state.message, cleanup)
        && lastOp == old(lastOp)
        && trace == old(trace) + [GetState] + ErrorEffects(state.message, cleanup)
      ensures old(ready) && state.Ok? && contacts.Err? ==>
        && ready == ReadyAfterError(true, contacts.message, cleanup)
        && lastOp == old(lastOp)
        && trace == old(trace) + [GetState, GetContacts] + ErrorEffects(contacts.message, cleanup)
      ensures old(ready) && state.Ok? && contacts.Ok? ==>
        ready && lastOp == now && trace == old(trace) + [GetState, GetContacts]
    {
      if !ready {
        return false;
      }
      trace := trace + [GetState];
      if state.Err? {
        var _ := HandleSessionError(state.message, cleanup);
        return false;
      }
      trace := trace + [GetContacts];
      if contacts.Err? {
        var _ := HandleSessionError(contacts.message, cleanup);
        return false;
      }
      UpdateLastOperation(now);
      healthy := state.value == Connected;
    }

    /** The 30-second health tick: after it the client is ready exactly when
        it was ready before and the check passed. */
    method HealthTick(now: int, state: Result<string>, contacts: Result<()>, cleanup: Cleanup)
      modifies this
      ensures ready <==> old(ready) && state == Ok(Connected) && contacts.Ok?
      ensures lastOp == if old(ready) && state.Ok? && contacts.Ok? then now else old(lastOp)
      ensures trace == old(trace) +
        if !old(ready) then []
        else if state.Err? then [GetState] + ErrorEffects(state.message, cleanup)
        else if contacts.Err? then [GetState, GetContacts] + ErrorEffects(contacts.message, cleanup)
        else [GetState, GetContacts]
    {
      var healthy := PerformHealthCheck(now, state, contacts, cleanup);
      if !healthy && ready {
        ready := false;
      }
    }

    /** The 5-minute zombie tick: a ready client idle for more than fifteen
        minutes is destroyed (whatever `destroy` does), marked not ready and
        scheduled to initialize again once, five seconds later. */
    method ZombieTick(now: int, destroyed: Result<()>)
      modifies this`ready, this`trace
      ensures IsZombie(old(ready), lastOp, now) ==>
        !ready && trace == old(trace) + [Destroy, ScheduleInitialize(RestartDelayMs)]
      ensures !IsZombie(old(ready), lastOp, now) ==>
        ready == old(ready) && trace == old(trace)
    {
      if now - lastOp > MaxIdleMs && ready {
        trace := trace + [Destroy];
        ready := false;
        trace := trace + [ScheduleInitialize(RestartDelayMs)];
      }
    }

    /** The `ready` event. */
    method OnReady(now: int)
      modifies this`ready, this`lastOp
      ensures ready && lastOp == now
    {
      ready := true;
      UpdateLastOperation(now);
    }

    /** `notifyDown`: posts the down notice when ONDOWN is set; a failed post
        is only logged. */
    method NotifyDown(onDown: Option<string>, reason: Json, now: int)
      modifies this`trace
      ensures trace == old(trace) + DownNotice(onDown, reason, now)
    {
      if IsSet(onDown) {
        trace := trace + [Post(onDown.value, DownPayload(reason, now))];
      }
    }

    /** The `disconnected` event. */
    method OnDisconnected(cfg: Config, reason: Json, now: int)
      modifies this`ready, this`trace
      ensures !ready && trace == old(trace) + DownNotice(cfg.onDown, reason, now)
    {
      ready := false;
      NotifyDown(cfg.onDown, reason, now);
    }

    /** The `auth_failure` event. */
    method OnAuthFailure(cfg: Config, reason: Json, now: int)
      modifies this`ready, this`trace
      ensures !ready && trace == old(trace) + DownNotice(cfg.onDown, reason, now)
    {
      ready := false;
      NotifyDown(cfg.onDown, reason, now);
    }

    /** The `call` event: reject the call, then tell the caller calls are not
        taken. If either throws, the error goes through the classifier and
        nothing is relayed; otherwise the timestamp is refreshed and the call
        is relayed to ONMESSAGE when it is set (a failed relay is only
        logged). */
    method OnCall(cfg: Config, call: IncomingCall, rejected: Result<()>, declined: Result<()>,
                  cleanup: Cleanup, now: int)
      modifies this
      ensures rejected.Err? ==>
        && ready == ReadyAfterError(old(ready), rejected.message, cleanup)
        && lastOp == old(lastOp)
        && trace == old(trace) + [RejectCall(call.from)] + ErrorEffects(rejected.message, cleanup)
      ensures rejected.Ok? && declined.Err? ==>
        && ready == ReadyAfterError(old(ready), declined.message, cleanup)
        && lastOp == old(lastOp)
        && trace == old(trace) + [RejectCall(call.from), SendText(call.from, Str(DeclineText))]
                    + ErrorEffects(declined.message, cleanup)
      ensures rejected.Ok? && declined.Ok? ==>
        && ready == old(ready)
        && lastOp == now
        && trace == old(trace) + [RejectCall(call.from), SendText(call.from, Str(DeclineText))]
                    + CallNotice(cfg.onMessage, call, now)
    {
      trace := trace + [RejectCall(call.from)];
      if rejected.Err? {
        var _ := HandleSessionError(rejected.message, cleanup);
        return;
      }
      trace := trace + [SendText(call.from, Str(DeclineText))];
      if declined.Err? {
        var _ := HandleSessionError(declined.message, cleanup);
        return;
      }
      UpdateLastOperation(now);
      if IsSet(cfg.onMessage) {
        trace := trace + [Post(cfg.onMessage.value, CallPayload(call, now))];
      }
    }

    /** The `message` event: filtered messages, and every message while
        ONMESSAGE is unset, change nothing. Otherwise the payload is posted; a
        delivered post refreshes the timestamp, a failed one goes through the
        classifier. */
    method OnMessage(cfg: Config, msg: InboundMessage, posted: Result<()>, cleanup: Cleanup, now: int)
      modifies this
      ensures RelayTarget(msg, cfg.onMessage).None? ==>
        ready == old(ready) && lastOp == old(lastOp) && trace == old(trace)
      ensures RelayTarget(msg, cfg.onMessage).Some? && posted.Ok? ==>
        && ready == old(ready)
        && lastOp == now
        && trace == old(trace) + [Post(cfg.onMessage.value, MessagePayload(msg))]
      ensures RelayTarget(msg, cfg.onMessage).Some? && posted.Err? ==>
        && ready == ReadyAfterError(old(ready), posted.message, cleanup)
        && lastOp == old(lastOp)
        && trace == old(trace) + [Post(cfg.onMessage.value, MessagePayload(msg))]
                    + ErrorEffects(posted.message, cleanup)
    {
      if IsStatusIdentity(msg.from) {
        return;
      }
      if msg.typeName in IgnoredNames {
        return;
      }
      if IsSet(cfg.onMessage) {
        trace := trace + [Post(cfg.onMessage.value, MessagePayload(msg))];
        if posted.Ok? {
          UpdateLastOperation(now);
        } else {
          var _ := HandleSessionError(posted.message, cleanup);
        }
      }
    }
  }
}
