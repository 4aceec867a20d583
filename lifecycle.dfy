/** The session as one state machine: every event that reaches the shared
    state, the invariant all of them keep, and the start/stop behaviour
    over whole sequences of service commands. */
module Lifecycle {
  import opened Wrappers
  import opened Notifications
  import opened SessionModel
  import opened ReceiverModel
  import opened ActivityModel

  /** Everything that changes the shared state, whoever causes it. */
  datatype Event =
    | Create
    | Destroy
    | StartCommand(action: Option<string>)
    | Revoke
    | Broadcast(action: Option<string>)
    | PendingCheck
    | Read(res: ReadResult)
    | TunnelInvalidated
    | UserDismiss(id: int)
    | Custom(title: string, content: string, silent: bool)
    | SetDisallowed(pkgs: seq<string>)
    | Listen(sink: nat)
    | CancelListen

  /** The effect of one event; a pending-check event with no check pending
      does nothing. */
  function Step(s: Session, env: Env, e: Event): Session {
    match e
    case Create => OnCreate(s)
    case Destroy => OnDestroy(s)
    case StartCommand(a) => OnStartCommand(s, env, a)
    case Revoke => OnRevoke(s)
    case Broadcast(a) => OnReceive(s, a)
    case PendingCheck => if s.pendingChecks > 0 then RunPendingCheck(s, env) else s
    case Read(res) => TunnelRead(s, res)
    case TunnelInvalidated => InvalidateTunnel(s)
    case UserDismiss(id) => Dismiss(s, id)
    case Custom(t, c, q) => if s.instancePresent then CustomNotification(s, t, c, q) else s
    case SetDisallowed(p) => SetDisallowedPackages(s, p)
    case Listen(k) => OnListen(s, k)
    case CancelListen => OnCancel(s)
  }

  /** What holds of every reachable state: a stopped session holds no
      tunnel, only a running session with a tunnel has a read job, and the
      active and inactive notices are never shown together. (A running
      session may well hold no tunnel: startVpn sets `isRunning` even when
      establish returns null.) */
  predicate Inv(s: Session) {
    (!s.isRunning ==> s.vpnTunnel.None?) &&
    (s.reading ==> s.isRunning && s.vpnTunnel.Some?) &&
    Exclusive(s.notices)
  }

  lemma InitialInv()
    ensures Inv(Initial())
  {
  }

  /** Every event keeps the invariant. */
  lemma StepKeepsInv(s: Session, env: Env, e: Event)
    requires Inv(s)
    ensures Inv(Step(s, env, e))
  {
    match e
    case PendingCheck =>
      if s.pendingChecks > 0 {
        var t := s.(pendingChecks := s.pendingChecks - 1);
        if t.instancePresent && IsAlive(t, env) {
          PostsKeepExclusive(t.notices, 0, "", "", false);
        }
      }
    case Custom(t, c, q) =>
      PostsKeepExclusive(s.notices, CUSTOM_SLOT, t, c, q);
    case UserDismiss(id) =>
      PostsKeepExclusive(s.notices, id, "", "", false);
    case _ =>
  }

  /** The state after a whole sequence of events, each one observing the
      environment of its own moment (consent may be revoked, the VPN
      transport may drop or packages may be removed between two events). */
  function Run(s: Session, steps: seq<(Env, Event)>): Session
    decreases |steps|
  {
    if steps == [] then s else Run(Step(s, steps[0].0, steps[0].1), steps[1..])
  }

  /** The invariant holds after any sequence of events, whatever the
      environment does in between. */
  lemma {:induction false} RunKeepsInv(s: Session, steps: seq<(Env, Event)>)
    requires Inv(s)
    ensures Inv(Run(s, steps))
    decreases |steps|
  {
    if steps != [] {
      StepKeepsInv(s, steps[0].0, steps[0].1);
      RunKeepsInv(Step(s, steps[0].0, steps[0].1), steps[1..]);
    }
  }

  /** The last "START" or "STOP" in a sequence of start-command actions. */
  function LastTerminal(actions: seq<Option<string>>): Option<bool>
    decreases |actions|
  {
    if actions == [] then None
    else
      var last := actions[|actions| - 1];
      if last == Some(START_ACTION) then Some(true)
      else if last == Some(STOP_ACTION) then Some(false)
      else LastTerminal(actions[..|actions| - 1])
  }

  /** onStartCommand applied to each action in turn. */
  function Commands(s: Session, env: Env, actions: seq<Option<string>>): Session
    decreases |actions|
  {
    if actions == [] then s
    else OnStartCommand(Commands(s, env, actions[..|actions| - 1]), env, actions[|actions| - 1])
  }

  /** After any sequence of start commands, `isRunning` says whether the
      last "START"/"STOP" among them was a "START"; with neither it is what it
      was. Repeating a command changes nothing about the outcome. */
  lemma {:induction false} CommandsDecideRunning(s: Session, env: Env, actions: seq<Option<string>>)
    ensures Commands(s, env, actions).isRunning ==
      (if LastTerminal(actions).Some? then LastTerminal(actions).value else s.isRunning)
    decreases |actions|
  {
    if actions != [] {
      CommandsDecideRunning(s, env, actions[..|actions| - 1]);
    }
  }

  /** A start with a package that does not resolve still runs; the package
      is left out of the builder's list and the others stay, in order. */
  lemma UnresolvablePackageStillStarts(s: Session, env: Env, a: seq<string>, p: string, b: seq<string>)
    requires !s.isRunning && env.establishOk && p !in env.installed
    requires s.disallowedPackages == a + [p] + b
    ensures var r := OnStartCommand(s, env, Some(START_ACTION));
            r.isRunning && r.vpnTunnel.Some? &&
            r.vpnTunnel.value.config.disallowedApps == Resolvable(a, env.installed) + Resolvable(b, env.installed) &&
            p !in r.vpnTunnel.value.config.disallowedApps
  {
    SkipsUnresolvable(a, p, b, env.installed);
  }

  /** The scenario of a zero-byte read on a session the UI last saw alive,
      when the check then finds it dead: the loop ends, the one scheduled
      check tears the session down, the stream gets `false` twice and only
      the inactive notice is left of slots 1 and 2. */
  lemma ZeroReadTearsDown(s: Session, env: Env)
    requires Inv(s) && s.reading && s.instancePresent && s.lastVpnStatus == Some(true)
    requires s.eventSink.Some? && !env.vpnTransportActive
    ensures var r := RunPendingCheck(TunnelRead(s, Bytes(0)), env);
            !r.isRunning && r.vpnTunnel.None? && !r.reading && r.pendingChecks == s.pendingChecks &&
            r.emitted == s.emitted + [Emission(s.eventSink.value, false), Emission(s.eventSink.value, false)] &&
            INACTIVE_SLOT in r.notices && ACTIVE_SLOT !in r.notices && r.lastVpnStatus == Some(false)
  {
  }
}
