/** VpnStatusReceiver as functions on the session: which broadcasts schedule
    a check, and what one delayed check does once it runs. */
module ReceiverModel {
  import opened Wrappers
  import opened Notifications
  import opened SessionModel

  const CONNECTIVITY_ACTION := "android.net.conn.CONNECTIVITY_CHANGE"
  const AIRPLANE_MODE_ACTION := "android.intent.action.AIRPLANE_MODE"

  /** The two broadcast actions that schedule a check; a missing intent or
      action matches neither. */
  predicate IsWatched(action: Option<string>) {
    action == Some(CONNECTIVITY_ACTION) || action == Some(AIRPLANE_MODE_ACTION)
  }

  /** onReceive: a watched broadcast schedules one delayed check of its own;
      any other intent changes nothing. */
  function OnReceive(s: Session, action: Option<string>): (r: Session)
    ensures IsWatched(action) ==> r.pendingChecks == s.pendingChecks + 1 && r == s.(pendingChecks := r.pendingChecks)
    ensures !IsWatched(action) ==> r == s
  {
    if IsWatched(action) then ScheduleCheck(s) else s
  }

  /** The read loop's triggerVpnStatusCheck is a CONNECTIVITY_ACTION
      delivered to the receiver: ending the loop schedules the same single
      check a connectivity broadcast does. */
  lemma ReadEndIsConnectivitySignal(s: Session, res: ReadResult)
    requires s.reading && !(res.Bytes? && res.count > 0)
    ensures TunnelRead(s, res) == OnReceive(s.(reading := false), Some(CONNECTIVITY_ACTION))
  {
  }

  /** onVpnStoppedExternally: the inactive notice, then stopFromExternal
      (stopVpn followed by stopSelf). stopVpn posts the same notice again,
      so the first post makes no difference. */
  function OnVpnStoppedExternally(s: Session): (r: Session)
    ensures !r.isRunning && r.vpnTunnel.None? && !r.reading
    ensures ACTIVE_SLOT !in r.notices && INACTIVE_SLOT in r.notices
    ensures r.emitted == s.emitted + Sent(s.eventSink, false)
    ensures r.lastVpnStatus == s.lastVpnStatus
    ensures r == StopVpn(s)
  {
    assert StopVpn(s.(notices := PostInactive(s.notices, DEFAULT_INACTIVE_TITLE, DEFAULT_INACTIVE_TEXT))).notices == StopVpn(s).notices;
    StopVpn(s.(notices := PostInactive(s.notices, DEFAULT_INACTIVE_TITLE, DEFAULT_INACTIVE_TEXT)))
  }

  /** checkVpnStatus. Without a service instance nothing happens. Otherwise
      liveness is computed; a live session whose active notice the probe
      does not see gets it re-shown. Only a liveness different from
      `lastVpnStatus` is recorded and sent; a change to false also posts the
      inactive notice and tears the session down, which sends `false` once
      more. */
  function CheckVpnStatus(s: Session, env: Env): (r: Session)
    ensures !s.instancePresent ==> r == s
    ensures s.instancePresent ==> r.lastVpnStatus == Some(IsAlive(s, env))
    ensures s.instancePresent && IsAlive(s, env) ==>
      r.notices == (if IsNotificationVisible(env.sdkAtLeastM, s.notices, ACTIVE_SLOT) then s.notices else PostActive(s.notices))
    ensures s.instancePresent && s.lastVpnStatus == Some(IsAlive(s, env)) ==>
      r.emitted == s.emitted && r.isRunning == s.isRunning && r.vpnTunnel == s.vpnTunnel && r.reading == s.reading
    ensures s.instancePresent && s.lastVpnStatus == Some(IsAlive(s, env)) ==> r == s.(notices := r.notices)
    ensures s.instancePresent && s.lastVpnStatus == Some(false) && !IsAlive(s, env) ==> r == s
    ensures s.instancePresent && s.lastVpnStatus != Some(true) && IsAlive(s, env) ==>
      r.emitted == s.emitted + Sent(s.eventSink, true) && r.isRunning
    ensures s.instancePresent && s.lastVpnStatus != Some(true) && IsAlive(s, env) ==>
      r == s.(lastVpnStatus := Some(true), emitted := r.emitted, notices := r.notices)
    ensures s.instancePresent && s.lastVpnStatus != Some(false) && !IsAlive(s, env) ==>
      r == StopVpn(SendStatus(s.(lastVpnStatus := Some(false)), false))
    ensures s.instancePresent && s.lastVpnStatus != Some(false) && !IsAlive(s, env) ==>
      r.emitted == s.emitted + Sent(s.eventSink, false) + Sent(s.eventSink, false) &&
      !r.isRunning && r.vpnTunnel.None? && !r.reading &&
      ACTIVE_SLOT !in r.notices && INACTIVE_SLOT in r.notices
    ensures r.instancePresent == s.instancePresent && r.eventSink == s.eventSink
    ensures r.disallowedPackages == s.disallowedPackages && r.pendingChecks == s.pendingChecks
  {
    if !s.instancePresent then s
    else
      var alive := IsAlive(s, env);
      var shown := if alive && !IsNotificationVisible(env.sdkAtLeastM, s.notices, ACTIVE_SLOT)
        then s.(notices := PostActive(s.notices)) else s;
      if shown.lastVpnStatus == Some(alive) then shown
      else
        var sent := SendStatus(shown.(lastVpnStatus := Some(alive)), alive);
        if alive then sent else OnVpnStoppedExternally(sent)
  }

  /** The coroutine launched by onReceive, after its delay: one pending
      check is consumed and run. */
  function RunPendingCheck(s: Session, env: Env): (r: Session)
    requires s.pendingChecks > 0
    ensures r.pendingChecks == s.pendingChecks - 1
    ensures s.instancePresent ==> r.lastVpnStatus == Some(IsAlive(s, env))
    ensures r.(pendingChecks := s.pendingChecks) == CheckVpnStatus(s, env)
  {
    CheckVpnStatus(s.(pendingChecks := s.pendingChecks - 1), env)
  }

  /** The first check after process start always sends the liveness it
      finds, because `lastVpnStatus` starts out null. */
  lemma FirstCheckEmits(s: Session, env: Env)
    requires s.instancePresent && s.lastVpnStatus.None? && s.eventSink.Some?
    ensures |CheckVpnStatus(s, env).emitted| > |s.emitted|
    ensures CheckVpnStatus(s, env).emitted[|s.emitted|] == Emission(s.eventSink.value, IsAlive(s, env))
  {
  }

  /** A check is idempotent: run again under the same environment it finds
      the liveness it recorded, and the active notice (if due) already shown. */
  lemma CheckIdempotent(s: Session, env: Env)
    ensures CheckVpnStatus(CheckVpnStatus(s, env), env) == CheckVpnStatus(s, env)
  {
    var r := CheckVpnStatus(s, env);
    if s.instancePresent {
      if IsAlive(s, env) {
        assert r.isRunning == s.isRunning && r.vpnTunnel == s.vpnTunnel;
        assert IsAlive(r, env);
        assert IsNotificationVisible(env.sdkAtLeastM, r.notices, ACTIVE_SLOT);
      } else {
        assert !IsAlive(r, env);
      }
    }
  }

  /** `n` checks in a row under one environment. */
  function Checks(s: Session, env: Env, n: nat): Session
    decreases n
  {
    if n == 0 then s else Checks(CheckVpnStatus(s, env), env, n - 1)
  }

  /** Edge triggering: any number of consecutive checks that observe the
      same environment have exactly the effect of the first one, so they
      send at most what the first sends (one `true`, or the two `false`s of
      a detected disconnect). */
  lemma {:induction false} RepeatedChecksActOnce(s: Session, env: Env, n: nat)
    requires n >= 1
    ensures Checks(s, env, n) == CheckVpnStatus(s, env)
    ensures |Checks(s, env, n).emitted| <= |s.emitted| + 2
    decreases n
  {
    if n > 1 {
      RepeatedChecksActOnce(CheckVpnStatus(s, env), env, n - 1);
      CheckIdempotent(s, env);
    }
  }

  /** `k` connectivity broadcasts. */
  function Signals(s: Session, k: nat): Session
    decreases k
  {
    if k == 0 then s else Signals(OnReceive(s, Some(CONNECTIVITY_ACTION)), k - 1)
  }

  /** Broadcasts are not coalesced: `k` of them schedule `k` checks and
      change nothing else. */
  lemma {:induction false} SignalsNotCoalesced(s: Session, k: nat)
    ensures Signals(s, k) == s.(pendingChecks := s.pendingChecks + k)
    decreases k
  {
    if k > 0 {
      SignalsNotCoalesced(OnReceive(s, Some(CONNECTIVITY_ACTION)), k - 1);
    }
  }

  /** A consequence of recording `lastVpnStatus` only here: once a check has
      recorded false, a session started afterwards that the reconciler finds
      dead (here: its tunnel is up but no VPN transport is reported) is
      never torn down by it. Neither the check itself nor the check its
      ending read loop schedules changes anything: the session keeps
      `isRunning`, its tunnel, the active notice, and the `true` its start
      sent, while getStatus says it is dead. */
  lemma StaleStatusHidesDeadRestart(env: Env)
    requires env.prepared && env.establishOk && !env.vpnTransportActive
    ensures var created := OnCreate(Initial()).(eventSink := Some(0));
            var checked := CheckVpnStatus(created, env);
            var restarted := OnStartCommand(checked, env, Some(START_ACTION));
            var after := CheckVpnStatus(restarted, env);
            checked.lastVpnStatus == Some(false) &&
            after == restarted &&
            after.isRunning && after.vpnTunnel.Some? && ACTIVE_SLOT in after.notices && !IsAlive(after, env) &&
            after.emitted[|after.emitted| - 1] == Emission(0, true) &&
            RunPendingCheck(TunnelRead(restarted, ReadThrows), env) == restarted.(reading := false)
  {
  }
}
