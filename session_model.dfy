/** The state VpnForegroundService works on (its companion globals, the
    fields of the one service instance, the UI status stream and the
    notification slots) and the effect of each of its operations, as
    functions from the old state to the new one. */
module SessionModel {
  import opened Wrappers
  import opened Notifications

  const TUNNEL_ADDRESS := "10.1.1.1"
  const TUNNEL_PREFIX: nat := 32
  const ROUTE_ADDRESS := "0.0.0.0"
  const ROUTE_PREFIX: nat := 0

  /** Intent actions of onStartCommand. */
  const START_ACTION := "START"
  const STOP_ACTION := "STOP"

  /** What the OS answers when the service asks it something.
      `prepared`: VpnService.prepare returns null (consent still granted);
      `installed`: the package names getPackageInfo resolves;
      `vpnTransportActive`: some network reports TRANSPORT_VPN;
      `establishOk`: Builder.establish returns a descriptor (false covers
      every reason it returns null);
      `sdkAtLeastM`: the API level is 23 or higher. */
  datatype Env = Env(
    prepared: bool,
    installed: set<string>,
    vpnTransportActive: bool,
    establishOk: bool,
    sdkAtLeastM: bool)

  /** What the VPN builder was given before establish. */
  datatype TunnelConfig = TunnelConfig(
    address: string,
    prefix: nat,
    route: string,
    routePrefix: nat,
    disallowedApps: seq<string>)

  /** The tunnel descriptor: whether it is still valid, and its configuration. */
  datatype Tunnel = Tunnel(valid: bool, config: TunnelConfig)

  /** One boolean delivered on the status stream, with the sink that took it. */
  datatype Emission = Emission(sink: nat, status: bool)

  /** One outcome of `channel.read` in the read loop. */
  datatype ReadResult = Bytes(count: int) | ReadThrows

  /** The whole state. `eventSink` identifies the attached UI listener;
      `emitted` is everything the stream delivered so far; `reading` is true
      while the read-loop job runs; `pendingChecks` counts the delayed status
      checks scheduled and not run yet. */
  datatype Session = Session(
    isRunning: bool,
    lastVpnStatus: Option<bool>,
    eventSink: Option<nat>,
    emitted: seq<Emission>,
    instancePresent: bool,
    disallowedPackages: seq<string>,
    vpnTunnel: Option<Tunnel>,
    reading: bool,
    pendingChecks: nat,
    notices: Slots)

  /** A fresh process: nothing running, no listener, no instance, no notice. */
  function Initial(): Session {
    Session(false, None, None, [], false, [], None, false, 0, map[])
  }

  /** What the stream delivers when `status` is sent to `sink`. */
  function Sent(sink: Option<nat>, status: bool): seq<Emission> {
    if sink.Some? then [Emission(sink.value, status)] else []
  }

  /** The companion's sendStatus: the status reaches the attached sink, if
      there is one, and nothing else changes. */
  function SendStatus(s: Session, status: bool): (r: Session)
    ensures s.eventSink.None? ==> r == s
    ensures s.eventSink.Some? ==> r.emitted == s.emitted + [Emission(s.eventSink.value, status)]
    ensures r == s.(emitted := r.emitted)
  {
    s.(emitted := s.emitted + Sent(s.eventSink, status))
  }

  predicate TunnelValid(s: Session) {
    s.vpnTunnel.Some? && s.vpnTunnel.value.valid
  }

  /** isThisVpnStillAlive: the conjunction of four independent facts. */
  predicate IsAlive(s: Session, env: Env) {
    s.isRunning && TunnelValid(s) && env.prepared && env.vpnTransportActive
  }

  /** Any single false conjunct makes the session dead: in particular a
      revoked consent or a missing tunnel, whatever `isRunning` says. */
  lemma DeadWhenAnyFactFails(s: Session, env: Env)
    ensures !IsAlive(s, env) <==>
      !s.isRunning || s.vpnTunnel.None? || !s.vpnTunnel.value.valid ||
      !env.prepared || !env.vpnTransportActive
  {
  }

  /** The packages of `pkgs` that resolve, in their original order: the ones
      the exclusion loop of startVpn hands to addDisallowedApplication. */
  function Resolvable(pkgs: seq<string>, installed: set<string>): (r: seq<string>)
    ensures |r| <= |pkgs|
    ensures forall p :: p in r <==> p in pkgs && p in installed
  {
    if pkgs == [] then []
    else
      var init, last := pkgs[..|pkgs| - 1], pkgs[|pkgs| - 1];
      assert pkgs == init + [last];
      Resolvable(init, installed) + (if last in installed then [last] else [])
  }

  /** Filtering distributes over concatenation: the list keeps the input
      order, and what one package does never affects another. */
  lemma {:induction false} ResolvableAppend(a: seq<string>, b: seq<string>, installed: set<string>)
    ensures Resolvable(a + b, installed) == Resolvable(a, installed) + Resolvable(b, installed)
    decreases |b|
  {
    if b == [] {
      assert a + b == a;
    } else {
      var init, last := b[..|b| - 1], b[|b| - 1];
      assert (a + b)[..|a + b| - 1] == a + init;
      ResolvableAppend(a, init, installed);
    }
  }

  /** A package that does not resolve is skipped and the loop goes on with
      the rest of the list. */
  lemma SkipsUnresolvable(a: seq<string>, p: string, b: seq<string>, installed: set<string>)
    requires p !in installed
    ensures Resolvable(a + [p] + b, installed) == Resolvable(a, installed) + Resolvable(b, installed)
  {
    ResolvableAppend(a + [p], b, installed);
    ResolvableAppend(a, [p], installed);
    assert [p][..0] == [];
    assert Resolvable([p], installed) == [];
    assert Resolvable(a + [p], installed) == Resolvable(a, installed);
  }

  /** A list whose packages all resolve is kept as it is. */
  lemma {:induction false} ResolvableAll(pkgs: seq<string>, installed: set<string>)
    requires forall p :: p in pkgs ==> p in installed
    ensures Resolvable(pkgs, installed) == pkgs
    decreases |pkgs|
  {
    if pkgs != [] {
      var init := pkgs[..|pkgs| - 1];
      assert pkgs == init + [pkgs[|pkgs| - 1]];
      ResolvableAll(init, installed);
    }
  }

  /** The builder configuration startVpn establishes: address 10.1.1.1/32,
      default route 0.0.0.0/0, and the resolvable disallowed packages. */
  function ConfigFor(pkgs: seq<string>, installed: set<string>): TunnelConfig {
    TunnelConfig(TUNNEL_ADDRESS, TUNNEL_PREFIX, ROUTE_ADDRESS, ROUTE_PREFIX, Resolvable(pkgs, installed))
  }

  /** startVpn. When already running it changes nothing. Otherwise it
      establishes the tunnel (which may come back null), sets `isRunning`
      regardless, sends `true`, shows the active notice and starts the read
      loop (which only reads when there is a tunnel). */
  function StartVpn(s: Session, env: Env): (r: Session)
    ensures s.isRunning ==> r == s
    ensures !s.isRunning ==> r.isRunning && r.emitted == s.emitted + Sent(s.eventSink, true)
    ensures !s.isRunning ==> ACTIVE_SLOT in r.notices && INACTIVE_SLOT !in r.notices
    ensures !s.isRunning ==> r.notices == PostActive(s.notices)
    ensures !s.isRunning ==> (r.vpnTunnel.Some? <==> env.establishOk) && r.reading == env.establishOk
    ensures r.vpnTunnel.Some? && !s.isRunning ==>
      r.vpnTunnel.value.valid &&
      r.vpnTunnel.value.config == ConfigFor(s.disallowedPackages, env.installed) &&
      r.vpnTunnel.value.config.disallowedApps == Resolvable(s.disallowedPackages, env.installed)
    ensures r.lastVpnStatus == s.lastVpnStatus && r.eventSink == s.eventSink
    ensures r.instancePresent == s.instancePresent && r.disallowedPackages == s.disallowedPackages
    ensures r.pendingChecks == s.pendingChecks
  {
    if s.isRunning then s
    else
      var tunnel := if env.establishOk then Some(Tunnel(true, ConfigFor(s.disallowedPackages, env.installed))) else None;
      var sent := SendStatus(s.(vpnTunnel := tunnel, isRunning := true), true);
      sent.(notices := PostActive(sent.notices), reading := tunnel.Some?)
  }

  /** stopVpn: unconditional teardown. Whatever the prior state, the read
      loop is cancelled, the tunnel closed and dropped, `isRunning` cleared,
      `false` sent, the inactive notice shown and slot 1 removed (also by
      stopForeground). Only slots 1 and 2 change. */
  function StopVpn(s: Session): (r: Session)
    ensures !r.isRunning && r.vpnTunnel.None? && !r.reading
    ensures r.emitted == s.emitted + Sent(s.eventSink, false)
    ensures ACTIVE_SLOT !in r.notices && INACTIVE_SLOT in r.notices
    ensures r.notices[INACTIVE_SLOT] == InactiveNotice(DEFAULT_INACTIVE_TITLE, DEFAULT_INACTIVE_TEXT)
    ensures forall k :: k in s.notices && k != ACTIVE_SLOT && k != INACTIVE_SLOT ==>
      k in r.notices && r.notices[k] == s.notices[k]
    ensures forall k :: k in r.notices ==> k == INACTIVE_SLOT || k in s.notices
    ensures r.lastVpnStatus == s.lastVpnStatus && r.eventSink == s.eventSink
    ensures r.instancePresent == s.instancePresent && r.disallowedPackages == s.disallowedPackages
    ensures r.pendingChecks == s.pendingChecks
  {
    var torn := s.(reading := false, vpnTunnel := None, isRunning := false);
    var sent := SendStatus(torn, false);
    sent.(notices := Cancel(PostInactive(sent.notices, DEFAULT_INACTIVE_TITLE, DEFAULT_INACTIVE_TEXT), ACTIVE_SLOT))
  }

  /** stopVpn is not idempotent on the stream: a second call leaves the same
      session but sends `false` once more. */
  lemma StopVpnRepeats(s: Session)
    ensures StopVpn(StopVpn(s)) == StopVpn(s).(emitted := s.emitted + Sent(s.eventSink, false) + Sent(s.eventSink, false))
  {
    var once := StopVpn(s);
    assert StopVpn(once).notices == once.notices;
  }

  /** A session that is stopped is dead under every environment. */
  lemma StoppedIsDead(s: Session, env: Env)
    ensures !IsAlive(StopVpn(s), env)
  {
  }

  /** onRevoke: teardown, a second `false`, and the inactive notice shown
      again (the deferred main-thread block, folded into the same step).
      The deferred block finds the slots as stopVpn left them, so the whole
      of onRevoke is stopVpn plus one more `false`. */
  function OnRevoke(s: Session): (r: Session)
    ensures !r.isRunning && r.vpnTunnel.None? && !r.reading
    ensures r.emitted == s.emitted + Sent(s.eventSink, false) + Sent(s.eventSink, false)
    ensures ACTIVE_SLOT !in r.notices && INACTIVE_SLOT in r.notices
    ensures r.lastVpnStatus == s.lastVpnStatus && r.instancePresent == s.instancePresent
    ensures r == SendStatus(StopVpn(s), false)
  {
    var stopped := SendStatus(StopVpn(s), false);
    assert Cancel(PostInactive(stopped.notices, DEFAULT_INACTIVE_TITLE, DEFAULT_INACTIVE_TEXT), ACTIVE_SLOT) == stopped.notices;
    stopped.(notices := Cancel(PostInactive(stopped.notices, DEFAULT_INACTIVE_TITLE, DEFAULT_INACTIVE_TEXT), ACTIVE_SLOT))
  }

  /** onStartCommand. "START" shows the active notice and then runs
      startVpn, so even an already running session gets slot 1 re-shown;
      "STOP" runs stopVpn; any other action, or none, changes nothing. */
  function OnStartCommand(s: Session, env: Env, action: Option<string>): (r: Session)
    ensures action == Some(START_ACTION) ==> r.isRunning && ACTIVE_SLOT in r.notices && INACTIVE_SLOT !in r.notices
    ensures action == Some(START_ACTION) && s.isRunning ==> r == s.(notices := PostActive(s.notices))
    ensures action == Some(START_ACTION) && !s.isRunning ==> r == StartVpn(s, env)
    ensures action == Some(STOP_ACTION) ==> r == StopVpn(s)
    ensures action != Some(START_ACTION) && action != Some(STOP_ACTION) ==> r == s
  {
    if action == Some(START_ACTION) then
      PostActiveIdempotent(s.notices);
      StartVpn(s.(notices := PostActive(s.notices)), env)
    else if action == Some(STOP_ACTION) then StopVpn(s)
    else s
  }

  /** onCreate: the new instance becomes vpnInstance; its own fields start
      empty (no tunnel, no read job). */
  function OnCreate(s: Session): (r: Session)
    ensures r.instancePresent && r.vpnTunnel.None? && !r.reading
    ensures r == s.(instancePresent := true, vpnTunnel := None, reading := false)
  {
    s.(instancePresent := true, vpnTunnel := None, reading := false)
  }

  /** onDestroy: stopVpn, then vpnInstance is cleared. */
  function OnDestroy(s: Session): (r: Session)
    ensures !r.instancePresent && !r.isRunning && r.vpnTunnel.None? && !r.reading
    ensures r.emitted == s.emitted + Sent(s.eventSink, false)
    ensures r.notices == StopVpn(s).notices
    ensures r.lastVpnStatus == s.lastVpnStatus && r.eventSink == s.eventSink
    ensures r.disallowedPackages == s.disallowedPackages && r.pendingChecks == s.pendingChecks
  {
    StopVpn(s).(instancePresent := false)
  }

  /** A delayed status check is scheduled (one coroutine per request). */
  function ScheduleCheck(s: Session): (r: Session)
    ensures r.pendingChecks == s.pendingChecks + 1
    ensures r == s.(pendingChecks := r.pendingChecks)
  {
    s.(pendingChecks := s.pendingChecks + 1)
  }

  /** One iteration of the read loop. A positive count is discarded and the
      loop goes on; a count of zero or less, or an exception, asks the
      status receiver for exactly one check and ends the loop. Once the job
      has ended or was cancelled nothing happens. */
  function TunnelRead(s: Session, res: ReadResult): (r: Session)
    ensures !s.reading || (res.Bytes? && res.count > 0) ==> r == s
    ensures s.reading && !(res.Bytes? && res.count > 0) ==>
      !r.reading && r.pendingChecks == s.pendingChecks + 1 && r == s.(reading := false, pendingChecks := r.pendingChecks)
  {
    if !s.reading then s
    else match res
      case Bytes(n) => if n > 0 then s else ScheduleCheck(s.(reading := false))
      case ReadThrows => ScheduleCheck(s.(reading := false))
  }

  /** The OS invalidates the tunnel descriptor. */
  function InvalidateTunnel(s: Session): (r: Session)
    ensures !TunnelValid(r)
    ensures r.vpnTunnel.Some? <==> s.vpnTunnel.Some?
    ensures s.vpnTunnel.Some? ==> r.vpnTunnel.value.config == s.vpnTunnel.value.config
    ensures r == s.(vpnTunnel := r.vpnTunnel)
  {
    if s.vpnTunnel.Some? then s.(vpnTunnel := Some(s.vpnTunnel.value.(valid := false))) else s
  }

  /** The user swipes a notice away. */
  function Dismiss(s: Session, id: int): (r: Session)
    ensures id !in r.notices
    ensures r.notices.Keys == s.notices.Keys - {id}
    ensures forall k :: k in s.notices && k != id ==> k in r.notices && r.notices[k] == s.notices[k]
    ensures r == s.(notices := r.notices)
  {
    s.(notices := Cancel(s.notices, id))
  }

  /** customNotification on the live instance: only slot 3 changes. */
  function CustomNotification(s: Session, title: string, content: string, silent: bool): (r: Session)
    ensures CUSTOM_SLOT in r.notices && r.notices[CUSTOM_SLOT] == CustomNotice(title, content, silent)
    ensures r.notices.Keys == s.notices.Keys + {CUSTOM_SLOT}
    ensures r == s.(notices := r.notices)
    ensures forall k :: k in s.notices && k != CUSTOM_SLOT ==> k in r.notices && r.notices[k] == s.notices[k]
  {
    s.(notices := PostCustom(s.notices, title, content, silent))
  }

  /** The companion's disallowedPackages is overwritten; it is read only
      by the next startVpn. */
  function SetDisallowedPackages(s: Session, pkgs: seq<string>): (r: Session)
    ensures r.disallowedPackages == pkgs
    ensures r == s.(disallowedPackages := pkgs)
  {
    s.(disallowedPackages := pkgs)
  }
}
