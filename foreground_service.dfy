/** VpnForegroundService as a class: its companion globals and the fields of
    its one instance, updated in place by each entry point. Every method is
    proved to leave the state that the SessionModel or Notifications function
    named in its ensures describes; the field setters change only their field. */
module ForegroundService {
  import opened Wrappers
  import opened Notifications
  import opened SessionModel
  import M = SessionModel

  /** The exclusion loop of startVpn: each disallowed package that
      getPackageInfo resolves is added to the builder; one that does not is
      logged and skipped, and the loop goes on. */
  method BuildConfig(disallowed: seq<string>, installed: set<string>) returns (config: TunnelConfig)
    ensures config == ConfigFor(disallowed, installed)
    ensures forall p :: p in config.disallowedApps <==> p in disallowed && p in installed
  {
    var apps: seq<string> := [];
    for i := 0 to |disallowed|
      invariant apps == Resolvable(disallowed[..i], installed)
    {
      var pkg := disallowed[i];
      assert disallowed[..i + 1] == disallowed[..i] + [pkg];
      if pkg in installed {
        apps := apps + [pkg];
      }
    }
    assert disallowed[..|disallowed|] == disallowed;
    config := TunnelConfig(TUNNEL_ADDRESS, TUNNEL_PREFIX, ROUTE_ADDRESS, ROUTE_PREFIX, apps);
  }

  class VpnService {
    // companion object
    var isRunning: bool
    var lastVpnStatus: Option<bool>
    var eventSink: Option<nat>
    var instancePresent: bool
    var disallowedPackages: seq<string>
    // the service instance
    var vpnTunnel: Option<Tunnel>
    var reading: bool
    // the world around it: the UI stream, scheduled checks, the notification slots
    var emitted: seq<Emission>
    var pendingChecks: nat
    var notices: Slots

    function Snapshot(): Session
      reads this
    {
      Session(isRunning, lastVpnStatus, eventSink, emitted, instancePresent,
              disallowedPackages, vpnTunnel, reading, pendingChecks, notices)
    }

    /** isThisVpnStillAlive, read off the current fields. */
    predicate IsThisVpnStillAlive(env: Env)
      reads this
    {
      IsAlive(Snapshot(), env)
    }

    /** The process starts. */
    constructor ()
      ensures Snapshot() == Initial()
    {
      isRunning, lastVpnStatus, eventSink, instancePresent := false, None, None, false;
      disallowedPackages, vpnTunnel, reading := [], None, false;
      emitted, pendingChecks, notices := [], 0, map[];
    }

    method SendStatus(status: bool)
      modifies this
      ensures Snapshot() == M.SendStatus(old(Snapshot()), status)
    {
      if eventSink.Some? {
        emitted := emitted + [Emission(eventSink.value, status)];
      }
    }

    method OnCreate()
      modifies this
      ensures Snapshot() == M.OnCreate(old(Snapshot()))
    {
      instancePresent := true;
      vpnTunnel := None;
      reading := false;
    }

    method OnDestroy()
      modifies this
      ensures Snapshot() == M.OnDestroy(old(Snapshot()))
    {
      StopVpn();
      instancePresent := false;
    }

    method OnStartCommand(env: Env, action: Option<string>)
      modifies this
      ensures Snapshot() == M.OnStartCommand(old(Snapshot()), env, action)
    {
      if action == Some(START_ACTION) {
        VpnActiveNotification();
        StartVpn(env);
      } else if action == Some(STOP_ACTION) {
        StopVpn();
      }
    }

    method OnRevoke()
      modifies this
      ensures Snapshot() == M.OnRevoke(old(Snapshot()))
    {
      StopVpn();
      SendStatus(false);
      VpnNotActiveNotification(DEFAULT_INACTIVE_TITLE, DEFAULT_INACTIVE_TEXT);
      notices := Cancel(notices, ACTIVE_SLOT);  // stopForeground(true)
    }

    method StartVpn(env: Env)
      modifies this
      ensures Snapshot() == M.StartVpn(old(Snapshot()), env)
    {
      if isRunning {
        return;
      }
      var config := BuildConfig(disallowedPackages, env.installed);
      vpnTunnel := if env.establishOk then Some(Tunnel(true, config)) else None;
      isRunning := true;
      SendStatus(true);
      VpnActiveNotification();
      // the read job; with no tunnel it fails before its first read
      reading := vpnTunnel.Some?;
    }

    method StopVpn()
      modifies this
      ensures Snapshot() == M.StopVpn(old(Snapshot()))
    {
      reading := false;
      vpnTunnel := None;
      isRunning := false;
      SendStatus(false);
      VpnNotActiveNotification(DEFAULT_INACTIVE_TITLE, DEFAULT_INACTIVE_TEXT);
      notices := Cancel(notices, ACTIVE_SLOT);  // stopForeground(true)
    }

    /** stopVpn followed by stopSelf, whose effect on the process is not modelled. */
    method StopFromExternal()
      modifies this
      ensures Snapshot() == M.StopVpn(old(Snapshot()))
    {
      StopVpn();
    }

    /** One iteration of the read loop with the outcome of `channel.read`. */
    method OnTunnelRead(res: ReadResult)
      modifies this
      ensures Snapshot() == M.TunnelRead(old(Snapshot()), res)
    {
      if !reading {
        return;
      }
      if res.Bytes? && res.count > 0 {
        return;  // the bytes are discarded; the loop sleeps and reads again
      }
      reading := false;
      ScheduleCheck();  // triggerVpnStatusCheck
    }

    /** A delayed status check is scheduled. */
    method ScheduleCheck()
      modifies this
      ensures Snapshot() == M.ScheduleCheck(old(Snapshot()))
    {
      pendingChecks := pendingChecks + 1;
    }

    /** A scheduled check starts to run. */
    method TakePendingCheck()
      requires pendingChecks > 0
      modifies this
      ensures Snapshot() == old(Snapshot()).(pendingChecks := old(pendingChecks) - 1)
    {
      pendingChecks := pendingChecks - 1;
    }

    /** The reconciler records the liveness it found. */
    method SetLastVpnStatus(status: bool)
      modifies this
      ensures Snapshot() == old(Snapshot()).(lastVpnStatus := Some(status))
    {
      lastVpnStatus := Some(status);
    }

    /** The listener attached to the status stream changes. */
    method SetEventSink(sink: Option<nat>)
      modifies this
      ensures Snapshot() == old(Snapshot()).(eventSink := sink)
    {
      eventSink := sink;
    }

    method SetDisallowedPackages(pkgs: seq<string>)
      modifies this
      ensures Snapshot() == M.SetDisallowedPackages(old(Snapshot()), pkgs)
    {
      disallowedPackages := pkgs;
    }

    method VpnActiveNotification()
      modifies this
      ensures Snapshot() == old(Snapshot()).(notices := PostActive(old(notices)))
    {
      notices := Cancel(notices, INACTIVE_SLOT);
      notices := notices[ACTIVE_SLOT := ActiveNotice()];
    }

    method VpnNotActiveNotification(title: string, contentText: string)
      modifies this
      ensures Snapshot() == old(Snapshot()).(notices := PostInactive(old(notices), title, contentText))
    {
      notices := Cancel(notices, ACTIVE_SLOT);
      notices := notices[INACTIVE_SLOT := InactiveNotice(title, contentText)];
    }

    method CustomNotification(title: string, content: string, silent: bool)
      modifies this
      ensures Snapshot() == M.CustomNotification(old(Snapshot()), title, content, silent)
    {
      notices := notices[CUSTOM_SLOT := CustomNotice(title, content, silent)];
    }

    /** The OS invalidates the tunnel descriptor. */
    method InvalidateTunnel()
      modifies this
      ensures Snapshot() == M.InvalidateTunnel(old(Snapshot()))
    {
      if vpnTunnel.Some? {
        vpnTunnel := Some(vpnTunnel.value.(valid := false));
      }
    }

    /** The user swipes the notice in slot `id` away. */
    method DismissNotification(id: int)
      modifies this
      ensures Snapshot() == M.Dismiss(old(Snapshot()), id)
    {
      notices := Cancel(notices, id);
    }
  }
}
