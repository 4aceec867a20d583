/** VpnStatusReceiver as a class: it has no state of its own and works on
    the service's shared state. Each method is proved to have the effect the
    ReceiverModel function of the same name describes. */
module StatusReceiver {
  import opened Wrappers
  import opened Notifications
  import opened SessionModel
  import R = ReceiverModel
  import opened ForegroundService

  class VpnStatusReceiver {

    constructor () {
    }

    /** onReceive: a watched broadcast launches its own delayed check. */
    method OnReceive(svc: VpnService, action: Option<string>)
      modifies svc
      ensures svc.Snapshot() == R.OnReceive(old(svc.Snapshot()), action)
    {
      if R.IsWatched(action) {
        svc.ScheduleCheck();
      }
    }

    /** The launched coroutine after its delay. */
    method RunPendingCheck(svc: VpnService, env: Env)
      requires svc.pendingChecks > 0
      modifies svc
      ensures svc.Snapshot() == R.RunPendingCheck(old(svc.Snapshot()), env)
    {
      svc.TakePendingCheck();
      CheckVpnStatus(svc, env);
    }

    method CheckVpnStatus(svc: VpnService, env: Env)
      modifies svc
      ensures svc.Snapshot() == R.CheckVpnStatus(old(svc.Snapshot()), env)
    {
      if !svc.instancePresent {
        return;
      }
      var isAlive := svc.IsThisVpnStillAlive(env);
      if isAlive && !IsNotificationVisible(env.sdkAtLeastM, svc.notices, ACTIVE_SLOT) {
        svc.VpnActiveNotification();
      }
      if svc.lastVpnStatus == Some(isAlive) {
        return;
      }
      svc.SetLastVpnStatus(isAlive);
      svc.SendStatus(isAlive);
      if !isAlive {
        OnVpnStoppedExternally(svc);
      }
    }

    method OnVpnStoppedExternally(svc: VpnService)
      modifies svc
      ensures svc.Snapshot() == R.OnVpnStoppedExternally(old(svc.Snapshot()))
    {
      svc.VpnNotActiveNotification(DEFAULT_INACTIVE_TITLE, DEFAULT_INACTIVE_TEXT);
      svc.StopFromExternal();
    }
  }
}
