/** MainActivity: it creates the bridge, forwards VPN method calls to it,
    maps the consent prompt's result code, and attaches and detaches the
    listener of the VPN status stream. */
module Activity {
  import opened Wrappers
  import opened SessionModel
  import opened ActivityModel
  import opened ForegroundService
  import opened Bridge

  class MainActivity {
    const svc: VpnService
    const vpnBridge: VpnBridge

    /** configureFlutterEngine: the bridge is made for this activity. */
    constructor (svc: VpnService)
      ensures this.svc == svc && vpnBridge.svc == svc && fresh(vpnBridge)
      ensures vpnBridge.State() == BridgeState(None, [], [], 0, false)
    {
      this.svc := svc;
      vpnBridge := new VpnBridge(svc);
    }

    /** The registered activity-result callback of the consent prompt. */
    method OnVpnPermissionResult(resultCode: int)
      modifies vpnBridge
      ensures vpnBridge.State() == ConsentResult(old(vpnBridge.State()), IsGranted(resultCode))
    {
      vpnBridge.OnVpnActivityResult(IsGranted(resultCode));
    }

    /** The VPN method channel's handler: every call goes to the bridge as it is. */
    method OnVpnMethodCall(call: MethodCall, result: nat, env: Env)
      requires vpnBridge.svc == svc
      modifies vpnBridge, svc
      ensures (vpnBridge.State(), svc.Snapshot()) == Dispatch(old(vpnBridge.State()), old(svc.Snapshot()), call, result, env)
    {
      vpnBridge.HandleMethodCall(call, result, env);
    }

    /** The VPN event channel's onListen. */
    method OnListen(sink: nat)
      modifies svc
      ensures svc.Snapshot() == ActivityModel.OnListen(old(svc.Snapshot()), sink)
    {
      svc.SetEventSink(Some(sink));
      if svc.lastVpnStatus.Some? {
        svc.SendStatus(svc.lastVpnStatus.value);
      }
    }

    /** The VPN event channel's onCancel. */
    method OnCancel()
      modifies svc
      ensures svc.Snapshot() == ActivityModel.OnCancel(old(svc.Snapshot()))
    {
      svc.SetEventSink(None);
    }
  }

  /** What the prompt's result code decides through the bridge: RESULT_OK sends
      START and replies true to the pending call; RESULT_CANCELED sends
      nothing and replies false. */
  lemma ResultCodeDecidesStart(b: BridgeState, resultCode: int)
    requires b.vpnResult.Some? && !Replied(b, b.vpnResult.value)
    ensures var r := ConsentResult(b, IsGranted(resultCode));
            (resultCode == RESULT_OK ==>
               r.commands == b.commands + [Start] && r.answers == b.answers + [Answered(b.vpnResult.value, Success(true))]) &&
            (resultCode == RESULT_CANCELED ==>
               r.commands == b.commands && r.answers == b.answers + [Answered(b.vpnResult.value, Success(false))])
  {
  }

  /** A client of the classes alone: the UI asks to start without consent,
      the user grants it, the service gets START, and the status stream
      shows the session running. */
  method ConsentThenStart(ask: Env, granted: Env)
    requires !ask.prepared && granted.prepared
  {
    var svc := new VpnService();
    var activity := new MainActivity(svc);
    activity.OnListen(7);
    activity.OnVpnMethodCall(MethodCall("startVpn", Args(Some(["com.example.bank"]), None, None, None, None)), 1, ask);
    assert activity.vpnBridge.answers == [] && activity.vpnBridge.vpnResult == Some(1);
    activity.OnVpnPermissionResult(RESULT_OK);
    assert activity.vpnBridge.answers == [Answered(1, Success(true))];
    assert activity.vpnBridge.commands == [Start];
    svc.OnCreate();
    svc.OnStartCommand(granted, Some(START_ACTION));
    assert svc.isRunning && svc.emitted == [Emission(7, true)];
    assert svc.disallowedPackages == ["com.example.bank"];
  }
}
