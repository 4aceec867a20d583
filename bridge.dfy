/** VpnBridge: the method-channel dispatcher of the VPN feature, with the
    pending result that the consent prompt answers later. Service start
    intents are recorded as START/STOP commands; their delivery to
    onStartCommand is up to the OS. */
module Bridge {
  import opened Wrappers
  import opened SessionModel
  import opened ForegroundService

  const DEFAULT_TITLE := "Notice"
  const DEFAULT_CONTENT := "Message"

  /** The action of a service start intent. */
  datatype Command = Start | Stop

  /** The operations of the dispatch table. */
  datatype Op =
    | StartVpnOp
    | StopVpnOp
    | GetStatusOp
    | CustomNotificationOp
    | SetDisallowedPackagesOp
    | UnknownOp

  /** The arguments a call may carry; each one may be missing. */
  datatype Args = Args(
    disallowedPackages: Option<seq<string>>,
    packages: Option<seq<string>>,
    title: Option<string>,
    content: Option<string>,
    silent: Option<bool>)

  datatype MethodCall = MethodCall(name: string, args: Args)

  /** What a call is answered with. */
  datatype Reply = Success(value: bool) | NotImplemented

  /** The answer given to the call identified by `call`. */
  datatype Answered = Answered(call: nat, reply: Reply)

  /** The bridge's own field and what it has done so far: the answers it
      gave, the start intents it sent and the consent prompts it launched.
      `replyRefused` records that a reply was submitted to a call already
      answered: the channel's reply object throws IllegalStateException
      ("Reply already submitted") and no answer is given. */
  datatype BridgeState = BridgeState(
    vpnResult: Option<nat>,
    answers: seq<Answered>,
    commands: seq<Command>,
    consentRequests: nat,
    replyRefused: bool)

  function OpName(op: Op): string
    requires op != UnknownOp
  {
    match op
    case StartVpnOp => "startVpn"
    case StopVpnOp => "stopVpn"
    case GetStatusOp => "getStatus"
    case CustomNotificationOp => "customNotification"
    case SetDisallowedPackagesOp => "setDisallowedPackages"
  }

  /** The `when (call.name)` table: exactly the five names select an
      operation, and the operation selected is the one of that name. */
  function ParseOp(name: string): (op: Op)
    ensures op != UnknownOp ==> OpName(op) == name
    ensures op == UnknownOp <==>
      name !in {"startVpn", "stopVpn", "getStatus", "customNotification", "setDisallowedPackages"}
  {
    if name == "startVpn" then StartVpnOp
    else if name == "stopVpn" then StopVpnOp
    else if name == "getStatus" then GetStatusOp
    else if name == "customNotification" then CustomNotificationOp
    else if name == "setDisallowedPackages" then SetDisallowedPackagesOp
    else UnknownOp
  }

  /** Every operation is reached by its name. */
  lemma ParseOpName(op: Op)
    requires op != UnknownOp
    ensures ParseOp(OpName(op)) == op
  {
  }

  /** The call identified by `call` has been answered. */
  predicate Replied(b: BridgeState, call: nat) {
    exists a :: a in b.answers && a.call == call
  }

  function Answer(b: BridgeState, call: nat, reply: Reply): BridgeState {
    b.(answers := b.answers + [Answered(call, reply)])
  }

  /** handleMethodCall on the bridge state and the service's shared state. */
  function Dispatch(b: BridgeState, s: Session, call: MethodCall, result: nat, env: Env): (r: (BridgeState, Session))
    ensures ParseOp(call.name) == UnknownOp ==> r == (Answer(b, result, NotImplemented), s)
    ensures ParseOp(call.name) == StartVpnOp ==>
      r.1 == SetDisallowedPackages(s, call.args.disallowedPackages.GetOr([])) &&
      r.0.vpnResult == Some(result) && r.0.replyRefused == b.replyRefused &&
      (env.prepared ==>
         r.0.commands == b.commands + [Start] && r.0.answers == b.answers + [Answered(result, Success(true))] &&
         r.0.consentRequests == b.consentRequests) &&
      (!env.prepared ==>
         r.0.commands == b.commands && r.0.answers == b.answers && r.0.consentRequests == b.consentRequests + 1)
    ensures ParseOp(call.name) == StopVpnOp ==>
      r == (Answer(b.(commands := b.commands + [Stop]), result, Success(true)), s)
    ensures ParseOp(call.name) == GetStatusOp ==>
      r == (Answer(b, result, Success(s.instancePresent && IsAlive(s, env))), s)
    ensures ParseOp(call.name) == CustomNotificationOp ==>
      r.0 == Answer(b, result, Success(true)) &&
      (!s.instancePresent ==> r.1 == s) &&
      (s.instancePresent ==> r.1 == CustomNotification(s, call.args.title.GetOr(DEFAULT_TITLE),
                                                       call.args.content.GetOr(DEFAULT_CONTENT),
                                                       call.args.silent.GetOr(false)))
    ensures ParseOp(call.name) == SetDisallowedPackagesOp ==>
      r == (Answer(b, result, Success(true)), SetDisallowedPackages(s, call.args.packages.GetOr([])))
    ensures ParseOp(call.name) != StartVpnOp ==> r.0.vpnResult == b.vpnResult
  {
    match ParseOp(call.name)
    case StartVpnOp =>
      var pending := b.(vpnResult := Some(result));
      var s' := SetDisallowedPackages(s, call.args.disallowedPackages.GetOr([]));
      if env.prepared then (Answer(pending.(commands := pending.commands + [Start]), result, Success(true)), s')
      else (pending.(consentRequests := pending.consentRequests + 1), s')
    case StopVpnOp => (Answer(b.(commands := b.commands + [Stop]), result, Success(true)), s)
    case GetStatusOp => (Answer(b, result, Success(s.instancePresent && IsAlive(s, env))), s)
    case CustomNotificationOp =>
      var s' := if s.instancePresent
        then CustomNotification(s, call.args.title.GetOr(DEFAULT_TITLE), call.args.content.GetOr(DEFAULT_CONTENT),
                                call.args.silent.GetOr(false))
        else s;
      (Answer(b, result, Success(true)), s')
    case SetDisallowedPackagesOp => (Answer(b, result, Success(true)), SetDisallowedPackages(s, call.args.packages.GetOr([])))
    case UnknownOp => (Answer(b, result, NotImplemented), s)
  }

  /** Every call is answered at once, exactly once, except a startVpn that
      needs consent, which is left pending; only startVpn and stopVpn send
      commands. */
  lemma DispatchAnswersOnce(b: BridgeState, s: Session, call: MethodCall, result: nat, env: Env)
    ensures var r := Dispatch(b, s, call, result, env);
            var pendingStart := ParseOp(call.name) == StartVpnOp && !env.prepared;
            |r.0.answers| == |b.answers| + (if pendingStart then 0 else 1) &&
            (!pendingStart ==> r.0.answers[|b.answers|].call == result) &&
            (ParseOp(call.name) != StartVpnOp && ParseOp(call.name) != StopVpnOp ==> r.0.commands == b.commands)
  {
  }

  /** onVpnActivityResult: a grant sends START and answers the stored call
      with true; a denial sends nothing and answers it with false. The stored
      call is not cleared, so when it was answered already the reply is
      refused (after START was sent, on a grant). */
  function ConsentResult(b: BridgeState, success: bool): (r: BridgeState)
    ensures r.commands == b.commands + (if success then [Start] else [])
    ensures b.vpnResult.Some? && !Replied(b, b.vpnResult.value) ==>
      r.answers == b.answers + [Answered(b.vpnResult.value, Success(success))] && r.replyRefused == b.replyRefused
    ensures b.vpnResult.Some? && Replied(b, b.vpnResult.value) ==> r.answers == b.answers && r.replyRefused
    ensures b.vpnResult.None? ==> r.answers == b.answers && r.replyRefused == b.replyRefused
    ensures r.vpnResult == b.vpnResult && r.consentRequests == b.consentRequests
  {
    var sent := if success then b.(commands := b.commands + [Start]) else b;
    if b.vpnResult.None? then sent
    else if Replied(b, b.vpnResult.value) then sent.(replyRefused := true)
    else Answer(sent, b.vpnResult.value, Success(success))
  }

  /** The consent hand-off: a startVpn that needs consent (and whose result,
      like every incoming call's, has not been answered yet) is answered by
      the prompt's outcome, and START is sent exactly when consent was
      granted. */
  lemma ConsentAnswersPendingStart(b: BridgeState, s: Session, call: MethodCall, result: nat, env: Env, granted: bool)
    requires ParseOp(call.name) == StartVpnOp && !env.prepared && !Replied(b, result)
    ensures var after := ConsentResult(Dispatch(b, s, call, result, env).0, granted);
            after.answers == b.answers + [Answered(result, Success(granted))] &&
            after.commands == b.commands + (if granted then [Start] else []) &&
            after.consentRequests == b.consentRequests + 1 && after.replyRefused == b.replyRefused
  {
  }

  /** Because vpnResult is overwritten by every startVpn and never cleared,
      the outcome of a prompt launched for one call is replied to a later
      call that was already answered: that reply is refused, START is sent
      a second time, and the call that launched the prompt is never
      answered. */
  lemma LatePromptHitsAnsweredCall(b: BridgeState, s: Session, first: nat, second: nat, ask: Env, granted: Env)
    requires b.answers == [] && b.commands == [] && !b.replyRefused
    requires !ask.prepared && granted.prepared && first != second
    ensures var call := MethodCall("startVpn", Args(None, None, None, None, None));
            var afterFirst := Dispatch(b, s, call, first, ask);
            var afterSecond := Dispatch(afterFirst.0, afterFirst.1, call, second, granted);
            var done := ConsentResult(afterSecond.0, true);
            done.answers == [Answered(second, Success(true))] &&
            done.commands == [Start, Start] && done.replyRefused &&
            !Replied(done, first)
  {
    var call := MethodCall("startVpn", Args(None, None, None, None, None));
    var afterSecond := Dispatch(Dispatch(b, s, call, first, ask).0, Dispatch(b, s, call, first, ask).1, call, second, granted);
    assert afterSecond.0.answers[0].call == second;
  }

  class VpnBridge {
    const svc: VpnService
    var vpnResult: Option<nat>
    var answers: seq<Answered>
    var commands: seq<Command>
    var consentRequests: nat
    var replyRefused: bool

    function State(): BridgeState
      reads this
    {
      BridgeState(vpnResult, answers, commands, consentRequests, replyRefused)
    }

    constructor (svc: VpnService)
      ensures this.svc == svc && State() == BridgeState(None, [], [], 0, false)
    {
      this.svc := svc;
      vpnResult, answers, commands, consentRequests, replyRefused := None, [], [], 0, false;
    }

    method HandleMethodCall(call: MethodCall, result: nat, env: Env)
      modifies this, svc
      ensures (State(), svc.Snapshot()) == Dispatch(old(State()), old(svc.Snapshot()), call, result, env)
    {
      match ParseOp(call.name)
      case StartVpnOp =>
        vpnResult := Some(result);
        svc.SetDisallowedPackages(call.args.disallowedPackages.GetOr([]));
        if env.prepared {
          StartVpnService(Start);
          answers := answers + [Answered(result, Success(true))];
        } else {
          consentRequests := consentRequests + 1;  // vpnPermissionLauncher.launch
        }
      case StopVpnOp =>
        StartVpnService(Stop);
        answers := answers + [Answered(result, Success(true))];
      case GetStatusOp =>
        var alive := svc.instancePresent && svc.IsThisVpnStillAlive(env);
        answers := answers + [Answered(result, Success(alive))];
      case CustomNotificationOp =>
        var title := call.args.title.GetOr(DEFAULT_TITLE);
        var content := call.args.content.GetOr(DEFAULT_CONTENT);
        var silent := call.args.silent.GetOr(false);
        if svc.instancePresent {
          svc.CustomNotification(title, content, silent);
        }
        answers := answers + [Answered(result, Success(true))];
      case SetDisallowedPackagesOp =>
        svc.SetDisallowedPackages(call.args.packages.GetOr([]));
        answers := answers + [Answered(result, Success(true))];
      case UnknownOp =>
        answers := answers + [Answered(result, NotImplemented)];
    }

    method OnVpnActivityResult(success: bool)
      modifies this
      ensures State() == ConsentResult(old(State()), success)
    {
      if success {
        StartVpnService(Start);
      }
      if vpnResult.Some? {
        if Replied(State(), vpnResult.value) {
          replyRefused := true;  // IllegalStateException from the reply object
        } else {
          answers := answers + [Answered(vpnResult.value, Success(success))];
        }
      }
    }

    method StartVpnService(command: Command)
      modifies this
      ensures State() == old(State()).(commands := old(commands) + [command])
    {
      commands := commands + [command];
    }
  }
}
