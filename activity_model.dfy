/** The pure part of MainActivity: the consent result mapping, and what the
    VPN event channel's stream handler does to the shared status stream. */
module ActivityModel {
  import opened Wrappers
  import opened SessionModel

  /** Activity.RESULT_OK and Activity.RESULT_CANCELED. */
  const RESULT_OK: int := -1
  const RESULT_CANCELED: int := 0

  /** The consent prompt counts as granted exactly on RESULT_OK; a cancelled
      prompt, or any other code, is a denial. */
  function IsGranted(resultCode: int): (granted: bool)
    ensures granted ==> resultCode == RESULT_OK
    ensures resultCode == RESULT_OK ==> granted
    ensures resultCode == RESULT_CANCELED ==> !granted
  {
    resultCode == RESULT_OK
  }

  /** onListen: the new sink replaces any earlier one and immediately gets
      `lastVpnStatus` when it is known; nothing is delivered when it is null. */
  function OnListen(s: Session, sink: nat): (r: Session)
    ensures r.eventSink == Some(sink)
    ensures s.lastVpnStatus.Some? ==> r.emitted == s.emitted + [Emission(sink, s.lastVpnStatus.value)]
    ensures s.lastVpnStatus.None? ==> r.emitted == s.emitted
    ensures r == s.(eventSink := Some(sink), emitted := r.emitted)
  {
    var attached := s.(eventSink := Some(sink));
    if s.lastVpnStatus.Some? then SendStatus(attached, s.lastVpnStatus.value) else attached
  }

  /** onCancel: the sink is dropped. */
  function OnCancel(s: Session): (r: Session)
    ensures r.eventSink.None?
    ensures r == s.(eventSink := None)
  {
    s.(eventSink := None)
  }

  /** Once the listener is cancelled, sending a status changes nothing. */
  lemma CancelledStreamSwallows(s: Session, status: bool)
    ensures SendStatus(OnCancel(s), status) == OnCancel(s)
  {
  }

  /** After a second onListen only the new sink receives statuses. */
  lemma SecondListenReplaces(s: Session, first: nat, second: nat, status: bool)
    ensures var t := OnListen(OnListen(s, first), second);
            SendStatus(t, status).emitted == t.emitted + [Emission(second, status)]
  {
  }

  /** The replay is whatever the reconciler last recorded, which startVpn
      and stopVpn do not update: a listener attached to a session that has
      been started but never checked hears nothing. */
  lemma ReplayIgnoresUncheckedStart(s: Session, env: Env, sink: nat)
    requires s.lastVpnStatus.None? && !s.isRunning
    ensures var started := StartVpn(s.(eventSink := None), env);
            started.isRunning && OnListen(started, sink).emitted == started.emitted
  {
  }
}
