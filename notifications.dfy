/** The three notification slots VpnForegroundService posts to, and the
    visibility probe of VpnStatusReceiver. The OS notification surface is
    reduced to a map from slot id to the notice currently shown there. */
module Notifications {

  /** Slot of the foreground "VPN Active" notice (startForeground id). */
  const ACTIVE_SLOT: int := 1
  /** Slot of the "VPN disconnected" notice. */
  const INACTIVE_SLOT: int := 2
  /** Slot of notices the UI asks for. */
  const CUSTOM_SLOT: int := 3

  const ACTIVE_CHANNEL := "vpn_active_channel"
  const INACTIVE_CHANNEL := "vpn_inactive_channel"
  const CUSTOM_CHANNEL := "vpn_custom_channel"

  const ACTIVE_TITLE := "VPN Active"
  const ACTIVE_TEXT := "Your VPN is running in the background."
  /** Default arguments of vpnNotActiveNotification. */
  const DEFAULT_INACTIVE_TITLE := "VPN disconnected"
  const DEFAULT_INACTIVE_TEXT := "Your VPN connection has been stopped."

  /** What a posted notification shows and how it behaves. */
  datatype Notice = Notice(
    channel: string,
    title: string,
    text: string,
    ongoing: bool,
    silent: bool,
    autoCancel: bool)

  /** Visible notifications by slot id. */
  type Slots = map<int, Notice>

  function ActiveNotice(): Notice {
    Notice(ACTIVE_CHANNEL, ACTIVE_TITLE, ACTIVE_TEXT, true, true, false)
  }

  function InactiveNotice(title: string, text: string): Notice {
    Notice(INACTIVE_CHANNEL, title, text, false, false, false)
  }

  function CustomNotice(title: string, content: string, silent: bool): Notice {
    Notice(CUSTOM_CHANNEL, title, content, false, silent, true)
  }

  /** NotificationManager.cancel(id), and the user swiping a notice away. */
  function Cancel(n: Slots, id: int): (r: Slots)
    ensures r.Keys == n.Keys - {id}
    ensures forall k :: k in r ==> r[k] == n[k]
  {
    n - {id}
  }

  /** vpnActiveNotification: cancels the inactive slot, then shows the
      active notice in slot 1; every other slot keeps its notice. */
  function PostActive(n: Slots): (r: Slots)
    ensures r.Keys == n.Keys - {INACTIVE_SLOT} + {ACTIVE_SLOT}
    ensures r[ACTIVE_SLOT] == ActiveNotice()
    ensures forall k :: k in r && k != ACTIVE_SLOT ==> r[k] == n[k]
  {
    Cancel(n, INACTIVE_SLOT)[ACTIVE_SLOT := ActiveNotice()]
  }

  /** vpnNotActiveNotification: cancels the active slot, then shows the
      inactive notice in slot 2; every other slot keeps its notice. */
  function PostInactive(n: Slots, title: string, text: string): (r: Slots)
    ensures r.Keys == n.Keys - {ACTIVE_SLOT} + {INACTIVE_SLOT}
    ensures r[INACTIVE_SLOT] == InactiveNotice(title, text)
    ensures forall k :: k in r && k != INACTIVE_SLOT ==> r[k] == n[k]
  {
    Cancel(n, ACTIVE_SLOT)[INACTIVE_SLOT := InactiveNotice(title, text)]
  }

  /** customNotification: shows the notice in slot 3 and touches no other slot. */
  function PostCustom(n: Slots, title: string, content: string, silent: bool): (r: Slots)
    ensures r.Keys == n.Keys + {CUSTOM_SLOT}
    ensures r[CUSTOM_SLOT] == CustomNotice(title, content, silent)
    ensures forall k :: k in n && k != CUSTOM_SLOT ==> r[k] == n[k]
  {
    n[CUSTOM_SLOT := CustomNotice(title, content, silent)]
  }

  /** isNotificationVisible: from API level 23 (M) on the probe lists the
      active notifications; below it the probe always answers true. */
  predicate IsNotificationVisible(sdkAtLeastM: bool, n: Slots, id: int) {
    !sdkAtLeastM || id in n
  }

  /** The active and the inactive notice are never shown together. */
  predicate Exclusive(n: Slots) {
    !(ACTIVE_SLOT in n && INACTIVE_SLOT in n)
  }

  /** Every slot effect keeps the active and inactive notices exclusive;
      the two posts establish exclusivity whatever was shown before. */
  lemma PostsKeepExclusive(n: Slots, id: int, title: string, text: string, silent: bool)
    ensures Exclusive(PostActive(n)) && Exclusive(PostInactive(n, title, text))
    ensures Exclusive(n) ==> Exclusive(PostCustom(n, title, text, silent)) && Exclusive(Cancel(n, id))
  {
  }

  /** Re-posting the active notice is idempotent, so the reconciler's
      re-post never piles up notices. */
  lemma PostActiveIdempotent(n: Slots)
    ensures PostActive(PostActive(n)) == PostActive(n)
  {
    assert PostActive(PostActive(n)).Keys == PostActive(n).Keys;
  }

  /** Below API level 23 the probe reports slot 1 visible even when it is
      not, so the reconciler never re-posts it there. */
  lemma ProbeBlindBelowM(n: Slots)
    ensures IsNotificationVisible(false, n, ACTIVE_SLOT)
    ensures IsNotificationVisible(true, n, ACTIVE_SLOT) <==> ACTIVE_SLOT in n
  {
  }
}
