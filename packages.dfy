/** PackageService: the installed-app listing and the package broadcasts
    turned into events. The package manager's answers are given as data:
    one AppInfo per installed application, in the order the package
    manager lists them. */
module Packages {
  import opened Wrappers

  const INTERNET_PERMISSION := "android.permission.INTERNET"
  /** ApplicationInfo.FLAG_SYSTEM. */
  const FLAG_SYSTEM: bv32 := 1

  const ACTION_PACKAGE_REMOVED := "android.intent.action.PACKAGE_REMOVED"
  const ACTION_PACKAGE_ADDED := "android.intent.action.PACKAGE_ADDED"
  const ACTION_PACKAGE_REPLACED := "android.intent.action.PACKAGE_REPLACED"

  /** The outcome of getPackageInfo(..., GET_PERMISSIONS): it throws, or it
      returns requestedPermissions, which may be null. */
  datatype PermissionLookup = LookupThrows | Requested(permissions: Option<seq<string>>)

  /** What the package manager reports about one application. `icon` is the
      PNG encoding of its icon, or None when getApplicationIcon throws. */
  datatype AppInfo = AppInfo(
    packageName: string,
    appLabel: string,
    flags: bv32,
    hasLaunchIntent: bool,
    permissions: PermissionLookup,
    icon: Option<seq<bv8>>)

  /** The map the listing sends for one app. */
  datatype AppRecord = AppRecord(
    appName: string,
    packageName: string,
    isSystem: bool,
    icon: Option<seq<bv8>>)

  datatype PackageEvent = Removed(packageName: string) | Updated(apps: seq<AppRecord>)

  /** An event delivered to the sink that was attached at the time. */
  datatype Delivery = Delivery(sink: nat, event: PackageEvent)

  /** A package broadcast: its action and the package name of its data URI,
      either of which may be missing. */
  datatype Broadcast = Broadcast(action: Option<string>, packageName: Option<string>)

  datatype Reply = Apps(apps: seq<AppRecord>) | NotImplemented

  /** INTERNET is among the requested permissions; a lookup that throws, or
      a null permission list, counts as not requesting it. */
  predicate HasInternet(p: PermissionLookup) {
    p.Requested? && p.permissions.Some? && INTERNET_PERMISSION in p.permissions.value
  }

  /** The listing keeps an app exactly when it is launchable and requests INTERNET. */
  predicate Keep(app: AppInfo) {
    app.hasLaunchIntent && HasInternet(app.permissions)
  }

  /** The FLAG_SYSTEM bit of the flags. */
  predicate IsSystem(flags: bv32) {
    flags & FLAG_SYSTEM != 0
  }

  function ToRecord(app: AppInfo): (r: AppRecord)
    ensures r.packageName == app.packageName && r.appName == app.appLabel
    ensures r.isSystem <==> IsSystem(app.flags)
    ensures r.icon == app.icon
  {
    AppRecord(app.appLabel, app.packageName, IsSystem(app.flags), app.icon)
  }

  /** The records of the kept apps, in the order of the listing. */
  function KeptRecords(apps: seq<AppInfo>): (r: seq<AppRecord>)
    ensures |r| <= |apps|
    ensures forall app :: app in apps && Keep(app) ==> ToRecord(app) in r
    ensures forall rec :: rec in r ==> exists app :: app in apps && Keep(app) && rec == ToRecord(app)
    decreases |apps|
  {
    if apps == [] then []
    else
      var init, last := apps[..|apps| - 1], apps[|apps| - 1];
      assert apps == init + [last];
      KeptRecords(init) + (if Keep(last) then [ToRecord(last)] else [])
  }

  /** The listing distributes over concatenation: input order is kept, and
      one app's record never depends on another app. */
  lemma {:induction false} KeptRecordsAppend(a: seq<AppInfo>, b: seq<AppInfo>)
    ensures KeptRecords(a + b) == KeptRecords(a) + KeptRecords(b)
    decreases |b|
  {
    if b == [] {
      assert a + b == a;
    } else {
      assert (a + b)[..|a + b| - 1] == a + b[..|b| - 1];
      KeptRecordsAppend(a, b[..|b| - 1]);
    }
  }

  /** One app yields exactly one record if it is kept, and none otherwise. */
  lemma KeptRecordsSingle(app: AppInfo)
    ensures KeptRecords([app]) == if Keep(app) then [ToRecord(app)] else []
  {
    assert [app][..0] == [];
  }

  /** getInstalledApps: the loop over the package manager's list. */
  method GetInstalledApps(packages: seq<AppInfo>) returns (apps: seq<AppRecord>)
    ensures apps == KeptRecords(packages)
  {
    apps := [];
    for i := 0 to |packages|
      invariant apps == KeptRecords(packages[..i])
    {
      var app := packages[i];
      assert packages[..i + 1] == packages[..i] + [app];
      KeptRecordsAppend(packages[..i], [app]);
      KeptRecordsSingle(app);
      var hasLaunchIntent := app.hasLaunchIntent;
      var hasInternetPermission := match app.permissions
        case LookupThrows => false
        case Requested(p) => p.Some? && INTERNET_PERMISSION in p.value;
      if !hasLaunchIntent || !hasInternetPermission {
        continue;
      }
      var isSystem := IsSystem(app.flags);
      apps := apps + [AppRecord(app.appLabel, app.packageName, isSystem, app.icon)];
    }
    assert packages[..|packages|] == packages;
  }

  /** The event a package broadcast maps to, given the current listing; a
      broadcast without a package name, or with another action, maps to none. */
  function EventFor(b: Broadcast, packages: seq<AppInfo>): (r: Option<PackageEvent>)
    ensures b.packageName.None? ==> r.None?
    ensures b.packageName.Some? && b.action == Some(ACTION_PACKAGE_REMOVED) ==> r == Some(Removed(b.packageName.value))
    ensures b.packageName.Some? && (b.action == Some(ACTION_PACKAGE_ADDED) || b.action == Some(ACTION_PACKAGE_REPLACED)) ==>
      r == Some(Updated(KeptRecords(packages)))
    ensures (b.action != Some(ACTION_PACKAGE_REMOVED) && b.action != Some(ACTION_PACKAGE_ADDED) &&
             b.action != Some(ACTION_PACKAGE_REPLACED)) ==> r.None?
  {
    if b.packageName.None? then None
    else if b.action == Some(ACTION_PACKAGE_REMOVED) then Some(Removed(b.packageName.value))
    else if b.action == Some(ACTION_PACKAGE_ADDED) || b.action == Some(ACTION_PACKAGE_REPLACED) then
      Some(Updated(KeptRecords(packages)))
    else None
  }

  class PackageService {
    var eventSink: Option<nat>
    var delivered: seq<Delivery>
    /** packageReceiver is registered with the OS. */
    var registered: bool

    constructor ()
      ensures eventSink.None? && delivered == [] && !registered
    {
      eventSink, delivered, registered := None, [], false;
    }

    /** packageReceiver.onReceive: the mapped event goes to the attached
        sink; with no event or no sink nothing changes. */
    method OnReceive(b: Broadcast, packages: seq<AppInfo>)
      modifies this
      ensures eventSink == old(eventSink) && registered == old(registered)
      ensures delivered == old(delivered) +
        (if old(eventSink).Some? && EventFor(b, packages).Some?
         then [Delivery(old(eventSink).value, EventFor(b, packages).value)] else [])
    {
      if b.packageName.None? {
        return;
      }
      var packageName := b.packageName.value;
      if b.action == Some(ACTION_PACKAGE_REMOVED) {
        if eventSink.Some? {
          delivered := delivered + [Delivery(eventSink.value, Removed(packageName))];
        }
      } else if b.action == Some(ACTION_PACKAGE_ADDED) || b.action == Some(ACTION_PACKAGE_REPLACED) {
        if eventSink.Some? {
          var apps := GetInstalledApps(packages);
          delivered := delivered + [Delivery(eventSink.value, Updated(apps))];
        }
      }
    }

    /** onMethodCall: "getInstalledApps" answers the listing; every other
        method is not implemented. Nothing changes. */
    method OnMethodCall(name: string, packages: seq<AppInfo>) returns (reply: Reply)
      ensures name == "getInstalledApps" ==> reply == Apps(KeptRecords(packages))
      ensures name != "getInstalledApps" ==> reply == NotImplemented
    {
      if name == "getInstalledApps" {
        var apps := GetInstalledApps(packages);
        reply := Apps(apps);
      } else {
        reply := NotImplemented;
      }
    }

    /** onListen: the sink is attached and the receiver registered. */
    method OnListen(sink: nat)
      modifies this
      ensures eventSink == Some(sink) && registered && delivered == old(delivered)
    {
      eventSink := Some(sink);
      registered := true;
    }

    /** onCancel: the receiver is unregistered and the sink dropped. */
    method OnCancel()
      modifies this
      ensures eventSink.None? && !registered && delivered == old(delivered)
    {
      registered := false;
      eventSink := None;
    }
  }
}
