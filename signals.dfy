/** The signal handlers that push NetBox devices to WhatsUp Gold, remove
    them again and look for IP conflicts after a scan. The database is a
    `Store.Db`; the client each handler builds for a connection is reduced
    to what its calls return (`Replies`), so any client behaviour can be
    plugged in, and `SignalProperties` shows what happens with the answers
    `WUGAPIClient` actually gives. One clock reading `now` stands for every
    `timezone.now()` of a call. */
module Signals {
  import opened Base
  import opened Text
  import opened Json
  import opened Http
  import opened Errors
  import opened WugClient
  import opened Store

  const StatusActive := "active"
  /** The `timeout` every client built here keeps. */
  const ClientTimeout := 30

  /** A NetBox `Device`, with the fields the handlers read. `primaryIp4` is
      the text of the primary IPv4 address, prefix length included. */
  datatype NetboxDevice = NetboxDevice(id: int, name: string, primaryIp4: Option<string>, status: string,
                                       deviceTypeModel: Option<string>, siteName: Option<string>,
                                       comments: string, roleName: Option<string>, platformName: Option<string>)

  /** What one client does once built: what `add_device_by_ip`,
      `scan_ip_address` and `get_devices` answer, each a value or the
      exception it raises. A handler reads only the answers of the calls it
      makes; whether the client can be built at all is `Construction`. */
  datatype Replies = Replies(add: Result<Json, Exc>, scan: Result<Json, Exc>, listing: Result<Json, Exc>)

  /** What `delete_device` answers on the client built for a removal. */
  datatype Removal = Removal(delete: Result<Json, Exc>)

  datatype Action = Create | Update

  /** "update" only for a device already known to the connection that was
      not just created. */
  function ActionFor(existing: Option<WugDevice>, isNew: bool): Action {
    if existing.Some? && !isNew then Update else Create
  }

  /** What building `WUGAPIClient` for a connection raises, if anything:
      the constructor rejects a URL host with a malformed port. */
  function Construction(c: Connection): (r: Option<Exc>)
    ensures r.Some? <==> MakeConfig(c.host, c.username, c.password, c.port, c.useSsl, ClientTimeout).Err?
  {
    match MakeConfig(c.host, c.username, c.password, c.port, c.useSsl, ClientTimeout)
    case Ok(_) => None
    case Err(e) => Some(e)
  }

  function OrUnknown(v: Option<string>): string {
    if v.Some? then v.value else "Unknown"
  }

  /** The device description sent to WhatsUp Gold: eight fixed keys, and
      `role` and `platform` exactly when the device has them. */
  function DeviceData(d: NetboxDevice, ip: string): (r: map<string, Json>)
    ensures r.Keys == {"ipAddress", "displayName", "description", "location", "contact", "community",
                       "snmpVersion", "enableMonitoring"}
                      + (if d.roleName.Some? then {"role"} else {})
                      + (if d.platformName.Some? then {"platform"} else {})
    ensures r["ipAddress"] == JStr(ip) && r["displayName"] == JStr(d.name)
    ensures r["location"] == JStr(OrUnknown(d.siteName))
  {
    var base := map["ipAddress" := JStr(ip), "displayName" := JStr(d.name),
                    "description" := JStr("Device synced from NetBox - " + OrUnknown(d.deviceTypeModel)),
                    "location" := JStr(OrUnknown(d.siteName)), "contact" := JStr(d.comments),
                    "community" := JStr("public"), "snmpVersion" := JStr("2c"),
                    "enableMonitoring" := JBool(true)];
    var withRole := if d.roleName.Some? then base["role" := JStr(d.roleName.value)] else base;
    if d.platformName.Some? then withRole["platform" := JStr(d.platformName.value)] else withRole
  }

  // ------------------------------------------------------------------ sync log rows

  function CompletedLog(c: Connection, d: NetboxDevice, a: Action, now: int): SyncLog {
    SyncLog(c.pk, NetboxToWug, Completed, now, Some(now), 1, if a == Create then 1 else 0,
            if a == Update then 1 else 0, 0, PushDone(d.name, a == Create))
  }

  function FailedLog(c: Connection, d: NetboxDevice, a: Action, msg: Json, now: int): SyncLog {
    SyncLog(c.pk, NetboxToWug, LogStatus.Failed, now, Some(now), 1, 0, 0, 1, PushRefused(d.name, a == Create, msg))
  }

  function ErrorLog(c: Connection, d: NetboxDevice, e: Exc, now: int): SyncLog {
    SyncLog(c.pk, NetboxToWug, Errored, now, Some(now), 1, 0, 0, 1, PushRaised(d.name, e))
  }

  function RemovedLog(rec: WugDevice, now: int): SyncLog {
    SyncLog(rec.connection, NetboxToWug, Completed, now, Some(now), 1, 0, 0, 0, Removed(rec.deviceName))
  }

  function Logged(t: Tables, log: SyncLog): Tables {
    t.(logs := t.logs + [log])
  }

  // ------------------------------------------------------------------ conflict check

  datatype Side = NetboxSide | WugSide

  /** One entry of `conflicts_found`. */
  datatype Conflict = Conflict(side: Side, name: Json, id: Json, ip: Json, location: Json)

  /** The NetBox query: another device whose primary address text starts
      with the IP. */
  predicate NetboxMatch(d: NetboxDevice, ip: string, selfId: int) {
    d.primaryIp4.Some? && StartsWith(d.primaryIp4.value, ip) && d.id != selfId
  }

  function NetboxConflict(d: NetboxDevice): Conflict
    requires d.primaryIp4.Some?
  {
    Conflict(NetboxSide, JStr(d.name), JInt(d.id), JStr(Before(d.primaryIp4.value, '/')), JStr(OrUnknown(d.siteName)))
  }

  /** The NetBox-side conflicts, in the order of `devices`. */
  function NetboxConflicts(devices: seq<NetboxDevice>, ip: string, selfId: int): (r: seq<Conflict>)
    decreases |devices|
  {
    if devices == [] then []
    else
      var last := devices[|devices| - 1];
      NetboxConflicts(devices[..|devices| - 1], ip, selfId)
        + (if NetboxMatch(last, ip, selfId) then [NetboxConflict(last)] else [])
  }

  function EntryIp(e: map<string, Json>): Json {
    Or(Get(e, "ipAddress"), Get(e, "networkAddress"))
  }

  function EntryId(e: map<string, Json>): Json {
    Or(Get(e, "id"), Get(e, "deviceId"))
  }

  /** A WhatsUp Gold entry conflicts when it has the IP and is not the
      connection's own record of this device (ids compared as text). */
  predicate WugMatch(e: map<string, Json>, ip: string, ours: Option<WugDevice>) {
    EntryIp(e) == JStr(ip) && (ours.None? || PyStr(ours.value.wugDeviceId) != PyStr(EntryId(e)))
  }

  function WugConflict(e: map<string, Json>): Conflict {
    Conflict(WugSide, Or(Get(e, "displayName"), GetOr(e, "name", JStr("Unknown"))), EntryId(e), EntryIp(e),
             GetOr(e, "location", JStr("Unknown")))
  }

  function WugConflicts(entries: seq<map<string, Json>>, ip: string, ours: Option<WugDevice>): (r: seq<Conflict>)
    decreases |entries|
  {
    if entries == [] then []
    else
      var last := entries[|entries| - 1];
      WugConflicts(entries[..|entries| - 1], ip, ours) + (if WugMatch(last, ip, ours) then [WugConflict(last)] else [])
  }

  /** The WhatsUp Gold entries the conflict loop looks at: those of a
      dictionary answer with a true `success`, up to the first entry that
      is not a dictionary; an exception, from `get_devices` or from `.get`
      on an answer that is not a dictionary, leaves none. */
  function WugEntries(listing: Result<Json, Exc>): seq<map<string, Json>> {
    if listing.Ok? && listing.value.JObj? && Succeeded(listing.value.fields)
    then GetLoop(GetOr(listing.value.fields, "devices", JList([]))).items
    else []
  }

  function SideWord(s: Side): string {
    match s
    case NetboxSide => "NETBOX"
    case WugSide => "WUG"
  }

  function ConflictLine(c: Conflict): string {
    SideWord(c.side) + ": " + PyStr(c.name) + " (ID: " + PyStr(c.id) + ", Location: " + PyStr(c.location) + ")"
  }

  function ConflictLines(cs: seq<Conflict>): (r: seq<string>)
    ensures |r| == |cs|
    decreases |cs|
  {
    if cs == [] then [] else ConflictLines(cs[..|cs| - 1]) + [ConflictLine(cs[|cs| - 1])]
  }

  function ConflictLog(c: Connection, ip: string, name: string, cs: seq<Conflict>, now: int): SyncLog {
    SyncLog(c.pk, IpConflictCheck, Warning, now, Some(now), |cs| + 1, 0, 0, 0, ConflictWarning(ip, name, ConflictLines(cs)))
  }

  /** Every conflict `check_ip_conflicts_after_scan` finds: NetBox first. */
  function Conflicts(t: Tables, netbox: seq<NetboxDevice>, d: NetboxDevice, c: Connection, ip: string,
                     listing: Result<Json, Exc>): seq<Conflict> {
    NetboxConflicts(netbox, ip, d.id) + WugConflicts(WugEntries(listing), ip, FirstRecord(t, c.pk, d.id))
  }

  /** `check_ip_conflicts_after_scan`: one warning log when there is a conflict. */
  function CheckSpec(t: Tables, netbox: seq<NetboxDevice>, d: NetboxDevice, c: Connection, ip: string,
                     listing: Result<Json, Exc>, now: int): Tables {
    var cs := Conflicts(t, netbox, d, c, ip, listing);
    if cs == [] then t else Logged(t, ConflictLog(c, ip, d.name, cs, now))
  }

  // ------------------------------------------------------------------ push

  /** `result.get('deviceId') or result.get('id')`. */
  function StoredId(m: map<string, Json>): Json {
    Or(Get(m, "deviceId"), Get(m, "id"))
  }

  /** A scan counts as started when its answer is a dictionary with a true `success`. */
  predicate ScanStarted(scan: Result<Json, Exc>) {
    scan.Ok? && scan.value.JObj? && Succeeded(scan.value.fields)
  }

  /** The device table after a successful push: the known record gets the
      new id, the sync time and `success`; otherwise one record is created. */
  function Recorded(t: Tables, existing: Option<WugDevice>, c: Connection, d: NetboxDevice, ip: string,
                    id: Json, now: int): Tables {
    if existing.Some? then
      t.(devices := Saved(t.devices, existing.value.(wugDeviceId := id, lastSync := Some(now), syncStatus := Synced)))
    else
      t.(devices := t.devices + [NewDevice(t.nextPk, c.pk, id, d.id, d.name, ip, Synced)], nextPk := t.nextPk + 1)
  }

  /** The device table after a logical failure: a known record is marked failed. */
  function MarkedFailed(t: Tables, existing: Option<WugDevice>, msg: Json): Tables {
    if existing.Some? then t.(devices := Saved(t.devices, existing.value.(syncStatus := SyncFailed, errorMessage := PyStr(msg))))
    else t
  }

  /** What `sync_device_to_wug` does with a dictionary answer from `add_device_by_ip`. */
  function Pushed(t: Tables, netbox: seq<NetboxDevice>, d: NetboxDevice, c: Connection, ip: string,
                  isNew: bool, m: map<string, Json>, rp: Replies, now: int): Tables {
    var existing := FirstRecord(t, c.pk, d.id);
    var action := ActionFor(existing, isNew);
    if Succeeded(m) then
      var t1 := Recorded(t, existing, c, d, ip, StoredId(m), now);
      var t2 := if action == Create && ScanStarted(rp.scan) then CheckSpec(t1, netbox, d, c, ip, rp.listing, now) else t1;
      Logged(t2, CompletedLog(c, d, action, now))
    else
      var msg := GetOr(m, "message", JStr("Unknown error"));
      Logged(MarkedFailed(t, existing, msg), FailedLog(c, d, action, msg, now))
  }

  /** `sync_device_to_wug` for one connection, given what its client answers:
      a client that cannot be built, an exception from `add_device_by_ip` or
      an answer without `.get` ends in an error log. */
  function SyncSpec(t: Tables, netbox: seq<NetboxDevice>, d: NetboxDevice, c: Connection, ip: string,
                    isNew: bool, rp: Replies, now: int): Tables {
    if Construction(c).Some? then Logged(t, ErrorLog(c, d, Construction(c).value, now))
    else match rp.add
      case Err(e) => Logged(t, ErrorLog(c, d, e, now))
      case Ok(j) =>
        if !j.JObj? then Logged(t, ErrorLog(c, d, PythonError(NoGet(j)), now))
        else Pushed(t, netbox, d, c, ip, isNew, j.fields, rp, now)
  }

  /** `WUGConnection.objects.filter(is_active=True)`. */
  function ActiveConnections(cs: seq<Connection>): (r: seq<Connection>)
    ensures forall c :: c in r <==> c in cs && c.isActive
    decreases |cs|
  {
    if cs == [] then [] else ActiveConnections(cs[..|cs| - 1]) + (if cs[|cs| - 1].isActive then [cs[|cs| - 1]] else [])
  }

  /** `sync_device_to_wug` over the connections in order; the answers for a
      connection are `server(c.pk)`. */
  function SyncAll(t: Tables, netbox: seq<NetboxDevice>, d: NetboxDevice, cs: seq<Connection>, ip: string,
                   isNew: bool, server: nat -> Replies, now: int): Tables
    decreases |cs|
  {
    if cs == [] then t
    else
      var c := cs[|cs| - 1];
      SyncSpec(SyncAll(t, netbox, d, cs[..|cs| - 1], ip, isNew, server, now), netbox, d, c, ip, isNew, server(c.pk), now)
  }

  /** One more connection is one more `sync_device_to_wug`. */
  lemma SyncAllStep(t: Tables, netbox: seq<NetboxDevice>, d: NetboxDevice, cs: seq<Connection>, i: nat, ip: string,
                    isNew: bool, server: nat -> Replies, now: int)
    requires i < |cs|
    ensures SyncAll(t, netbox, d, cs[..i + 1], ip, isNew, server, now)
            == SyncSpec(SyncAll(t, netbox, d, cs[..i], ip, isNew, server, now), netbox, d, cs[i], ip, isNew, server(cs[i].pk), now)
  {
    assert cs[..i + 1][..i] == cs[..i];
  }

  predicate Eligible(d: NetboxDevice) {
    d.primaryIp4.Some? && d.status == StatusActive
  }

  /** The address text before the prefix length. */
  function PrimaryIp(d: NetboxDevice): string
    requires d.primaryIp4.Some?
  {
    Before(d.primaryIp4.value, '/')
  }

  /** `device_saved_handler`. */
  function SavedHandlerSpec(t: Tables, netbox: seq<NetboxDevice>, d: NetboxDevice, created: bool,
                            server: nat -> Replies, now: int): Tables {
    if !Eligible(d) || ActiveConnections(t.connections) == [] then t
    else SyncAll(t, netbox, d, ActiveConnections(t.connections), PrimaryIp(d), created, server, now)
  }

  // ------------------------------------------------------------------ remove

  /** `remove_device_from_wug` for one record, given what `delete_device`
      answers: the record goes, with a log, only for a dictionary answer
      with a true `success`; every other outcome is swallowed. */
  function RemoveSpec(t: Tables, rec: WugDevice, rm: Removal, now: int): Tables {
    var result := rm.delete;
    var conn := ConnectionByPk(t.connections, rec.connection);
    if conn.None? || Construction(conn.value).Some? then t
    else if result.Ok? && result.value.JObj? && Succeeded(result.value.fields)
    then Logged(t, RemovedLog(rec, now)).(devices := Deleted(t.devices, rec.pk))
    else t
  }

  function RemoveAll(t: Tables, recs: seq<WugDevice>, server: nat -> Removal, now: int): Tables
    decreases |recs|
  {
    if recs == [] then t
    else
      var rec := recs[|recs| - 1];
      RemoveSpec(RemoveAll(t, recs[..|recs| - 1], server, now), rec, server(rec.pk), now)
  }

  /** `device_deleted_handler`; `server(pk)` is what the client built for
      the record with key `pk` does. */
  function DeletedHandlerSpec(t: Tables, d: NetboxDevice, server: nat -> Removal, now: int): Tables {
    RemoveAll(t, WithNetboxId(t.devices, d.id), server, now)
  }

  // ------------------------------------------------------------------ the handlers

  /** The NetBox loop of the conflict check. */
  method CollectNetbox(netbox: seq<NetboxDevice>, ip: string, selfId: int) returns (found: seq<Conflict>)
    ensures found == NetboxConflicts(netbox, ip, selfId)
  {
    found := [];
    var i := 0;
    while i < |netbox|
      invariant 0 <= i <= |netbox|
      invariant found == NetboxConflicts(netbox[..i], ip, selfId)
    {
      assert netbox[..i + 1][..i] == netbox[..i];
      if NetboxMatch(netbox[i], ip, selfId) {
        found := found + [NetboxConflict(netbox[i])];
      }
      i := i + 1;
    }
    assert netbox[..|netbox|] == netbox;
  }

  /** The WhatsUp Gold loop of the conflict check. */
  method CollectWug(entries: seq<map<string, Json>>, ip: string, ours: Option<WugDevice>) returns (found: seq<Conflict>)
    ensures found == WugConflicts(entries, ip, ours)
  {
    found := [];
    var k := 0;
    while k < |entries|
      invariant 0 <= k <= |entries|
      invariant found == WugConflicts(entries[..k], ip, ours)
    {
      assert entries[..k + 1][..k] == entries[..k];
      if WugMatch(entries[k], ip, ours) {
        found := found + [WugConflict(entries[k])];
      }
      k := k + 1;
    }
    assert entries[..|entries|] == entries;
  }

  /** The summary loop of the conflict check. */
  method SummaryLines(cs: seq<Conflict>) returns (lines: seq<string>)
    ensures lines == ConflictLines(cs)
  {
    lines := [];
    var j := 0;
    while j < |cs|
      invariant 0 <= j <= |cs|
      invariant lines == ConflictLines(cs[..j])
    {
      assert cs[..j + 1][..j] == cs[..j];
      lines := lines + [ConflictLine(cs[j])];
      j := j + 1;
    }
    assert cs[..|cs|] == cs;
  }

  /** `check_ip_conflicts_after_scan`. */
  method CheckIpConflictsAfterScan(db: Db, netbox: seq<NetboxDevice>, ip: string, d: NetboxDevice, c: Connection,
                                   listing: Result<Json, Exc>, now: int)
    modifies db
    ensures db.Rows() == CheckSpec(old(db.Rows()), netbox, d, c, ip, listing, now)
  {
    var local := CollectNetbox(netbox, ip, d.id);
    var remote := CollectWug(WugEntries(listing), ip, FirstRecord(db.Rows(), c.pk, d.id));
    var found := local + remote;
    if found != [] {
      var lines := SummaryLines(found);
      var _ := db.CreateLog(SyncLog(c.pk, IpConflictCheck, Warning, now, Some(now), |found| + 1, 0, 0, 0,
                                    ConflictWarning(ip, d.name, lines)));
    }
  }

  /** The record update after a successful push. */
  method RecordSuccess(db: Db, existing: Option<WugDevice>, c: Connection, d: NetboxDevice, ip: string,
                       wugId: Json, now: int)
    modifies db
    ensures db.Rows() == Recorded(old(db.Rows()), existing, c, d, ip, wugId, now)
  {
    if existing.Some? {
      db.SaveDevice(existing.value.(wugDeviceId := wugId, lastSync := Some(now), syncStatus := Synced));
    } else {
      var _ := db.CreateDevice(c.pk, wugId, d.id, d.name, ip, Synced);
    }
  }

  /** The part of `sync_device_to_wug` after a dictionary answer. */
  method RecordPush(db: Db, netbox: seq<NetboxDevice>, d: NetboxDevice, c: Connection, ip: string,
                    isNew: bool, m: map<string, Json>, rp: Replies, now: int)
    modifies db
    ensures db.Rows() == Pushed(old(db.Rows()), netbox, d, c, ip, isNew, m, rp, now)
  {
    var existing := FirstRecord(db.Rows(), c.pk, d.id);
    var action := if existing.Some? && !isNew then Update else Create;
    if Succeeded(m) {
      RecordSuccess(db, existing, c, d, ip, StoredId(m), now);
      if action == Create && ScanStarted(rp.scan) {
        CheckIpConflictsAfterScan(db, netbox, ip, d, c, rp.listing, now);
      }
      var _ := db.CreateLog(CompletedLog(c, d, action, now));
    } else {
      var msg := GetOr(m, "message", JStr("Unknown error"));
      if existing.Some? {
        db.SaveDevice(existing.value.(syncStatus := SyncFailed, errorMessage := PyStr(msg)));
      }
      var _ := db.CreateLog(FailedLog(c, d, action, msg, now));
    }
  }

  /** `sync_device_to_wug`. */
  method SyncDeviceToWug(db: Db, netbox: seq<NetboxDevice>, d: NetboxDevice, c: Connection, ip: string,
                         isNew: bool, rp: Replies, now: int)
    modifies db
    ensures db.Rows() == SyncSpec(old(db.Rows()), netbox, d, c, ip, isNew, rp, now)
  {
    var built := Construction(c);
    if built.Some? {
      var _ := db.CreateLog(ErrorLog(c, d, built.value, now));
    } else if rp.add.Err? {
      var _ := db.CreateLog(ErrorLog(c, d, rp.add.error, now));
    } else if !rp.add.value.JObj? {
      var _ := db.CreateLog(ErrorLog(c, d, PythonError(NoGet(rp.add.value)), now));
    } else {
      RecordPush(db, netbox, d, c, ip, isNew, rp.add.value.fields, rp, now);
    }
  }

  /** `device_saved_handler`. `sync_device_to_wug` catches everything it
      raises, so the handler's own `try` per connection never fires here. */
  method DeviceSavedHandler(db: Db, netbox: seq<NetboxDevice>, d: NetboxDevice, created: bool,
                            server: nat -> Replies, now: int)
    modifies db
    ensures db.Rows() == SavedHandlerSpec(old(db.Rows()), netbox, d, created, server, now)
  {
    if d.primaryIp4.None? || d.status != StatusActive {
      return;
    }
    var connections := ActiveConnections(db.connections);
    if connections == [] {
      return;
    }
    var ip := Before(d.primaryIp4.value, '/');
    ghost var t0 := db.Rows();
    var i := 0;
    while i < |connections|
      invariant 0 <= i <= |connections|
      invariant db.Rows() == SyncAll(t0, netbox, d, connections[..i], ip, created, server, now)
    {
      SyncAllStep(t0, netbox, d, connections, i, ip, created, server, now);
      SyncDeviceToWug(db, netbox, d, connections[i], ip, created, server(connections[i].pk), now);
      i := i + 1;
    }
    assert connections[..|connections|] == connections;
  }

  /** `remove_device_from_wug`. */
  method RemoveDeviceFromWug(db: Db, rec: WugDevice, rm: Removal, now: int)
    modifies db
    ensures db.Rows() == RemoveSpec(old(db.Rows()), rec, rm, now)
  {
    var conn := ConnectionByPk(db.connections, rec.connection);
    if conn.None? || Construction(conn.value).Some? {
      return;
    }
    var result := rm.delete;
    if result.Ok? && result.value.JObj? && Succeeded(result.value.fields) {
      var _ := db.CreateLog(RemovedLog(rec, now));
      db.DeleteDevice(rec.pk);
    }
  }

  /** `device_deleted_handler`: every record of the device, one at a time. */
  method DeviceDeletedHandler(db: Db, d: NetboxDevice, server: nat -> Removal, now: int)
    modifies db
    ensures db.Rows() == DeletedHandlerSpec(old(db.Rows()), d, server, now)
  {
    var recs := WithNetboxId(db.devices, d.id);
    ghost var t0 := db.Rows();
    var i := 0;
    while i < |recs|
      invariant 0 <= i <= |recs|
      invariant db.Rows() == RemoveAll(t0, recs[..i], server, now)
    {
      assert recs[..i + 1][..i] == recs[..i];
      RemoveDeviceFromWug(db, recs[i], server(recs[i].pk), now);
      i := i + 1;
    }
    assert recs[..|recs|] == recs;
  }
}
