/** The plugin's database tables as the signal handlers and the views use
    them: `WUGConnection`, `WUGDevice` and `WUGSyncLog` rows. Rows are kept in
    creation order, which is also the order `.first()` and a plain iteration
    see; device rows carry their primary key, log rows are numbered by
    position (`id` = position + 1). */
module Store {
  import opened Base
  import opened Text
  import opened Json
  import opened Http
  import opened Errors

  /** A `WUGConnection` row, with the fields the core reads. */
  datatype Connection = Connection(pk: nat, name: string, host: string, username: string, password: string,
                                   port: int, useSsl: bool, verifySsl: bool, isActive: bool,
                                   enableNetboxExport: bool, lastExport: Option<int>)

  /** The `sync_status` values of a `WUGDevice` that the core writes or counts. */
  datatype DeviceStatus = Pending | Synced | SyncFailed | SyncError

  function DeviceStatusText(s: DeviceStatus): string {
    match s
    case Pending => "pending"
    case Synced => "success"
    case SyncFailed => "failed"
    case SyncError => "error"
  }

  /** A `WUGDevice` row. `wugDeviceId` holds whatever value the handler
      stored, `None` included. */
  datatype WugDevice = WugDevice(pk: nat, connection: nat, wugDeviceId: Json, netboxDeviceId: int,
                                 deviceName: string, ipAddress: string, syncStatus: DeviceStatus,
                                 errorMessage: string, lastSync: Option<int>, syncEnabled: bool,
                                 lastSyncAttempt: Option<int>)

  /** The `sync_type` values of a `WUGSyncLog` that the core writes. */
  datatype LogType = NetboxToWug | IpConflictCheck | Manual

  function LogTypeText(k: LogType): string {
    match k
    case NetboxToWug => "netbox_to_wug"
    case IpConflictCheck => "ip_conflict_check"
    case Manual => "manual"
  }

  /** The `status` values of a `WUGSyncLog` that the core writes. */
  datatype LogStatus = Running | Completed | Failed | Errored | Warning

  function LogStatusText(s: LogStatus): string {
    match s
    case Running => "running"
    case Completed => "completed"
    case Failed => "failed"
    case Errored => "error"
    case Warning => "warning"
  }

  /** A `WUGSyncLog` summary, kept as the values it is formatted from;
      `SummaryText` is the text stored. */
  datatype Summary =
    | PushDone(device: string, created: bool)
    | PushRefused(device: string, created: bool, message: Json)
    | PushRaised(device: string, error: Exc)
    | Removed(device: string)
    | ConflictWarning(ip: string, device: string, lines: seq<string>)
    | SyncStarting
    | TestFailed(message: Json)
    | SyncFound(count: int)
    | SyncRaised(error: Exc)

  function ActionText(created: bool): string {
    if created then "create" else "update"
  }

  /** `sep.join(parts)`. */
  function JoinWith(parts: seq<string>, sep: string): string {
    if parts == [] then "" else if |parts| == 1 then parts[0] else parts[0] + sep + JoinWith(parts[1..], sep)
  }

  function SummaryText(s: Summary): string {
    match s
    case PushDone(name, created) => "NetBox device " + name + " " + ActionText(created) + "d in WUG via signal"
    case PushRefused(name, created, msg) =>
      "Failed to " + ActionText(created) + " NetBox device " + name + " in WUG: " + PyStr(msg)
    case PushRaised(name, e) => "Exception while syncing NetBox device " + name + " to WUG: " + Message(e)
    case Removed(name) => "NetBox device " + name + " removed from WUG"
    case ConflictWarning(ip, name, lines) =>
      "\U{26A0}\U{FE0F}  IP CONFLICT DETECTED for " + ip + "! Device " + name + " shares this IP with: "
        + JoinWith(lines, "; ")
    case SyncStarting => "Starting debug sync..."
    case TestFailed(msg) => "Connection test failed: " + PyStr(msg)
    case SyncFound(n) => "Successfully connected and found " + IntToString(n) + " devices"
    case SyncRaised(e) => "Sync error: " + Message(e)
  }

  /** A `WUGSyncLog` row. */
  datatype SyncLog = SyncLog(connection: nat, syncType: LogType, status: LogStatus, startTime: int,
                             endTime: Option<int>, discovered: int, created: int, updated: int,
                             errors: int, summary: Summary)

  /** The three tables, and the next primary key the device table hands out. */
  datatype Tables = Tables(connections: seq<Connection>, devices: seq<WugDevice>, logs: seq<SyncLog>, nextPk: nat)

  /** Device primary keys are distinct and below the next key. */
  predicate KeysValid(t: Tables) {
    (forall i :: 0 <= i < |t.devices| ==> t.devices[i].pk < t.nextPk)
    && (forall i, j :: 0 <= i < j < |t.devices| ==> t.devices[i].pk != t.devices[j].pk)
  }

  predicate Matches(d: WugDevice, connection: nat, netboxId: int) {
    d.connection == connection && d.netboxDeviceId == netboxId
  }

  /** `WUGDevice.objects.filter(connection=c, netbox_device_id=n).first()`,
      as a position. */
  function FirstFor(devices: seq<WugDevice>, connection: nat, netboxId: int): (r: Option<nat>)
    ensures r.Some? ==> r.value < |devices| && Matches(devices[r.value], connection, netboxId)
    ensures r.Some? ==> forall i :: 0 <= i < r.value ==> !Matches(devices[i], connection, netboxId)
    ensures r.None? <==> forall i :: 0 <= i < |devices| ==> !Matches(devices[i], connection, netboxId)
  {
    if devices == [] then None
    else if Matches(devices[0], connection, netboxId) then Some(0)
    else match FirstFor(devices[1..], connection, netboxId)
         case None => None
         case Some(i) => Some(i + 1)
  }

  /** `.filter(...).first()` as the row itself. */
  function FirstRecord(t: Tables, connection: nat, netboxId: int): Option<WugDevice> {
    match FirstFor(t.devices, connection, netboxId)
    case None => None
    case Some(i) => Some(t.devices[i])
  }

  /** `WUGDevice.objects.filter(netbox_device_id=n)`. */
  function WithNetboxId(devices: seq<WugDevice>, netboxId: int): (r: seq<WugDevice>)
    ensures forall d :: d in r <==> d in devices && d.netboxDeviceId == netboxId
    ensures |r| <= |devices|
  {
    if devices == [] then []
    else (if devices[0].netboxDeviceId == netboxId then [devices[0]] else []) + WithNetboxId(devices[1..], netboxId)
  }

  /** `.filter(connection=c)` on the device table. */
  function OfConnection(devices: seq<WugDevice>, connection: nat): (r: seq<WugDevice>)
    ensures forall d :: d in r <==> d in devices && d.connection == connection
    ensures |r| <= |devices|
  {
    if devices == [] then []
    else (if devices[0].connection == connection then [devices[0]] else []) + OfConnection(devices[1..], connection)
  }

  /** The connection row with primary key `pk`, if there is one. */
  function ConnectionByPk(connections: seq<Connection>, pk: nat): (r: Option<Connection>)
    ensures r.Some? ==> r.value in connections && r.value.pk == pk
    ensures r.None? ==> forall c :: c in connections ==> c.pk != pk
  {
    if connections == [] then None
    else if connections[0].pk == pk then Some(connections[0])
    else ConnectionByPk(connections[1..], pk)
  }

  /** `WUGDevice.objects.get(pk=pk)`, if there is such a row. */
  function DeviceByPk(devices: seq<WugDevice>, pk: nat): (r: Option<WugDevice>)
    ensures r.Some? ==> r.value in devices && r.value.pk == pk
    ensures r.None? ==> forall d :: d in devices ==> d.pk != pk
  {
    if devices == [] then None
    else if devices[0].pk == pk then Some(devices[0])
    else DeviceByPk(devices[1..], pk)
  }

  /** `.filter(id__in=ids).update(sync_enabled=v)` on the device table. */
  function WithSyncEnabled(devices: seq<WugDevice>, ids: set<int>, v: bool): (r: seq<WugDevice>)
    ensures |r| == |devices|
    ensures forall i :: 0 <= i < |r| ==> r[i] == if devices[i].pk in ids then devices[i].(syncEnabled := v) else devices[i]
  {
    if devices == [] then []
    else [if devices[0].pk in ids then devices[0].(syncEnabled := v) else devices[0]]
         + WithSyncEnabled(devices[1..], ids, v)
  }

  /** The number of rows `.filter(id__in=ids)` selects. */
  function CountIn(devices: seq<WugDevice>, ids: set<int>): (n: nat)
    ensures n <= |devices|
    ensures n == 0 <==> forall i :: 0 <= i < |devices| ==> devices[i].pk !in ids
  {
    if devices == [] then 0 else (if devices[0].pk in ids then 1 else 0) + CountIn(devices[1..], ids)
  }

  /** The device table after `save()` of `rec`: the row with its key is replaced. */
  function Saved(devices: seq<WugDevice>, rec: WugDevice): (r: seq<WugDevice>)
    ensures |r| == |devices|
    ensures forall i :: 0 <= i < |r| ==> r[i] == if devices[i].pk == rec.pk then rec else devices[i]
  {
    if devices == [] then [] else [if devices[0].pk == rec.pk then rec else devices[0]] + Saved(devices[1..], rec)
  }

  /** The device table after `delete()` of the row with key `pk`. */
  function Deleted(devices: seq<WugDevice>, pk: nat): (r: seq<WugDevice>)
    ensures forall d :: d in r <==> d in devices && d.pk != pk
    ensures |r| <= |devices|
  {
    if devices == [] then []
    else (if devices[0].pk == pk then [] else [devices[0]]) + Deleted(devices[1..], pk)
  }

  /** Deleting a key that is present removes exactly one row. */
  lemma {:induction false} DeletedOne(devices: seq<WugDevice>, k: nat)
    requires k < |devices|
    requires forall i, j :: 0 <= i < j < |devices| ==> devices[i].pk != devices[j].pk
    ensures |Deleted(devices, devices[k].pk)| == |devices| - 1
  {
    if k == 0 {
      DeletedAbsent(devices[1..], devices[0].pk);
    } else {
      DeletedOne(devices[1..], k - 1);
    }
  }

  /** Deleting a key that is absent changes nothing. */
  lemma {:induction false} DeletedAbsent(devices: seq<WugDevice>, pk: nat)
    requires forall i :: 0 <= i < |devices| ==> devices[i].pk != pk
    ensures Deleted(devices, pk) == devices
  {
    if devices != [] {
      DeletedAbsent(devices[1..], pk);
    }
  }

  /** A new row from `WUGDevice.objects.create(...)` with the given fields;
      the fields the call leaves out take their defaults (sync enabled, no
      error, never synced). */
  function NewDevice(pk: nat, connection: nat, wugDeviceId: Json, netboxDeviceId: int, deviceName: string,
                     ipAddress: string, syncStatus: DeviceStatus): WugDevice {
    WugDevice(pk, connection, wugDeviceId, netboxDeviceId, deviceName, ipAddress, syncStatus, "", None, true, None)
  }

  /** The tables through one object. */
  class Db {
    var connections: seq<Connection>
    var devices: seq<WugDevice>
    var logs: seq<SyncLog>
    var nextPk: nat

    function Rows(): Tables
      reads this
    {
      Tables(connections, devices, logs, nextPk)
    }

    constructor (t: Tables)
      ensures Rows() == t
    {
      connections := t.connections;
      devices := t.devices;
      logs := t.logs;
      nextPk := t.nextPk;
    }

    /** `WUGDevice.objects.create(...)`: a row with a fresh key at the end. */
    method CreateDevice(connection: nat, wugDeviceId: Json, netboxDeviceId: int, deviceName: string,
                        ipAddress: string, syncStatus: DeviceStatus) returns (rec: WugDevice)
      modifies this
      ensures rec == NewDevice(old(nextPk), connection, wugDeviceId, netboxDeviceId, deviceName, ipAddress, syncStatus)
      ensures Rows() == old(Rows()).(devices := old(devices) + [rec], nextPk := old(nextPk) + 1)
    {
      rec := NewDevice(nextPk, connection, wugDeviceId, netboxDeviceId, deviceName, ipAddress, syncStatus);
      devices := devices + [rec];
      nextPk := nextPk + 1;
    }

    /** `rec.save()` for a row that is already stored. */
    method SaveDevice(rec: WugDevice)
      modifies this
      ensures Rows() == old(Rows()).(devices := Saved(old(devices), rec))
    {
      devices := Saved(devices, rec);
    }

    /** `rec.delete()`. */
    method DeleteDevice(pk: nat)
      modifies this
      ensures Rows() == old(Rows()).(devices := Deleted(old(devices), pk))
    {
      devices := Deleted(devices, pk);
    }

    /** `WUGDevice.objects.filter(id__in=ids).update(sync_enabled=v)`; the
        number of rows matched is returned. */
    method UpdateSyncEnabled(ids: set<int>, v: bool) returns (count: nat)
      modifies this
      ensures count == CountIn(old(devices), ids)
      ensures Rows() == old(Rows()).(devices := WithSyncEnabled(old(devices), ids, v))
    {
      count := CountIn(devices, ids);
      devices := WithSyncEnabled(devices, ids, v);
    }

    /** `WUGSyncLog.objects.create(...)`; the new row's id is returned. */
    method CreateLog(log: SyncLog) returns (id: nat)
      modifies this
      ensures id == |old(logs)| + 1
      ensures Rows() == old(Rows()).(logs := old(logs) + [log])
    {
      logs := logs + [log];
      id := |logs|;
    }

    /** `sync_log.save()` for the row with id `id`. */
    method SaveLog(id: nat, log: SyncLog)
      requires 1 <= id <= |logs|
      modifies this
      ensures Rows() == old(Rows()).(logs := old(logs)[id - 1 := log])
    {
      logs := logs[id - 1 := log];
    }
  }

  /** Creating a device keeps the keys valid. */
  lemma CreateKeepsKeys(t: Tables, rec: WugDevice)
    requires KeysValid(t) && rec.pk == t.nextPk
    ensures KeysValid(t.(devices := t.devices + [rec], nextPk := t.nextPk + 1))
  {
  }

  /** Saving a stored row keeps the keys valid and touches no other row. */
  lemma SavedKeepsKeys(t: Tables, rec: WugDevice)
    requires KeysValid(t)
    ensures KeysValid(t.(devices := Saved(t.devices, rec)))
  {
  }
}
