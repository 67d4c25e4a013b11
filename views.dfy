/** The plugin's AJAX and management views over the tables: the manual
    sync that tests a connection and records a `manual` log, the connection
    test with its device count, the latest-log status, the per-device and
    bulk sync switches, the export trigger and export statistics, and the
    connection page's device statistics. What each view's client calls
    answer is a parameter; a response is a `Reply`. */
module Views {
  import opened Base
  import opened Text
  import opened Json
  import opened Http
  import opened Errors
  import opened Store

  /** What a view hands back: a `JsonResponse` with its status, a redirect
      to a named page, the 404 of `get_object_or_404`, or the 403 of
      `PermissionDenied`. */
  datatype Reply =
    | JsonReply(status: int, body: map<string, Json>)
    | Redirect(page: string, pk: Option<nat>)
    | NotFound
    | Forbidden

  function Ok200(body: map<string, Json>): Reply {
    JsonReply(200, body)
  }

  // ------------------------------------------------------------------ trigger_sync_view

  /** What the client built by `trigger_sync_view` does: whether building it
      raised, what `test_connection()` returned, and what
      `get_devices(include_details=False)` answers. */
  datatype ManualRun = ManualRun(built: Option<Exc>, test: Json, listing: Result<Json, Exc>)

  /** How the manual sync ends. */
  datatype Ending = TestRefused(message: Json) | Found(count: nat) | Raised(error: Exc)

  /** The log `trigger_sync_view` creates before it talks to the server;
      `start_time` takes the row's default, the current time. */
  function StartLog(pk: nat, now: int): SyncLog {
    SyncLog(pk, Manual, Running, now, None, 0, 0, 0, 0, SyncStarting)
  }

  /** The ending of the sync for the given answers: a client that cannot
      be built, a test result without `.get`, a failing listing or a truthy
      listing without a length raise; a test without a true `success`
      refuses; otherwise the number of devices, 0 for a falsy listing. */
  function EndingOf(run: ManualRun): Ending {
    if run.built.Some? then Raised(run.built.value)
    else if !run.test.JObj? then Raised(PythonError(NoGet(run.test)))
    else if !Succeeded(run.test.fields) then TestRefused(GetOr(run.test.fields, "message", JStr("Connection test failed")))
    else if run.listing.Err? then Raised(run.listing.error)
    else if !Truthy(run.listing.value) then Found(0)
    else match PyLen(run.listing.value)
      case None => Raised(PythonError(NoLen(run.listing.value)))
      case Some(n) => Found(n)
  }

  /** The saved log for an ending: status, summary and end time, and for a
      completed sync the number of devices found. */
  function Finished(log: SyncLog, e: Ending, now: int): SyncLog {
    match e
    case TestRefused(msg) => log.(status := LogStatus.Failed, summary := TestFailed(msg), endTime := Some(now))
    case Found(n) => log.(discovered := n, status := Completed, summary := SyncFound(n), endTime := Some(now))
    case Raised(err) => log.(status := Errored, summary := SyncRaised(err), endTime := Some(now))
  }

  /** The response body for an ending of the sync whose log has id `id`. */
  function EndingBody(run: ManualRun, e: Ending, id: nat): map<string, Json> {
    match e
    case TestRefused(msg) =>
      map["success" := JBool(false), "message" := JStr("Connection failed: " + PyStr(msg)), "connection_test" := run.test]
    case Found(n) =>
      map["success" := JBool(true), "message" := JStr("Debug sync completed - found " + IntToString(n) + " devices"),
          "devices_found" := JInt(n), "connection_test" := run.test, "sync_log_id" := JInt(id)]
    case Raised(err) => map["success" := JBool(false), "message" := JStr("Sync error: " + Message(err))]
  }

  function GetInfo(c: Connection, pk: nat): map<string, Json> {
    map["message" := JStr("Sync endpoint for " + c.name + " is accessible (GET test)"),
        "connection_id" := JInt(pk), "connection_name" := JStr(c.name)]
  }

  function NotAllowed(verb: string, path: string): map<string, Json> {
    map["error" := JStr("Method " + verb + " not allowed. POST required."), "method" := JStr(verb), "path" := JStr(path)]
  }

  /** `trigger_sync_view`: the response and the tables afterwards. */
  function TriggerSyncSpec(t: Tables, authenticated: bool, verb: string, path: string, pk: nat, run: ManualRun,
                           now: int): (Reply, Tables) {
    if !authenticated then (JsonReply(401, map["error" := JStr("Authentication required")]), t)
    else if verb != "POST" && verb != "GET" then (JsonReply(405, NotAllowed(verb, path)), t)
    else match ConnectionByPk(t.connections, pk)
      case None => (NotFound, t)
      case Some(c) =>
        if verb == "GET" then (Ok200(GetInfo(c, pk)), t)
        else
          var e := EndingOf(run);
          (Ok200(EndingBody(run, e, |t.logs| + 1)), t.(logs := t.logs + [Finished(StartLog(c.pk, now), e, now)]))
  }

  /** `trigger_sync_view`: checks the caller and the method, then for a POST
      creates the running log, runs the client calls and saves the log
      with the outcome. */
  method TriggerSyncView(db: Db, authenticated: bool, verb: string, path: string, pk: nat, run: ManualRun, now: int)
    returns (reply: Reply)
    modifies db
    ensures (reply, db.Rows()) == TriggerSyncSpec(old(db.Rows()), authenticated, verb, path, pk, run, now)
  {
    if !authenticated {
      return JsonReply(401, map["error" := JStr("Authentication required")]);
    }
    if verb != "POST" && verb != "GET" {
      return JsonReply(405, NotAllowed(verb, path));
    }
    var conn := ConnectionByPk(db.connections, pk);
    if conn.None? {
      return NotFound;
    }
    var c := conn.value;
    if verb == "GET" {
      return Ok200(GetInfo(c, pk));
    }
    var log := StartLog(c.pk, now);
    ghost var before := db.logs;
    var id := db.CreateLog(log);
    var ending: Ending;
    if run.built.Some? {
      ending := Raised(run.built.value);
    } else if !run.test.JObj? {
      ending := Raised(PythonError(NoGet(run.test)));
    } else if !Succeeded(run.test.fields) {
      ending := TestRefused(GetOr(run.test.fields, "message", JStr("Connection test failed")));
    } else if run.listing.Err? {
      ending := Raised(run.listing.error);
    } else {
      var devices := run.listing.value;
      if !Truthy(devices) {
        ending := Found(0);
      } else if PyLen(devices).None? {
        ending := Raised(PythonError(NoLen(devices)));
      } else {
        ending := Found(PyLen(devices).value);
      }
    }
    assert ending == EndingOf(run);
    db.SaveLog(id, Finished(log, ending, now));
    assert db.logs == before + [Finished(log, ending, now)];
    reply := Ok200(EndingBody(run, ending, id));
  }

  /** The guards of `trigger_sync_view`: an anonymous caller gets 401 and
      any method but GET and POST gets 405; neither, nor a GET, writes a log. */
  lemma TriggerSyncGuards(t: Tables, authenticated: bool, verb: string, path: string, pk: nat, run: ManualRun, now: int)
    ensures var (reply, r) := TriggerSyncSpec(t, authenticated, verb, path, pk, run, now);
            (!authenticated ==> reply.JsonReply? && reply.status == 401 && r == t)
            && (authenticated && verb != "POST" && verb != "GET" ==> reply.JsonReply? && reply.status == 405 && r == t)
            && (verb != "POST" ==> r == t)
            && (authenticated && verb == "GET" && ConnectionByPk(t.connections, pk).Some? ==>
                  reply == Ok200(GetInfo(ConnectionByPk(t.connections, pk).value, pk)))
  {
  }

  /** The log a manual sync saves: a `manual` log of the connection with
      zero created, updated and error counts and an end time, completed
      exactly when the client is built, the test succeeds and the listing
      has a length (or is falsy), failed exactly when the test does not
      succeed, and error otherwise; only a completed log counts devices. */
  lemma ManualLogOutcome(pk: nat, run: ManualRun, now: int)
    ensures var log := Finished(StartLog(pk, now), EndingOf(run), now);
            var tested := run.built.None? && run.test.JObj?;
            var ok := tested && Succeeded(run.test.fields);
            var counted := run.listing.Ok? && (!Truthy(run.listing.value) || PyLen(run.listing.value).Some?);
            log.syncType == Manual && log.connection == pk && log.startTime == now && log.endTime == Some(now)
            && log.created == 0 && log.updated == 0 && log.errors == 0
            && (log.status == Completed <==> ok && counted)
            && (log.status == LogStatus.Failed <==> tested && !Succeeded(run.test.fields))
            && (log.status == Errored <==> !(ok && counted) && !(tested && !Succeeded(run.test.fields)))
            && (log.status == Completed ==>
                  log.discovered == (if Truthy(run.listing.value) then PyLen(run.listing.value).value else 0))
            && (log.status != Completed ==> log.discovered == 0)
  {
  }

  /** A POST for an existing connection appends exactly that one log,
      changes nothing else, and answers 200 with `success` true exactly
      when the log is completed. */
  lemma TriggerSyncPost(t: Tables, path: string, pk: nat, run: ManualRun, now: int)
    requires ConnectionByPk(t.connections, pk).Some?
    ensures var (reply, r) := TriggerSyncSpec(t, true, "POST", path, pk, run, now);
            var log := Finished(StartLog(pk, now), EndingOf(run), now);
            r.(logs := t.logs) == t && r.logs == t.logs + [log]
            && reply.JsonReply? && reply.status == 200 && "success" in reply.body
            && reply.body["success"] == JBool(log.status == Completed)
  {
  }

  // ------------------------------------------------------------------ test_connection_view

  /** `device_count`: the length of a list, 0 for anything else, "unknown"
      when the listing raises. */
  function DeviceCount(listing: Result<Json, Exc>): Json {
    match listing
    case Err(_) => JStr("unknown")
    case Ok(JList(xs)) => JInt(|xs|)
    case Ok(_) => JInt(0)
  }

  function TestFailedBody(e: Exc): map<string, Json> {
    map["success" := JBool(false), "message" := JStr("Connection test failed: " + Message(e))]
  }

  /** `test_connection_view`, given whether building the client raised,
      the dictionary `test_connection()` returned and what
      `get_devices(include_details=False)` answers. A missing `success`
      key raises `KeyError('success')`. */
  function TestConnectionView(canView: bool, t: Tables, pk: nat, built: Option<Exc>, report: map<string, Json>,
                              listing: Result<Json, Exc>): (r: Reply)
    ensures r.Forbidden? <==> !canView
    ensures r.NotFound? <==> canView && ConnectionByPk(t.connections, pk).None?
    ensures r.JsonReply? ==> r.status == 200 && "success" in r.body
    ensures r.JsonReply? && "device_count" in r.body && "device_count" !in report ==>
              built.None? && "success" in report && Truthy(report["success"])
              && r.body["device_count"] == DeviceCount(listing)
  {
    if !canView then Forbidden
    else if ConnectionByPk(t.connections, pk).None? then NotFound
    else if built.Some? then Ok200(TestFailedBody(built.value))
    else if "success" !in report then Ok200(TestFailedBody(PythonError("'success'")))
    else if Truthy(report["success"]) then Ok200(report["device_count" := DeviceCount(listing)])
    else Ok200(report)
  }

  /** The report is passed through, with `device_count` added exactly when
      the test succeeded. */
  lemma DeviceCountOnlyOnSuccess(t: Tables, pk: nat, report: map<string, Json>, listing: Result<Json, Exc>)
    requires ConnectionByPk(t.connections, pk).Some? && "success" in report && "device_count" !in report
    ensures var reply := TestConnectionView(true, t, pk, None, report, listing);
            reply.JsonReply? && reply.status == 200
            && ("device_count" in reply.body <==> Truthy(report["success"]))
            && (forall k :: k in report ==> k in reply.body && reply.body[k] == report[k])
            && (Truthy(report["success"]) ==>
                  reply.body["device_count"] == (if listing.Err? then JStr("unknown")
                                                 else if listing.value.JList? then JInt(|listing.value.items|)
                                                 else JInt(0)))
  {
  }

  // ------------------------------------------------------------------ sync_status_view

  /** The connection's logs in the model's default order, newest first: the
      reverse of creation order. */
  function ConnectionLogs(logs: seq<SyncLog>, pk: nat): (r: seq<SyncLog>)
    ensures forall x :: x in r <==> x in logs && x.connection == pk
    ensures |r| <= |logs|
    decreases |logs|
  {
    if logs == [] then []
    else (if logs[|logs| - 1].connection == pk then [logs[|logs| - 1]] else []) + ConnectionLogs(logs[..|logs| - 1], pk)
  }

  /** `connection.sync_logs.first()`: the connection's log created last. */
  function LatestLog(logs: seq<SyncLog>, pk: nat): (r: Option<SyncLog>)
    ensures r.Some? ==> r.value in logs && r.value.connection == pk
    ensures r.None? <==> forall i :: 0 <= i < |logs| ==> logs[i].connection != pk
    decreases |logs|
  {
    if logs == [] then None
    else if logs[|logs| - 1].connection == pk then Some(logs[|logs| - 1])
    else
      var r := LatestLog(logs[..|logs| - 1], pk);
      assert forall i :: 0 <= i < |logs| - 1 ==> logs[i] == logs[..|logs| - 1][i];
      r
  }

  /** The fields `sync_status_view` reports for a log; `iso` is
      `isoformat()` and `rate` the row's `success_rate`. */
  function StatusBody(log: SyncLog, iso: int -> string, rate: SyncLog -> Json): map<string, Json> {
    map["status" := JStr(LogStatusText(log.status)), "start_time" := JStr(iso(log.startTime)),
        "end_time" := (if log.endTime.Some? then JStr(iso(log.endTime.value)) else JNull),
        "devices_discovered" := JInt(log.discovered), "devices_created" := JInt(log.created),
        "devices_updated" := JInt(log.updated), "devices_errors" := JInt(log.errors),
        "success_rate" := rate(log), "summary" := JStr(SummaryText(log.summary))]
  }

  /** `sync_status_view`. */
  function SyncStatusView(t: Tables, pk: nat, iso: int -> string, rate: SyncLog -> Json): (r: Reply)
    ensures r.NotFound? <==> ConnectionByPk(t.connections, pk).None?
    ensures r.JsonReply? ==> r.status == 200 && "status" in r.body
                             && (r.body["status"] == JStr("none") <==> LatestLog(t.logs, pk).None?)
  {
    if ConnectionByPk(t.connections, pk).None? then NotFound
    else match LatestLog(t.logs, pk)
      case None => Ok200(map["status" := JStr("none"), "message" := JStr("No sync logs found")])
      case Some(log) => Ok200(StatusBody(log, iso, rate))
  }

  /** The latest log heads the newest-first list of the connection's logs. */
  lemma {:induction false} LatestHeadsNewestFirst(logs: seq<SyncLog>, pk: nat)
    ensures var mine := ConnectionLogs(logs, pk);
            LatestLog(logs, pk) == if mine == [] then None else Some(mine[0])
    decreases |logs|
  {
    if logs != [] && logs[|logs| - 1].connection != pk {
      LatestHeadsNewestFirst(logs[..|logs| - 1], pk);
    }
  }

  /** The status is "none" exactly when the connection has no log, and
      otherwise is that of its newest log. */
  lemma StatusNoneIffNoLogs(t: Tables, pk: nat, iso: int -> string, rate: SyncLog -> Json)
    requires ConnectionByPk(t.connections, pk).Some?
    ensures var reply := SyncStatusView(t, pk, iso, rate);
            reply.JsonReply? && "status" in reply.body
            && (reply.body["status"] == JStr("none") <==> forall i :: 0 <= i < |t.logs| ==> t.logs[i].connection != pk)
            && (LatestLog(t.logs, pk).Some? ==>
                  reply.body["status"] == JStr(LogStatusText(LatestLog(t.logs, pk).value.status)))
  {
  }

  // ------------------------------------------------------------------ device switches

  /** `device_enable_sync_view` (`enabled`) and `device_disable_sync_view`. */
  method DeviceSyncSwitchView(db: Db, canChange: bool, pk: nat, enabled: bool) returns (reply: Reply)
    modifies db
    ensures var dev := DeviceByPk(old(db.devices), pk);
            reply == (if !canChange then Forbidden else if dev.None? then NotFound else Redirect("wugdevice", Some(pk)))
            && db.Rows() == (if reply.Redirect? then old(db.Rows()).(devices := Saved(old(db.devices), dev.value.(syncEnabled := enabled)))
                             else old(db.Rows()))
  {
    if !canChange {
      return Forbidden;
    }
    var dev := DeviceByPk(db.devices, pk);
    if dev.None? {
      return NotFound;
    }
    var device := dev.value.(syncEnabled := enabled);
    db.SaveDevice(device);
    reply := Redirect("wugdevice", Some(device.pk));
  }

  /** `device_force_sync_view`: the device is marked pending with the
      current time as its last attempt. */
  method DeviceForceSyncView(db: Db, canChange: bool, pk: nat, now: int) returns (reply: Reply)
    modifies db
    ensures var dev := DeviceByPk(old(db.devices), pk);
            reply == (if !canChange then Forbidden else if dev.None? then NotFound else Redirect("wugdevice", Some(pk)))
            && db.Rows() == (if reply.Redirect?
                             then old(db.Rows()).(devices := Saved(old(db.devices), dev.value.(syncStatus := Pending, lastSyncAttempt := Some(now))))
                             else old(db.Rows()))
  {
    if !canChange {
      return Forbidden;
    }
    var dev := DeviceByPk(db.devices, pk);
    if dev.None? {
      return NotFound;
    }
    var device := dev.value.(syncStatus := Pending, lastSyncAttempt := Some(now));
    db.SaveDevice(device);
    reply := Redirect("wugdevice", Some(device.pk));
  }

  /** Saving one row with a changed field changes that row and no other. */
  lemma SaveChangesOneRow(devices: seq<WugDevice>, pk: nat, rec: WugDevice)
    requires forall i, j :: 0 <= i < j < |devices| ==> devices[i].pk != devices[j].pk
    requires DeviceByPk(devices, pk).Some? && rec.pk == pk
    ensures var r := Saved(devices, rec);
            |r| == |devices| && rec in r
            && (forall i :: 0 <= i < |devices| && devices[i].pk != pk ==> r[i] == devices[i])
            && (forall i :: 0 <= i < |devices| && devices[i].pk == pk ==> r[i] == rec && devices[i] == DeviceByPk(devices, pk).value)
  {
    var prev := DeviceByPk(devices, pk).value;
    var k :| 0 <= k < |devices| && devices[k] == prev;
    var r := Saved(devices, rec);
    assert r[k] == rec;
    forall i | 0 <= i < |devices| && devices[i].pk == pk
      ensures r[i] == rec && devices[i] == prev
    {
      SamePkSameRow(devices, i, k);
    }
  }

  lemma SamePkSameRow(devices: seq<WugDevice>, i: int, k: int)
    requires forall i, j :: 0 <= i < j < |devices| ==> devices[i].pk != devices[j].pk
    requires 0 <= i < |devices| && 0 <= k < |devices| && devices[i].pk == devices[k].pk
    ensures i == k
  {
  }

  /** The switches change only `sync_enabled`, and force sync only
      `sync_status` and `last_sync_attempt`, of the one row addressed. */
  lemma SwitchesChangeOnlyTheirFields(t: Tables, pk: nat, enabled: bool, now: int)
    requires KeysValid(t) && DeviceByPk(t.devices, pk).Some?
    ensures var dev := DeviceByPk(t.devices, pk).value;
            var on := Saved(t.devices, dev.(syncEnabled := enabled));
            var forced := Saved(t.devices, dev.(syncStatus := Pending, lastSyncAttempt := Some(now)));
            |on| == |t.devices| && |forced| == |t.devices|
            && forall i :: 0 <= i < |t.devices| ==>
                 (t.devices[i].pk != pk ==> on[i] == t.devices[i] && forced[i] == t.devices[i])
                 && (t.devices[i].pk == pk ==>
                       on[i] == t.devices[i].(syncEnabled := enabled)
                       && forced[i] == t.devices[i].(syncStatus := Pending, lastSyncAttempt := Some(now)))
  {
    var dev := DeviceByPk(t.devices, pk).value;
    SaveChangesOneRow(t.devices, pk, dev.(syncEnabled := enabled));
    SaveChangesOneRow(t.devices, pk, dev.(syncStatus := Pending, lastSyncAttempt := Some(now)));
  }

  /** `bulk_enable_sync_view` (`enabled`) and `bulk_disable_sync_view`:
      only a POST with a non-empty id list updates rows; the count it
      reports is the number of rows the ids select. */
  method BulkSyncSwitchView(db: Db, canChange: bool, verb: string, deviceIds: seq<int>, enabled: bool)
    returns (reply: Reply, reported: Option<nat>)
    modifies db
    ensures var go := canChange && verb == "POST" && deviceIds != [];
            var ids := set i | i in deviceIds;
            reply == (if canChange then Redirect("wugdevice_list", None) else Forbidden)
            && reported == (if go then Some(CountIn(old(db.devices), ids)) else None)
            && db.Rows() == (if go then old(db.Rows()).(devices := WithSyncEnabled(old(db.devices), ids, enabled))
                             else old(db.Rows()))
  {
    if !canChange {
      return Forbidden, None;
    }
    reported := None;
    if verb == "POST" && deviceIds != [] {
      var ids := set i | i in deviceIds;
      var count := db.UpdateSyncEnabled(ids, enabled);
      reported := Some(count);
    }
    reply := Redirect("wugdevice_list", None);
  }

  /** A bulk update sets the flag of exactly the selected rows and touches
      no other field. */
  lemma BulkUpdateFields(devices: seq<WugDevice>, ids: set<int>, v: bool)
    ensures var r := WithSyncEnabled(devices, ids, v);
            |r| == |devices|
            && (forall i :: 0 <= i < |r| ==> r[i].(syncEnabled := devices[i].syncEnabled) == devices[i])
            && (forall i :: 0 <= i < |r| ==> (r[i].syncEnabled == v <== devices[i].pk in ids))
            && (forall i :: 0 <= i < |r| ==> (r[i] == devices[i] <== devices[i].pk !in ids))
  {
  }

  lemma {:induction false} CountInSnoc(devices: seq<WugDevice>, d: WugDevice, ids: set<int>)
    ensures CountIn(devices + [d], ids) == CountIn(devices, ids) + (if d.pk in ids then 1 else 0)
    decreases |devices|
  {
    if devices != [] {
      assert (devices + [d])[1..] == devices[1..] + [d];
      CountInSnoc(devices[1..], d, ids);
    }
  }

  /** The count the bulk views report is the number of rows whose key is
      among the ids. */
  lemma {:induction false} CountInSelects(devices: seq<WugDevice>, ids: set<int>)
    ensures CountIn(devices, ids) == |set i | 0 <= i < |devices| && devices[i].pk in ids|
    decreases |devices|
  {
    if devices != [] {
      var n := |devices| - 1;
      var init := devices[..n];
      CountInSelects(init, ids);
      assert devices == init + [devices[n]];
      CountInSnoc(init, devices[n], ids);
      SelectedSnoc(devices, ids);
    }
  }

  /** The rows of `devices` selected by `ids`, split at the last row. */
  lemma SelectedSnoc(devices: seq<WugDevice>, ids: set<int>)
    requires devices != []
    ensures var n := |devices| - 1;
            var all := set i | 0 <= i < |devices| && devices[i].pk in ids;
            var rest := set i | 0 <= i < n && devices[..n][i].pk in ids;
            |all| == |rest| + (if devices[n].pk in ids then 1 else 0)
  {
    var n := |devices| - 1;
    var all := set i | 0 <= i < |devices| && devices[i].pk in ids;
    var rest := set i | 0 <= i < n && devices[..n][i].pk in ids;
    assert forall i :: 0 <= i < n ==> devices[..n][i] == devices[i];
    if devices[n].pk in ids {
      assert all == rest + {n};
    } else {
      assert all == rest;
    }
  }

  // ------------------------------------------------------------------ export

  /** `trigger_netbox_export_view`: it queues nothing, so only the response
      depends on the connection. */
  function TriggerExportView(canChange: bool, verb: string, t: Tables, pk: nat): (r: Reply)
    ensures r.Forbidden? <==> !canChange
    ensures r.JsonReply? && r.status == 200 ==>
              verb == "POST" && ConnectionByPk(t.connections, pk).Some? && "success" in r.body
              && r.body["success"] == JBool(ConnectionByPk(t.connections, pk).value.enableNetboxExport)
  {
    if !canChange then Forbidden
    else if verb != "POST" then JsonReply(405, map["error" := JStr("POST required")])
    else match ConnectionByPk(t.connections, pk)
      case None => NotFound
      case Some(c) =>
        if !c.enableNetboxExport
        then Ok200(map["success" := JBool(false), "message" := JStr("NetBox export is not enabled for this connection")])
        else Ok200(map["success" := JBool(true), "message" := JStr("NetBox export initiated for " + c.name)])
  }

  /** The export trigger answers 405 to anything but POST, and reports
      success exactly for a connection with export enabled. */
  lemma ExportTriggerGuards(verb: string, t: Tables, pk: nat)
    ensures var reply := TriggerExportView(true, verb, t, pk);
            (verb != "POST" ==> reply.JsonReply? && reply.status == 405)
            && (verb == "POST" ==> (reply.NotFound? <==> ConnectionByPk(t.connections, pk).None?))
            && (verb == "POST" && ConnectionByPk(t.connections, pk).Some? ==>
                  reply.JsonReply? && reply.status == 200
                  && reply.body["success"] == JBool(ConnectionByPk(t.connections, pk).value.enableNetboxExport))
  {
  }

  /** A `NetBoxIPExport` row, with the fields the status view reads. */
  datatype IpExport = IpExport(connection: nat, ipAddress: string, exportStatus: string, created: int,
                               deviceName: Option<string>)

  function CountStatus(exports: seq<IpExport>, s: string): (n: nat)
    ensures n <= |exports|
    decreases |exports|
  {
    if exports == [] then 0
    else CountStatus(exports[..|exports| - 1], s) + (if exports[|exports| - 1].exportStatus == s then 1 else 0)
  }

  /** `export_status__in=['exported', 'scan_completed']`. */
  function CountCompleted(exports: seq<IpExport>): (n: nat)
    ensures n <= |exports|
    decreases |exports|
  {
    if exports == [] then 0
    else CountCompleted(exports[..|exports| - 1])
         + (if exports[|exports| - 1].exportStatus in {"exported", "scan_completed"} then 1 else 0)
  }

  /** The completed count is the exported count plus the scan-completed count. */
  lemma {:induction false} CompletedSplits(exports: seq<IpExport>)
    ensures CountCompleted(exports) == CountStatus(exports, "exported") + CountStatus(exports, "scan_completed")
    decreases |exports|
  {
    if exports != [] {
      CompletedSplits(exports[..|exports| - 1]);
      var s := exports[|exports| - 1].exportStatus;
      if s == "exported" {
        assert s != "scan_completed" by {
          assert s[0] != "scan_completed"[0];
        }
      }
    }
  }

  /** The exports of one connection, in table order. */
  function OfExportConnection(exports: seq<IpExport>, pk: nat): (r: seq<IpExport>)
    ensures forall x :: x in r <==> x in exports && x.connection == pk
    decreases |exports|
  {
    if exports == [] then []
    else OfExportConnection(exports[..|exports| - 1], pk)
         + (if exports[|exports| - 1].connection == pk then [exports[|exports| - 1]] else [])
  }

  predicate NewestFirst(xs: seq<IpExport>) {
    forall i, j :: 0 <= i < j < |xs| ==> xs[i].created >= xs[j].created
  }

  /** Places `x` into a list already newest first, after every row at least as new. */
  function InsertByCreated(x: IpExport, xs: seq<IpExport>): (r: seq<IpExport>)
    ensures multiset(r) == multiset(xs) + multiset{x}
    decreases |xs|
  {
    if xs == [] then [x]
    else if xs[0].created >= x.created then
      assert xs == [xs[0]] + xs[1..];
      [xs[0]] + InsertByCreated(x, xs[1..])
    else [x] + xs
  }

  /** Inserting keeps a list newest first. */
  lemma {:induction false} InsertKeepsOrder(x: IpExport, xs: seq<IpExport>)
    requires NewestFirst(xs)
    ensures NewestFirst(InsertByCreated(x, xs))
    decreases |xs|
  {
    if xs != [] && xs[0].created >= x.created {
      var rest := InsertByCreated(x, xs[1..]);
      InsertKeepsOrder(x, xs[1..]);
      assert xs == [xs[0]] + xs[1..];
      forall k | 0 <= k < |rest| ensures rest[k].created <= xs[0].created {
        assert rest[k] in multiset(xs[1..]) + multiset{x};
        if rest[k] != x {
          var m :| 0 <= m < |xs[1..]| && xs[1..][m] == rest[k];
          assert xs[m + 1] == rest[k];
        }
      }
    }
  }

  /** `order_by('-created')`. */
  function ByCreatedDesc(xs: seq<IpExport>): (r: seq<IpExport>)
    ensures NewestFirst(r) && multiset(r) == multiset(xs)
    decreases |xs|
  {
    if xs == [] then []
    else
      assert xs == xs[..|xs| - 1] + [xs[|xs| - 1]];
      var sorted := ByCreatedDesc(xs[..|xs| - 1]);
      InsertKeepsOrder(xs[|xs| - 1], sorted);
      InsertByCreated(xs[|xs| - 1], sorted)
  }

  /** `exports.order_by('-created')[:10]`. */
  function RecentExports(exports: seq<IpExport>): seq<IpExport> {
    var sorted := ByCreatedDesc(exports);
    if |sorted| <= 10 then sorted else sorted[..10]
  }

  /** The recent list holds the ten newest exports (all of them when there
      are fewer), newest first: no export left out is newer than one kept. */
  lemma RecentAreNewest(exports: seq<IpExport>)
    ensures var r := RecentExports(exports);
            |r| == (if |exports| <= 10 then |exports| else 10) && NewestFirst(r)
            && multiset(r) <= multiset(exports)
            && forall x, y :: x in multiset(exports) - multiset(r) && y in r ==> x.created <= y.created
  {
    var sorted := ByCreatedDesc(exports);
    var r := RecentExports(exports);
    if |sorted| > 10 {
      var rest := sorted[10..];
      assert sorted == r + rest;
      assert multiset(exports) - multiset(r) == multiset(rest);
      SplitNewestFirst(sorted, 10);
    } else {
      assert multiset(exports) - multiset(r) == multiset{};
    }
  }

  /** Every row after a cut of a newest-first list is at most as new as every row before it. */
  lemma SplitNewestFirst(xs: seq<IpExport>, k: nat)
    requires NewestFirst(xs) && k <= |xs|
    ensures NewestFirst(xs[..k])
    ensures forall x, y :: x in multiset(xs[k..]) && y in xs[..k] ==> x.created <= y.created
  {
    forall x, y | x in multiset(xs[k..]) && y in xs[..k] ensures x.created <= y.created {
      var i :| 0 <= i < |xs[k..]| && xs[k..][i] == x;
      var j :| 0 <= j < k && xs[..k][j] == y;
      assert xs[k + i] == x && xs[j] == y;
    }
  }

  /** One entry of `recent_exports`. */
  function ExportEntry(x: IpExport, iso: int -> string): Json {
    JObj(map["ip_address" := JStr(x.ipAddress), "status" := JStr(x.exportStatus), "created" := JStr(iso(x.created)),
             "device_name" := JStr(if x.deviceName.Some? then x.deviceName.value else "Unknown")])
  }

  function ExportEntries(xs: seq<IpExport>, iso: int -> string): (r: seq<Json>)
    ensures |r| == |xs| && forall i :: 0 <= i < |xs| ==> r[i] == ExportEntry(xs[i], iso)
    decreases |xs|
  {
    if xs == [] then [] else ExportEntries(xs[..|xs| - 1], iso) + [ExportEntry(xs[|xs| - 1], iso)]
  }

  function ExportStats(mine: seq<IpExport>): map<string, Json> {
    map["total_exports" := JInt(|mine|), "pending_exports" := JInt(CountStatus(mine, "pending")),
        "completed_exports" := JInt(CountCompleted(mine)), "error_exports" := JInt(CountStatus(mine, "error")),
        "scan_triggered" := JInt(CountStatus(mine, "scan_triggered"))]
  }

  /** `netbox_export_status_view`; `exports` is the export table. */
  function ExportStatusView(t: Tables, pk: nat, exports: seq<IpExport>, iso: int -> string): (r: Reply)
    ensures r.NotFound? <==> ConnectionByPk(t.connections, pk).None?
    ensures r.JsonReply? ==> r.status == 200 && "recent_exports" in r.body && r.body["recent_exports"].JList?
                             && |r.body["recent_exports"].items| <= 10
  {
    match ConnectionByPk(t.connections, pk)
    case None => NotFound
    case Some(c) =>
      var mine := OfExportConnection(exports, pk);
      Ok200(map["connection_id" := JInt(c.pk), "connection_name" := JStr(c.name),
                "export_enabled" := JBool(c.enableNetboxExport),
                "last_export" := (if c.lastExport.Some? then JStr(iso(c.lastExport.value)) else JNull),
                "statistics" := JObj(ExportStats(mine)),
                "recent_exports" := JList(ExportEntries(RecentExports(mine), iso))])
  }

  /** The export statistics: every count is bounded by the total, and the
      completed count is the exported plus the scan-completed count. */
  lemma ExportStatsAddUp(mine: seq<IpExport>)
    ensures var s := ExportStats(mine);
            s["completed_exports"] == JInt(CountStatus(mine, "exported") + CountStatus(mine, "scan_completed"))
            && s["completed_exports"].i <= s["total_exports"].i
            && s["pending_exports"].i + s["completed_exports"].i <= s["total_exports"].i
  {
    CompletedSplits(mine);
    PendingAndCompletedDisjoint(mine);
  }

  lemma {:induction false} PendingAndCompletedDisjoint(exports: seq<IpExport>)
    ensures CountStatus(exports, "pending") + CountCompleted(exports) <= |exports|
    decreases |exports|
  {
    if exports != [] {
      PendingAndCompletedDisjoint(exports[..|exports| - 1]);
      var s := exports[|exports| - 1].exportStatus;
      if s == "pending" {
        assert s != "exported" && s != "scan_completed" by {
          assert s[0] == 'p';
        }
      }
    }
  }

  /** The status view reports the statistics of the connection's own exports
      and at most ten recent ones, in the order `RecentExports` gives. */
  lemma ExportStatusReports(t: Tables, pk: nat, exports: seq<IpExport>, iso: int -> string)
    requires ConnectionByPk(t.connections, pk).Some?
    ensures var reply := ExportStatusView(t, pk, exports, iso);
            var mine := OfExportConnection(exports, pk);
            var recent := RecentExports(mine);
            reply.JsonReply? && reply.status == 200
            && reply.body["statistics"] == JObj(ExportStats(mine))
            && reply.body["recent_exports"].JList?
            && |reply.body["recent_exports"].items| == |recent| <= 10
            && forall i :: 0 <= i < |recent| ==> reply.body["recent_exports"].items[i] == ExportEntry(recent[i], iso)
  {
    var mine := OfExportConnection(exports, pk);
    RecentAreNewest(mine);
    var body := ExportStatusView(t, pk, exports, iso).body;
    assert body["statistics"] == JObj(ExportStats(mine));
    assert body["recent_exports"] == JList(ExportEntries(RecentExports(mine), iso));
  }

  // ------------------------------------------------------------------ connection detail

  /** `connection.devices.filter(sync_status=s).count()`. */
  function CountSynced(devices: seq<WugDevice>, s: DeviceStatus): (n: nat)
    ensures n <= |devices|
    decreases |devices|
  {
    if devices == [] then 0
    else CountSynced(devices[..|devices| - 1], s) + (if devices[|devices| - 1].syncStatus == s then 1 else 0)
  }

  /** `device_stats` of `WUGConnectionDetailView`. */
  function DeviceStats(t: Tables, pk: nat): (r: map<string, Json>)
    ensures r.Keys == {"total", "synced", "pending", "errors"} && forall k :: k in r ==> r[k].JInt?
    ensures r["total"].i == |OfConnection(t.devices, pk)|
    ensures r["synced"].i + r["pending"].i + r["errors"].i <= r["total"].i
  {
    var mine := OfConnection(t.devices, pk);
    StatusCountsPartition(mine);
    map["total" := JInt(|mine|), "synced" := JInt(CountSynced(mine, Synced)),
        "pending" := JInt(CountSynced(mine, Pending)), "errors" := JInt(CountSynced(mine, SyncError))]
  }

  /** `recent_logs` of `WUGConnectionDetailView`: the ten newest. */
  function RecentLogs(t: Tables, pk: nat): (r: seq<SyncLog>)
    ensures |r| <= 10 && forall x :: x in r ==> x in t.logs && x.connection == pk
    ensures r == [] <==> LatestLog(t.logs, pk).None?
    ensures r != [] ==> Some(r[0]) == LatestLog(t.logs, pk)
  {
    LatestHeadsNewestFirst(t.logs, pk);
    var mine := ConnectionLogs(t.logs, pk);
    if |mine| <= 10 then mine else mine[..10]
  }

  /** Every device of the connection is counted once: synced, pending and
      error devices plus the failed ones make up the total. */
  lemma {:induction false} StatusCountsPartition(devices: seq<WugDevice>)
    ensures CountSynced(devices, Synced) + CountSynced(devices, Pending) + CountSynced(devices, SyncError)
            + CountSynced(devices, SyncFailed) == |devices|
    decreases |devices|
  {
    if devices != [] {
      StatusCountsPartition(devices[..|devices| - 1]);
    }
  }

  lemma DeviceStatsAddUp(t: Tables, pk: nat)
    ensures var s := DeviceStats(t, pk);
            var mine := OfConnection(t.devices, pk);
            s["total"].i == s["synced"].i + s["pending"].i + s["errors"].i + CountSynced(mine, SyncFailed)
            && s["synced"].i + s["pending"].i + s["errors"].i <= s["total"].i
  {
    StatusCountsPartition(OfConnection(t.devices, pk));
  }
}
