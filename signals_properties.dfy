/** What the signal handlers promise: one push log per active connection,
    which records a push creates, updates or marks failed, when the conflict
    check runs and what it reports, when a removal deletes a record, and
    that device keys stay valid. The last part plugs in the answers
    `WUGAPIClient` actually gives and shows what the handlers then do. */
module SignalProperties {
  import opened Base
  import opened Text
  import opened Json
  import opened Http
  import opened Errors
  import opened WugPayloads
  import opened WugClient
  import opened Store
  import opened Signals

  // ------------------------------------------------------------------ push logs

  /** The connections of the `netbox_to_wug` logs, in order. */
  function PushConnections(logs: seq<SyncLog>): seq<nat>
    decreases |logs|
  {
    if logs == [] then []
    else PushConnections(logs[..|logs| - 1])
         + (if logs[|logs| - 1].syncType == NetboxToWug then [logs[|logs| - 1].connection] else [])
  }

  lemma {:induction false} PushConnectionsAppend(a: seq<SyncLog>, b: seq<SyncLog>)
    ensures PushConnections(a + b) == PushConnections(a) + PushConnections(b)
    decreases |b|
  {
    if b != [] {
      var b0 := b[..|b| - 1];
      var ab := a + b;
      assert ab[..|ab| - 1] == a + b0;
      assert ab[|ab| - 1] == b[|b| - 1];
      PushConnectionsAppend(a, b0);
      var x := if b[|b| - 1].syncType == NetboxToWug then [b[|b| - 1].connection] else [];
      assert PushConnections(ab) == PushConnections(a + b0) + x;
      assert PushConnections(b) == PushConnections(b0) + x;
    } else {
      assert a + b == a;
    }
  }

  /** The primary keys of some connections. */
  function Pks(cs: seq<Connection>): (r: seq<nat>)
    ensures |r| == |cs| && forall i :: 0 <= i < |cs| ==> r[i] == cs[i].pk
    decreases |cs|
  {
    if cs == [] then [] else Pks(cs[..|cs| - 1]) + [cs[|cs| - 1].pk]
  }

  /** The logs one push appends, and that it changes no connection. */
  lemma SyncSpecShape(t: Tables, netbox: seq<NetboxDevice>, d: NetboxDevice, c: Connection, ip: string,
                      isNew: bool, rp: Replies, now: int) returns (extra: seq<SyncLog>)
    ensures var r := SyncSpec(t, netbox, d, c, ip, isNew, rp, now);
            r.logs == t.logs + extra && r.connections == t.connections
            && (|extra| == 1 || (|extra| == 2 && extra[0].syncType == IpConflictCheck))
            && extra[|extra| - 1].syncType == NetboxToWug && extra[|extra| - 1].connection == c.pk
  {
    if Construction(c).Some? {
      extra := [ErrorLog(c, d, Construction(c).value, now)];
    } else if rp.add.Err? {
      extra := [ErrorLog(c, d, rp.add.error, now)];
    } else if !rp.add.value.JObj? {
      extra := [ErrorLog(c, d, PythonError(NoGet(rp.add.value)), now)];
    } else {
      extra := PushedShape(t, netbox, d, c, ip, isNew, rp.add.value.fields, rp, now);
    }
  }

  /** The dictionary-answer branch of `SyncSpecShape`. */
  lemma PushedShape(t: Tables, netbox: seq<NetboxDevice>, d: NetboxDevice, c: Connection, ip: string,
                    isNew: bool, m: map<string, Json>, rp: Replies, now: int) returns (extra: seq<SyncLog>)
    ensures var r := Pushed(t, netbox, d, c, ip, isNew, m, rp, now);
            r.logs == t.logs + extra && r.connections == t.connections
            && (|extra| == 1 || (|extra| == 2 && extra[0].syncType == IpConflictCheck))
            && extra[|extra| - 1].syncType == NetboxToWug && extra[|extra| - 1].connection == c.pk
  {
    var existing := FirstRecord(t, c.pk, d.id);
    var a := ActionFor(existing, isNew);
    if Succeeded(m) {
      extra := SucceededShape(t, netbox, d, c, ip, isNew, m, rp, now);
    } else {
      var msg := GetOr(m, "message", JStr("Unknown error"));
      assert Pushed(t, netbox, d, c, ip, isNew, m, rp, now) == Logged(MarkedFailed(t, existing, msg), FailedLog(c, d, a, msg, now));
      extra := [FailedLog(c, d, a, msg, now)];
    }
  }

  /** The accepted-push branch of `PushedShape`. */
  lemma SucceededShape(t: Tables, netbox: seq<NetboxDevice>, d: NetboxDevice, c: Connection, ip: string,
                       isNew: bool, m: map<string, Json>, rp: Replies, now: int) returns (extra: seq<SyncLog>)
    requires Succeeded(m)
    ensures var r := Pushed(t, netbox, d, c, ip, isNew, m, rp, now);
            r.logs == t.logs + extra && r.connections == t.connections
            && (|extra| == 1 || (|extra| == 2 && extra[0].syncType == IpConflictCheck))
            && extra[|extra| - 1].syncType == NetboxToWug && extra[|extra| - 1].connection == c.pk
  {
    var existing := FirstRecord(t, c.pk, d.id);
    var a := ActionFor(existing, isNew);
    var t1 := Recorded(t, existing, c, d, ip, StoredId(m), now);
    assert t1.logs == t.logs && t1.connections == t.connections;
    var t2 := if a == Create && ScanStarted(rp.scan) then CheckSpec(t1, netbox, d, c, ip, rp.listing, now) else t1;
    assert Pushed(t, netbox, d, c, ip, isNew, m, rp, now) == Logged(t2, CompletedLog(c, d, a, now));
    var cs := Conflicts(t1, netbox, d, c, ip, rp.listing);
    if a == Create && ScanStarted(rp.scan) && cs != [] {
      assert t2 == Logged(t1, ConflictLog(c, ip, d.name, cs, now));
      extra := [ConflictLog(c, ip, d.name, cs, now), CompletedLog(c, d, a, now)];
    } else {
      assert t2 == t1;
      extra := [CompletedLog(c, d, a, now)];
    }
  }

  /** One push adds one or two logs at the end: its own `netbox_to_wug` log
      last, and at most a conflict warning before it. */
  lemma SyncSpecLogs(t: Tables, netbox: seq<NetboxDevice>, d: NetboxDevice, c: Connection, ip: string,
                     isNew: bool, rp: Replies, now: int)
    ensures var r := SyncSpec(t, netbox, d, c, ip, isNew, rp, now);
            |t.logs| < |r.logs| <= |t.logs| + 2 && r.logs[..|t.logs|] == t.logs
            && r.logs[|r.logs| - 1].syncType == NetboxToWug && r.logs[|r.logs| - 1].connection == c.pk
            && (|r.logs| == |t.logs| + 2 ==> r.logs[|t.logs|].syncType == IpConflictCheck)
            && PushConnections(r.logs) == PushConnections(t.logs) + [c.pk]
            && r.connections == t.connections
  {
    var extra := SyncSpecShape(t, netbox, d, c, ip, isNew, rp, now);
    ExtraLogs(t.logs, extra, c.pk);
  }

  /** One or two logs appended, the last a push log for `pk` and any other
      a conflict warning. */
  lemma ExtraLogs(logs: seq<SyncLog>, extra: seq<SyncLog>, pk: nat)
    requires |extra| == 1 || (|extra| == 2 && extra[0].syncType == IpConflictCheck)
    requires extra[|extra| - 1].syncType == NetboxToWug && extra[|extra| - 1].connection == pk
    ensures var r := logs + extra;
            |logs| < |r| <= |logs| + 2 && r[..|logs|] == logs
            && r[|r| - 1].syncType == NetboxToWug && r[|r| - 1].connection == pk
            && (|r| == |logs| + 2 ==> r[|logs|].syncType == IpConflictCheck)
            && PushConnections(r) == PushConnections(logs) + [pk]
  {
    PushConnectionsAppend(logs, extra);
    ExtraPushes(extra, pk);
    var r := logs + extra;
    assert r[..|logs|] == logs;
    assert r[|r| - 1] == extra[|extra| - 1];
  }

  lemma ExtraPushes(extra: seq<SyncLog>, pk: nat)
    requires |extra| == 1 || (|extra| == 2 && extra[0].syncType == IpConflictCheck)
    requires extra[|extra| - 1].syncType == NetboxToWug && extra[|extra| - 1].connection == pk
    ensures PushConnections(extra) == [pk]
  {
    if |extra| == 2 {
      assert extra[..1] == [extra[0]];
      assert PushConnections([extra[0]]) == [];
    } else {
      assert extra[..0] == [];
    }
  }

  /** Pushing to several connections leaves one `netbox_to_wug` log per
      connection, in their order, and never rewrites an older log. */
  lemma {:induction false} SyncAllLogs(t: Tables, netbox: seq<NetboxDevice>, d: NetboxDevice, cs: seq<Connection>,
                                      ip: string, isNew: bool, server: nat -> Replies, now: int)
    ensures var r := SyncAll(t, netbox, d, cs, ip, isNew, server, now);
            |t.logs| + |cs| <= |r.logs| <= |t.logs| + 2 * |cs| && r.logs[..|t.logs|] == t.logs
            && PushConnections(r.logs) == PushConnections(t.logs) + Pks(cs)
            && r.connections == t.connections
    decreases |cs|
  {
    if cs != [] {
      var init := cs[..|cs| - 1];
      var c := cs[|cs| - 1];
      var t1 := SyncAll(t, netbox, d, init, ip, isNew, server, now);
      SyncAllLogs(t, netbox, d, init, ip, isNew, server, now);
      SyncSpecLogs(t1, netbox, d, c, ip, isNew, server(c.pk), now);
      var r := SyncSpec(t1, netbox, d, c, ip, isNew, server(c.pk), now);
      LogsGrow(t, t1, r, |init|);
      assert Pks(cs) == Pks(init) + [c.pk];
      AppendRegroup(PushConnections(r.logs), PushConnections(t1.logs), PushConnections(t.logs), Pks(init), c.pk, Pks(cs));
    }
  }

  /** The log lengths of `SyncAllLogs` carried across one more push. */
  lemma LogsGrow(t: Tables, t1: Tables, r: Tables, n: nat)
    requires |t.logs| + n <= |t1.logs| <= |t.logs| + 2 * n && t1.logs[..|t.logs|] == t.logs
    requires |t1.logs| < |r.logs| <= |t1.logs| + 2 && r.logs[..|t1.logs|] == t1.logs
    ensures |t.logs| + n + 1 <= |r.logs| <= |t.logs| + 2 * (n + 1) && r.logs[..|t.logs|] == t.logs
  {
    assert r.logs[..|t.logs|] == r.logs[..|t1.logs|][..|t.logs|];
  }

  lemma AppendRegroup(x: seq<nat>, y: seq<nat>, z: seq<nat>, w: seq<nat>, k: nat, v: seq<nat>)
    requires x == y + [k] && y == z + w && v == w + [k]
    ensures x == z + v
  {
  }

  /** `device_saved_handler` does nothing for a device that is not active
      with a primary IPv4 address, or when no connection is active; otherwise
      it leaves exactly one push log for each active connection. */
  lemma SavedHandlerLogs(t: Tables, netbox: seq<NetboxDevice>, d: NetboxDevice, created: bool,
                         server: nat -> Replies, now: int)
    ensures var r := SavedHandlerSpec(t, netbox, d, created, server, now);
            (!Eligible(d) || ActiveConnections(t.connections) == [] ==> r == t)
            && |t.logs| <= |r.logs| && r.logs[..|t.logs|] == t.logs
            && (Eligible(d) ==> PushConnections(r.logs) == PushConnections(t.logs) + Pks(ActiveConnections(t.connections)))
  {
    if Eligible(d) && ActiveConnections(t.connections) != [] {
      SyncAllLogs(t, netbox, d, ActiveConnections(t.connections), PrimaryIp(d), created, server, now);
    }
  }

  // ------------------------------------------------------------------ push records

  /** The first match is the one before which nothing matches. */
  lemma FirstForIs(devices: seq<WugDevice>, connection: nat, netboxId: int, p: nat)
    requires p < |devices| && Matches(devices[p], connection, netboxId)
    requires forall i :: 0 <= i < p ==> !Matches(devices[i], connection, netboxId)
    ensures FirstFor(devices, connection, netboxId) == Some(p)
  {
  }

  /** Saving a new version of the first record for a device keeps it first. */
  lemma FirstForSaved(devices: seq<WugDevice>, connection: nat, netboxId: int, p: nat, rec: WugDevice)
    requires forall i, j :: 0 <= i < j < |devices| ==> devices[i].pk != devices[j].pk
    requires FirstFor(devices, connection, netboxId) == Some(p)
    requires rec.pk == devices[p].pk && Matches(rec, connection, netboxId)
    ensures FirstFor(Saved(devices, rec), connection, netboxId) == Some(p)
  {
    var r := Saved(devices, rec);
    assert r[p] == rec;
    forall i | 0 <= i < p ensures !Matches(r[i], connection, netboxId) {
      assert devices[i].pk != devices[p].pk;
      assert r[i] == devices[i];
    }
    FirstForIs(r, connection, netboxId, p);
  }

  /** A record appended for a device that had none is its first. */
  lemma FirstForAppended(devices: seq<WugDevice>, connection: nat, netboxId: int, rec: WugDevice)
    requires FirstFor(devices, connection, netboxId).None?
    requires Matches(rec, connection, netboxId)
    ensures FirstFor(devices + [rec], connection, netboxId) == Some(|devices|)
  {
    var r := devices + [rec];
    assert r[|devices|] == rec;
    forall i | 0 <= i < |devices| ensures !Matches(r[i], connection, netboxId) {
      assert r[i] == devices[i];
    }
  }

  /** The record `sync_device_to_wug` leaves for the device after a
      successful push: the known one with the new id, time and `success`,
      or a new one. */
  function PushedRecord(t: Tables, c: Connection, d: NetboxDevice, ip: string, id: Json, now: int): WugDevice {
    match FirstRecord(t, c.pk, d.id)
    case Some(e) => e.(wugDeviceId := id, lastSync := Some(now), syncStatus := Synced)
    case None => NewDevice(t.nextPk, c.pk, id, d.id, d.name, ip, Synced)
  }

  /** The record update of a successful push keeps keys valid and leaves
      `PushedRecord` as the device's first record for the connection. */
  lemma RecordedFirst(t: Tables, c: Connection, d: NetboxDevice, ip: string, id: Json, now: int)
    requires KeysValid(t)
    ensures var e := FirstRecord(t, c.pk, d.id);
            var t1 := Recorded(t, e, c, d, ip, id, now);
            var rec := PushedRecord(t, c, d, ip, id, now);
            KeysValid(t1) && t1.connections == t.connections && t1.logs == t.logs
            && FirstRecord(t1, c.pk, d.id) == Some(rec)
            && (e.Some? ==> |t1.devices| == |t.devices| && t1.nextPk == t.nextPk
                            && forall i :: 0 <= i < |t.devices| && t.devices[i].pk != e.value.pk ==> t1.devices[i] == t.devices[i])
            && (e.None? ==> t1.devices == t.devices + [rec] && t1.nextPk == t.nextPk + 1)
  {
    var rec := PushedRecord(t, c, d, ip, id, now);
    match FirstFor(t.devices, c.pk, d.id)
    case Some(p) =>
      FirstForSaved(t.devices, c.pk, d.id, p, rec);
      SavedKeepsKeys(t, rec);
    case None =>
      FirstForAppended(t.devices, c.pk, d.id, rec);
      CreateKeepsKeys(t, rec);
  }

  /** A successful push: the connection's record of the device becomes
      `PushedRecord`, found first again afterwards; a known record is
      updated in place and no other row changes; an unknown device gets one
      new row. */
  lemma SuccessfulPush(t: Tables, netbox: seq<NetboxDevice>, d: NetboxDevice, c: Connection, ip: string,
                       isNew: bool, m: map<string, Json>, rp: Replies, now: int)
    requires KeysValid(t)
    requires Construction(c).None? && rp.add == Ok(JObj(m)) && Succeeded(m)
    ensures var r := SyncSpec(t, netbox, d, c, ip, isNew, rp, now);
            var e := FirstRecord(t, c.pk, d.id);
            var rec := PushedRecord(t, c, d, ip, StoredId(m), now);
            var a := ActionFor(e, isNew);
            KeysValid(r) && r.connections == t.connections
            && FirstRecord(r, c.pk, d.id) == Some(rec)
            && (e.Some? ==> |r.devices| == |t.devices| && r.nextPk == t.nextPk
                            && forall i :: 0 <= i < |t.devices| && t.devices[i].pk != e.value.pk ==> r.devices[i] == t.devices[i])
            && (e.None? ==> r.devices == t.devices + [rec] && r.nextPk == t.nextPk + 1)
  {
    var e := FirstRecord(t, c.pk, d.id);
    var a := ActionFor(e, isNew);
    var t1 := Recorded(t, e, c, d, ip, StoredId(m), now);
    RecordedFirst(t, c, d, ip, StoredId(m), now);
    var t2 := if a == Create && ScanStarted(rp.scan) then CheckSpec(t1, netbox, d, c, ip, rp.listing, now) else t1;
    assert SyncSpec(t, netbox, d, c, ip, isNew, rp, now) == Logged(t2, CompletedLog(c, d, a, now));
    assert t2.(logs := t1.logs) == t1;
  }

  /** The logs of a successful push: the push log counts the device as
      created or updated, as the action says, and a conflict warning comes
      before it exactly for a created device whose scan started and for
      which some conflict is found. */
  lemma SuccessfulPushLogs(t: Tables, netbox: seq<NetboxDevice>, d: NetboxDevice, c: Connection, ip: string,
                           isNew: bool, m: map<string, Json>, rp: Replies, now: int)
    requires KeysValid(t)
    requires Construction(c).None? && rp.add == Ok(JObj(m)) && Succeeded(m)
    ensures var r := SyncSpec(t, netbox, d, c, ip, isNew, rp, now);
            var e := FirstRecord(t, c.pk, d.id);
            var rec := PushedRecord(t, c, d, ip, StoredId(m), now);
            var a := ActionFor(e, isNew);
            r.logs[|r.logs| - 1] == CompletedLog(c, d, a, now)
            && (|r.logs| == |t.logs| + 2 <==>
                a == Create && ScanStarted(rp.scan)
                && NetboxConflicts(netbox, ip, d.id) + WugConflicts(WugEntries(rp.listing), ip, Some(rec)) != [])
  {
    var e := FirstRecord(t, c.pk, d.id);
    var a := ActionFor(e, isNew);
    var t1 := Recorded(t, e, c, d, ip, StoredId(m), now);
    RecordedFirst(t, c, d, ip, StoredId(m), now);
    var t2 := if a == Create && ScanStarted(rp.scan) then CheckSpec(t1, netbox, d, c, ip, rp.listing, now) else t1;
    assert SyncSpec(t, netbox, d, c, ip, isNew, rp, now) == Logged(t2, CompletedLog(c, d, a, now));
  }

  /** A push the server refuses: a known record is marked failed with the
      server's message and nothing else changes; no record is created. */
  lemma RefusedPush(t: Tables, netbox: seq<NetboxDevice>, d: NetboxDevice, c: Connection, ip: string,
                    isNew: bool, m: map<string, Json>, rp: Replies, now: int)
    requires KeysValid(t)
    requires Construction(c).None? && rp.add == Ok(JObj(m)) && !Succeeded(m)
    ensures var r := SyncSpec(t, netbox, d, c, ip, isNew, rp, now);
            var e := FirstRecord(t, c.pk, d.id);
            var msg := GetOr(m, "message", JStr("Unknown error"));
            KeysValid(r) && r.connections == t.connections
            && |r.devices| == |t.devices| && r.nextPk == t.nextPk
            && (e.None? ==> r.devices == t.devices)
            && (e.Some? ==> FirstRecord(r, c.pk, d.id) == Some(e.value.(syncStatus := SyncFailed, errorMessage := PyStr(msg)))
                            && forall i :: 0 <= i < |t.devices| && t.devices[i].pk != e.value.pk ==> r.devices[i] == t.devices[i])
            && r.logs == t.logs + [FailedLog(c, d, ActionFor(e, isNew), msg, now)]
  {
    var e := FirstRecord(t, c.pk, d.id);
    var msg := GetOr(m, "message", JStr("Unknown error"));
    MarkedFailedFirst(t, c, d, msg);
    assert SyncSpec(t, netbox, d, c, ip, isNew, rp, now)
        == Logged(MarkedFailed(t, e, msg), FailedLog(c, d, ActionFor(e, isNew), msg, now));
  }

  /** The device table after a refused push, as `RefusedPush` states it. */
  lemma MarkedFailedFirst(t: Tables, c: Connection, d: NetboxDevice, msg: Json)
    requires KeysValid(t)
    ensures var e := FirstRecord(t, c.pk, d.id);
            var t1 := MarkedFailed(t, e, msg);
            KeysValid(t1) && t1.connections == t.connections && t1.logs == t.logs
            && |t1.devices| == |t.devices| && t1.nextPk == t.nextPk
            && (e.None? ==> t1.devices == t.devices)
            && (e.Some? ==> FirstRecord(t1, c.pk, d.id) == Some(e.value.(syncStatus := SyncFailed, errorMessage := PyStr(msg)))
                            && forall i :: 0 <= i < |t.devices| && t.devices[i].pk != e.value.pk ==> t1.devices[i] == t.devices[i])
  {
    var e := FirstRecord(t, c.pk, d.id);
    if e.Some? {
      var p := FirstFor(t.devices, c.pk, d.id).value;
      FirstForSaved(t.devices, c.pk, d.id, p, e.value.(syncStatus := SyncFailed, errorMessage := PyStr(msg)));
      SavedKeepsKeys(t, e.value.(syncStatus := SyncFailed, errorMessage := PyStr(msg)));
    }
  }

  /** A client that cannot be built, an exception from `add_device_by_ip`
      or an answer that is not a dictionary leaves every record as it was
      and logs one error. */
  lemma FailedPush(t: Tables, netbox: seq<NetboxDevice>, d: NetboxDevice, c: Connection, ip: string,
                   isNew: bool, rp: Replies, now: int)
    requires Construction(c).Some? || rp.add.Err? || !rp.add.value.JObj?
    ensures var r := SyncSpec(t, netbox, d, c, ip, isNew, rp, now);
            r.(logs := t.logs) == t && |r.logs| == |t.logs| + 1
            && r.logs[|t.logs|].status == Errored && r.logs[|t.logs|].errors == 1
            && r.logs[|t.logs|].created == 0 && r.logs[|t.logs|].updated == 0
  {
  }

  /** Pushing keeps device keys valid. */
  lemma SyncSpecKeepsKeys(t: Tables, netbox: seq<NetboxDevice>, d: NetboxDevice, c: Connection, ip: string,
                          isNew: bool, rp: Replies, now: int)
    requires KeysValid(t)
    ensures KeysValid(SyncSpec(t, netbox, d, c, ip, isNew, rp, now))
  {
    if Construction(c).None? && rp.add.Ok? && rp.add.value.JObj? {
      if Succeeded(rp.add.value.fields) {
        SuccessfulPush(t, netbox, d, c, ip, isNew, rp.add.value.fields, rp, now);
      } else {
        RefusedPush(t, netbox, d, c, ip, isNew, rp.add.value.fields, rp, now);
      }
    }
  }

  lemma {:induction false} SyncAllKeepsKeys(t: Tables, netbox: seq<NetboxDevice>, d: NetboxDevice, cs: seq<Connection>,
                                           ip: string, isNew: bool, server: nat -> Replies, now: int)
    requires KeysValid(t)
    ensures KeysValid(SyncAll(t, netbox, d, cs, ip, isNew, server, now))
    decreases |cs|
  {
    if cs != [] {
      var init := cs[..|cs| - 1];
      SyncAllKeepsKeys(t, netbox, d, init, ip, isNew, server, now);
      SyncSpecKeepsKeys(SyncAll(t, netbox, d, init, ip, isNew, server, now), netbox, d, cs[|cs| - 1], ip, isNew,
                        server(cs[|cs| - 1].pk), now);
    }
  }

  /** `device_saved_handler` keeps device keys valid. */
  lemma SavedHandlerKeepsKeys(t: Tables, netbox: seq<NetboxDevice>, d: NetboxDevice, created: bool,
                              server: nat -> Replies, now: int)
    requires KeysValid(t)
    ensures KeysValid(SavedHandlerSpec(t, netbox, d, created, server, now))
  {
    if Eligible(d) && ActiveConnections(t.connections) != [] {
      SyncAllKeepsKeys(t, netbox, d, ActiveConnections(t.connections), PrimaryIp(d), created, server, now);
    }
  }

  // ------------------------------------------------------------------ conflicts

  /** `x` is the conflict entry of some NetBox device that matches. */
  ghost predicate NetboxSource(devices: seq<NetboxDevice>, ip: string, selfId: int, x: Conflict) {
    exists k :: 0 <= k < |devices| && NetboxMatch(devices[k], ip, selfId) && x == NetboxConflict(devices[k])
  }

  /** `x` is the conflict entry of some WhatsUp Gold device that matches. */
  ghost predicate WugSource(entries: seq<map<string, Json>>, ip: string, ours: Option<WugDevice>, x: Conflict) {
    exists k :: 0 <= k < |entries| && WugMatch(entries[k], ip, ours) && x == WugConflict(entries[k])
  }

  /** The NetBox side reports exactly the other devices whose address text
      starts with the IP, never the device itself. */
  lemma {:induction false} NetboxConflictsExact(devices: seq<NetboxDevice>, ip: string, selfId: int)
    ensures var r := NetboxConflicts(devices, ip, selfId);
            (forall k :: 0 <= k < |devices| && NetboxMatch(devices[k], ip, selfId) ==> NetboxConflict(devices[k]) in r)
            && (forall x :: x in r ==> NetboxSource(devices, ip, selfId, x))
            && (forall x :: x in r ==> x.side == NetboxSide && x.id != JInt(selfId))
    decreases |devices|
  {
    if devices != [] {
      var init := devices[..|devices| - 1];
      NetboxConflictsExact(init, ip, selfId);
      var r := NetboxConflicts(devices, ip, selfId);
      var last := |devices| - 1;
      forall k | 0 <= k < |devices| && NetboxMatch(devices[k], ip, selfId)
        ensures NetboxConflict(devices[k]) in r
      {
        if k < last {
          assert devices[k] == init[k];
        }
      }
      forall x | x in r
        ensures NetboxSource(devices, ip, selfId, x)
      {
        if x in NetboxConflicts(init, ip, selfId) {
          assert NetboxSource(init, ip, selfId, x);
          var k :| 0 <= k < |init| && NetboxMatch(init[k], ip, selfId) && x == NetboxConflict(init[k]);
          assert devices[k] == init[k];
        } else {
          assert NetboxMatch(devices[last], ip, selfId) && x == NetboxConflict(devices[last]);
        }
      }
    }
  }

  /** The WhatsUp Gold side reports exactly the entries with the IP that are
      not the connection's own record of the device. */
  lemma {:induction false} WugConflictsExact(entries: seq<map<string, Json>>, ip: string, ours: Option<WugDevice>)
    ensures var r := WugConflicts(entries, ip, ours);
            (forall k :: 0 <= k < |entries| && WugMatch(entries[k], ip, ours) ==> WugConflict(entries[k]) in r)
            && (forall x :: x in r ==> WugSource(entries, ip, ours, x))
            && (forall x :: x in r ==> x.side == WugSide && x.ip == JStr(ip))
    decreases |entries|
  {
    if entries != [] {
      var init := entries[..|entries| - 1];
      WugConflictsExact(init, ip, ours);
      var r := WugConflicts(entries, ip, ours);
      var last := |entries| - 1;
      var tail := if WugMatch(entries[last], ip, ours) then [WugConflict(entries[last])] else [];
      assert r == WugConflicts(init, ip, ours) + tail;
      forall k | 0 <= k < |entries| && WugMatch(entries[k], ip, ours)
        ensures WugConflict(entries[k]) in r
      {
        if k < last {
          assert entries[k] == init[k];
        }
      }
      forall x | x in r
        ensures WugSource(entries, ip, ours, x)
      {
        if x in WugConflicts(init, ip, ours) {
          assert WugSource(init, ip, ours, x);
          var k :| 0 <= k < |init| && WugMatch(init[k], ip, ours) && x == WugConflict(init[k]);
          assert entries[k] == init[k];
        } else {
          assert x in tail;
        }
      }
    }
  }

  /** The conflict check changes only the logs: one warning exactly when
      some conflict is found, counting the conflicts plus the device
      itself. */
  lemma ConflictCheck(t: Tables, netbox: seq<NetboxDevice>, d: NetboxDevice, c: Connection, ip: string,
                      listing: Result<Json, Exc>, now: int)
    ensures var r := CheckSpec(t, netbox, d, c, ip, listing, now);
            var cs := Conflicts(t, netbox, d, c, ip, listing);
            r.(logs := t.logs) == t
            && (cs == [] <==> r.logs == t.logs)
            && (cs != [] ==> |r.logs| == |t.logs| + 1 && r.logs[..|t.logs|] == t.logs
                             && r.logs[|t.logs|].syncType == IpConflictCheck && r.logs[|t.logs|].status == Warning
                             && r.logs[|t.logs|].discovered == |cs| + 1)
  {
    var cs := Conflicts(t, netbox, d, c, ip, listing);
    if cs != [] {
      assert |t.logs + [ConflictLog(c, ip, d.name, cs, now)]| != |t.logs|;
    }
  }

  /** The NetBox conflicts are listed before the WhatsUp Gold ones. */
  lemma ConflictSides(t: Tables, netbox: seq<NetboxDevice>, d: NetboxDevice, c: Connection, ip: string,
                      listing: Result<Json, Exc>)
    ensures var cs := Conflicts(t, netbox, d, c, ip, listing);
            var n := |NetboxConflicts(netbox, ip, d.id)|;
            n <= |cs| && (forall i :: 0 <= i < n ==> cs[i].side == NetboxSide)
            && (forall i :: n <= i < |cs| ==> cs[i].side == WugSide)
  {
    var nb := NetboxConflicts(netbox, ip, d.id);
    var wg := WugConflicts(WugEntries(listing), ip, FirstRecord(t, c.pk, d.id));
    NetboxSides(netbox, ip, d.id);
    WugSides(WugEntries(listing), ip, FirstRecord(t, c.pk, d.id));
    var cs := nb + wg;
    assert forall i :: |nb| <= i < |cs| ==> cs[i] == wg[i - |nb|];
  }

  lemma {:induction false} NetboxSides(devices: seq<NetboxDevice>, ip: string, selfId: int)
    ensures forall i :: 0 <= i < |NetboxConflicts(devices, ip, selfId)| ==> NetboxConflicts(devices, ip, selfId)[i].side == NetboxSide
    decreases |devices|
  {
    if devices != [] {
      NetboxSides(devices[..|devices| - 1], ip, selfId);
    }
  }

  lemma {:induction false} WugSides(entries: seq<map<string, Json>>, ip: string, ours: Option<WugDevice>)
    ensures forall i :: 0 <= i < |WugConflicts(entries, ip, ours)| ==> WugConflicts(entries, ip, ours)[i].side == WugSide
    decreases |entries|
  {
    if entries != [] {
      WugSides(entries[..|entries| - 1], ip, ours);
    }
  }

  /** The NetBox query matches on the start of the address text, so an IP
      also conflicts with a longer address that begins with it. */
  lemma PrefixConflict()
    ensures NetboxMatch(NetboxDevice(2, "edge", Some("10.0.0.50/24"), StatusActive, None, None, "", None, None),
                        "10.0.0.5", 1)
  {
    var s := "10.0.0.50/24";
    assert s[..8] == "10.0.0.5";
  }

  // ------------------------------------------------------------------ removal

  predicate DistinctKeys(devices: seq<WugDevice>) {
    forall i, j :: 0 <= i < j < |devices| ==> devices[i].pk != devices[j].pk
  }

  lemma {:induction false} DeletedKeepsDistinct(devices: seq<WugDevice>, pk: nat)
    requires DistinctKeys(devices)
    ensures DistinctKeys(Deleted(devices, pk))
  {
    if devices != [] {
      var tail := devices[1..];
      DeletedKeepsDistinct(tail, pk);
      var rest := Deleted(tail, pk);
      var r := Deleted(devices, pk);
      if devices[0].pk != pk {
        assert r == [devices[0]] + rest;
        forall j | 0 < j < |r| ensures r[0].pk != r[j].pk {
          assert r[j] == rest[j - 1] && rest[j - 1] in rest;
          var k :| 0 <= k < |tail| && tail[k] == rest[j - 1];
          assert tail[k] == devices[k + 1];
        }
      } else {
        assert r == rest;
      }
    }
  }

  /** `remove_device_from_wug` deletes the record, with a completed log,
      exactly when its connection exists, the client is built and
      `delete_device` answers a dictionary with a true `success`; every
      other outcome leaves the tables as they were. */
  lemma RemoveOutcome(t: Tables, rec: WugDevice, rm: Removal, now: int)
    requires KeysValid(t) && rec in t.devices
    ensures var r := RemoveSpec(t, rec, rm, now);
            var conn := ConnectionByPk(t.connections, rec.connection);
            var gone := conn.Some? && Construction(conn.value).None?
                        && rm.delete.Ok? && rm.delete.value.JObj? && Succeeded(rm.delete.value.fields);
            KeysValid(r)
            && (gone ==> |r.devices| == |t.devices| - 1 && rec !in r.devices
                         && (forall x :: x in t.devices && x.pk != rec.pk ==> x in r.devices)
                         && r.logs == t.logs + [RemovedLog(rec, now)])
            && (!gone ==> r == t)
  {
    var k :| 0 <= k < |t.devices| && t.devices[k] == rec;
    DeletedOne(t.devices, k);
    DeletedKeepsDistinct(t.devices, rec.pk);
  }

  /** Removing a record keeps device keys valid, whether or not the record is stored. */
  lemma RemoveKeepsKeys(t: Tables, rec: WugDevice, rm: Removal, now: int)
    requires KeysValid(t)
    ensures KeysValid(RemoveSpec(t, rec, rm, now))
  {
    DeletedKeepsDistinct(t.devices, rec.pk);
  }

  lemma {:induction false} RemoveAllKeepsKeys(t: Tables, recs: seq<WugDevice>, server: nat -> Removal, now: int)
    requires KeysValid(t)
    ensures KeysValid(RemoveAll(t, recs, server, now))
    decreases |recs|
  {
    if recs != [] {
      var init := recs[..|recs| - 1];
      RemoveAllKeepsKeys(t, init, server, now);
      RemoveKeepsKeys(RemoveAll(t, init, server, now), recs[|recs| - 1], server(recs[|recs| - 1].pk), now);
    }
  }

  /** `device_deleted_handler` keeps device keys valid and only appends logs. */
  lemma {:induction false} RemoveAllAppendsLogs(t: Tables, recs: seq<WugDevice>, server: nat -> Removal, now: int)
    ensures var r := RemoveAll(t, recs, server, now);
            |t.logs| <= |r.logs| <= |t.logs| + |recs| && r.logs[..|t.logs|] == t.logs
            && r.connections == t.connections
    decreases |recs|
  {
    if recs != [] {
      var init := recs[..|recs| - 1];
      RemoveAllAppendsLogs(t, init, server, now);
      var t1 := RemoveAll(t, init, server, now);
      var r := RemoveSpec(t1, recs[|recs| - 1], server(recs[|recs| - 1].pk), now);
      assert r.logs[..|t.logs|] == r.logs[..|t1.logs|][..|t.logs|];
    }
  }

  lemma DeletedHandlerKeepsKeys(t: Tables, d: NetboxDevice, server: nat -> Removal, now: int)
    requires KeysValid(t)
    ensures KeysValid(DeletedHandlerSpec(t, d, server, now))
    ensures |t.logs| <= |DeletedHandlerSpec(t, d, server, now).logs|
            && DeletedHandlerSpec(t, d, server, now).logs[..|t.logs|] == t.logs
  {
    RemoveAllKeepsKeys(t, WithNetboxId(t.devices, d.id), server, now);
    RemoveAllAppendsLogs(t, WithNetboxId(t.devices, d.id), server, now);
  }

  // ------------------------------------------------------------------ with the real client

  /** `add_device_by_ip` answers under `device_id`, never under `deviceId`
      or `id`, so the id the handler stores is always `None`. */
  lemma RealAddStoresNoId(ip: string, resp: Result<Json, Exc>)
    requires AddOutcome(ip, resp).Ok?
    ensures Succeeded(AddOutcome(ip, resp).value.fields)
    ensures StoredId(AddOutcome(ip, resp).value.fields) == JNull
  {
    var m := AddOutcome(ip, resp).value.fields;
    assert "deviceId" !in m && "id" !in m;
  }

  /** With the real `add_device_by_ip` and a dictionary answer from the
      server, the push always succeeds and the connection's record of the
      device then holds `None` as its WhatsUp Gold id. */
  lemma RealPushStoresNoId(t: Tables, netbox: seq<NetboxDevice>, d: NetboxDevice, c: Connection, ip: string,
                           isNew: bool, resp: Json, scan: Result<Json, Exc>, listing: Result<Json, Exc>, now: int)
    requires KeysValid(t) && resp.JObj? && Construction(c).None?
    ensures var r := SyncSpec(t, netbox, d, c, ip, isNew, Replies(AddOutcome(ip, Ok(resp)), scan, listing), now);
            FirstRecord(r, c.pk, d.id).Some? && FirstRecord(r, c.pk, d.id).value.wugDeviceId == JNull
            && FirstRecord(r, c.pk, d.id).value.syncStatus == Synced
  {
    var rp := Replies(AddOutcome(ip, Ok(resp)), scan, listing);
    RealAddStoresNoId(ip, Ok(resp));
    SuccessfulPush(t, netbox, d, c, ip, isNew, rp.add.value.fields, rp, now);
  }

  /** The body the handler's `add_device_by_ip(ip, device_data)` sends:
      the device data has no `device_name` or `group`, so WhatsUp Gold always
      gets the name `NetBox-<ip>` and the group `NetBox Imports`; the NetBox
      name travels only as `displayName`. */
  lemma PushPayload(d: NetboxDevice, ip: string)
    ensures var body := AddByIpPayload(ip, DeviceData(d, ip));
            body["device_name"] == JStr("NetBox-" + ip) && body["group"] == JStr("NetBox Imports")
            && body["displayName"] == JStr(d.name) && body["ipAddress"] == JStr(ip) && body["ip_address"] == JStr(ip)
  {
    var data := DeviceData(d, ip);
    assert "device_name" !in data && "group" !in data && "ip_address" !in data;
    assert "displayName" in data && "ipAddress" in data;
  }

  /** The real `delete_device` answers a bare `True`, on which `.get`
      raises, so no removal ever deletes a record or logs anything. */
  lemma RealDeleteRemovesNothing(t: Tables, rec: WugDevice, id: Json, resp: Result<Json, Exc>, now: int)
    ensures RemoveSpec(t, rec, Removal(DeleteOutcome(id, resp)), now) == t
  {
  }

  /** Hence `device_deleted_handler` leaves the tables unchanged whenever
      every successful `delete_device` answers `True`. */
  lemma {:induction false} RemoveAllWithBareTrue(t: Tables, recs: seq<WugDevice>, server: nat -> Removal, now: int)
    requires forall pk :: server(pk).delete.Ok? ==> server(pk).delete.value == JBool(true)
    ensures RemoveAll(t, recs, server, now) == t
    decreases |recs|
  {
    if recs != [] {
      RemoveAllWithBareTrue(t, recs[..|recs| - 1], server, now);
    }
  }

  lemma DeletedHandlerWithRealClient(t: Tables, d: NetboxDevice, server: nat -> Removal, now: int)
    requires forall pk :: server(pk).delete.Ok? ==> server(pk).delete.value == JBool(true)
    ensures DeletedHandlerSpec(t, d, server, now) == t
  {
    RemoveAllWithBareTrue(t, WithNetboxId(t.devices, d.id), server, now);
  }

  /** `get_devices()` with its default `include_details=True` answers a
      list, on which `.get` raises, so the WhatsUp Gold side of the
      conflict check never finds anything. */
  lemma RealListingFindsNothing(cfg: Config, st: State, now: int)
    ensures WugEntries(GetDevicesSpec(cfg, st, true, now).0) == []
  {
  }
}
