/** The pure side of the WhatsUp Gold client: the request bodies its
    operations send, the dictionaries they return once the server has
    answered, and the two data-transformation helpers that map device
    records between WhatsUp Gold and NetBox. */
module WugPayloads {
  import opened Base
  import opened Text
  import opened Json
  import opened Http
  import opened Errors

  // ------------------------------------------------------------------ key copying

  /** Whether `src[key]` is copied: when the key is present, or (for the
      `if d.get(k):` pattern) when its value is truthy. */
  predicate Wanted(src: map<string, Json>, key: string, truthyOnly: bool) {
    key in src && (!truthyOnly || Truthy(src[key]))
  }

  /** The dictionary built by `for s, d in pairs: if wanted(s): out[d] = src[s]`. */
  function Transfer(src: map<string, Json>, pairs: seq<(string, string)>, truthyOnly: bool): map<string, Json>
    decreases |pairs|
  {
    if pairs == [] then map[]
    else
      var acc := Transfer(src, pairs[..|pairs| - 1], truthyOnly);
      var (s, d) := pairs[|pairs| - 1];
      if Wanted(src, s, truthyOnly) then acc[d := src[s]] else acc
  }

  predicate DistinctTargets(pairs: seq<(string, string)>) {
    forall i, j :: 0 <= i < j < |pairs| ==> pairs[i].1 != pairs[j].1
  }

  /** With distinct target keys, a target key is present exactly when its
      source key is wanted, and then it holds the source's value. */
  lemma {:induction false} TransferSpec(src: map<string, Json>, pairs: seq<(string, string)>, truthyOnly: bool)
    requires DistinctTargets(pairs)
    ensures forall k :: k in Transfer(src, pairs, truthyOnly) <==>
              exists i :: 0 <= i < |pairs| && pairs[i].1 == k && Wanted(src, pairs[i].0, truthyOnly)
    ensures forall i :: 0 <= i < |pairs| && Wanted(src, pairs[i].0, truthyOnly) ==>
              Transfer(src, pairs, truthyOnly)[pairs[i].1] == src[pairs[i].0]
    decreases |pairs|
  {
    if pairs != [] {
      var init := pairs[..|pairs| - 1];
      assert DistinctTargets(init) by {
        forall i, j | 0 <= i < j < |init| ensures init[i].1 != init[j].1 {
          assert init[i] == pairs[i] && init[j] == pairs[j];
        }
      }
      TransferSpec(src, init, truthyOnly);
      var n := |pairs| - 1;
      forall k ensures k in Transfer(src, pairs, truthyOnly) <==>
          exists i :: 0 <= i < |pairs| && pairs[i].1 == k && Wanted(src, pairs[i].0, truthyOnly)
      {
        if exists i :: 0 <= i < |pairs| && pairs[i].1 == k && Wanted(src, pairs[i].0, truthyOnly) {
          var i :| 0 <= i < |pairs| && pairs[i].1 == k && Wanted(src, pairs[i].0, truthyOnly);
          if i < n {
            assert init[i] == pairs[i];
          }
        }
      }
      forall i | 0 <= i < |pairs| && Wanted(src, pairs[i].0, truthyOnly)
        ensures Transfer(src, pairs, truthyOnly)[pairs[i].1] == src[pairs[i].0]
      {
        if i < n {
          assert init[i] == pairs[i];
          assert pairs[i].1 != pairs[n].1;
        }
      }
    }
  }

  /** An exception escaping one of the client's operations: the client's own
      exceptions pass through, anything else is wrapped with `prefix`. */
  function Rewrap(prefix: string, e: Exc): (r: Exc)
    ensures r.IsApiError()
    ensures e.IsApiError() ==> r == e
  {
    if e.IsApiError() then e else ApiException(prefix + e.msg)
  }

  // ------------------------------------------------------------------ request bodies

  /** The body of `POST /scan/ip`. */
  function ScanIpPayload(ip: string, options: map<string, Json>): (r: map<string, Json>)
    ensures r.Keys == {"ip_address", "scan_type"} + options.Keys
    ensures forall k :: k in options ==> r[k] == options[k]
    ensures "ip_address" !in options ==> r["ip_address"] == JStr(ip)
  {
    map["ip_address" := JStr(ip), "scan_type" := JStr("discovery")] + options
  }

  /** The body of `POST /devices/add-by-ip`: the caller's configuration over
      the IP and discovery method, then a default name and group where the
      configuration gives none. */
  function AddByIpPayload(ip: string, config: map<string, Json>): (r: map<string, Json>)
    ensures r.Keys == {"ip_address", "discovery_method", "device_name", "group"} + config.Keys
    ensures forall k :: k in config ==> r[k] == config[k]
    ensures "device_name" !in config ==> r["device_name"] == JStr("NetBox-" + ip)
    ensures "group" !in config ==> r["group"] == JStr("NetBox Imports")
    ensures "ip_address" !in config ==> r["ip_address"] == JStr(ip)
  {
    var data := map["ip_address" := JStr(ip), "discovery_method" := JStr("ip")] + config;
    var named := if "device_name" in data then data else data["device_name" := JStr("NetBox-" + ip)];
    if "group" in named then named else named["group" := JStr("NetBox Imports")]
  }

  /** The body of `POST /devices/bulk-add`. */
  function BulkPayload(ips: seq<string>, config: map<string, Json>): (r: map<string, Json>)
    ensures r.Keys == {"ip_addresses", "operation", "source", "group", "scan_after_add"} + config.Keys
    ensures forall k :: k in config ==> r[k] == config[k]
    ensures "group" !in config ==> r["group"] == JStr("NetBox Bulk Import")
    ensures "scan_after_add" !in config ==> r["scan_after_add"] == JBool(true)
  {
    var data := map["ip_addresses" := JList(seq(|ips|, i requires 0 <= i < |ips| => JStr(ips[i]))),
                     "operation" := JStr("bulk_add"), "source" := JStr("NetBox")] + config;
    var grouped := if "group" in data then data else data["group" := JStr("NetBox Bulk Import")];
    if "scan_after_add" in grouped then grouped else grouped["scan_after_add" := JBool(true)]
  }

  /** NetBox metadata keys and the WhatsUp Gold custom fields they fill. */
  const MetadataFields: seq<(string, string)> := [
    ("netbox_name", "netbox_device_name"),
    ("netbox_site", "netbox_site"),
    ("netbox_role", "netbox_device_role"),
    ("netbox_type", "netbox_device_type"),
    ("netbox_platform", "netbox_platform"),
    ("netbox_serial", "netbox_serial"),
    ("netbox_asset_tag", "netbox_asset_tag")
  ]

  /** The body of `PUT /devices/{id}/metadata`. */
  function MetadataPayload(metadata: map<string, Json>): (r: map<string, Json>)
    ensures r.Keys == {"metadata_source", "custom_fields"}
                      + (if Truthy(Get(metadata, "netbox_description")) then {"description"} else {})
    ensures r["metadata_source"] == JStr("NetBox") && r["custom_fields"].JObj?
  {
    var base := map["metadata_source" := JStr("NetBox"),
                    "custom_fields" := JObj(Transfer(metadata, MetadataFields, true))];
    if Truthy(Get(metadata, "netbox_description"))
    then base["description" := JStr("NetBox: " + PyStr(metadata["netbox_description"]))]
    else base
  }

  /** Each truthy metadata value, and only those, reaches its custom field;
      a description is sent exactly when the metadata has a truthy one. */
  lemma MetadataPayloadSpec(metadata: map<string, Json>)
    ensures MetadataPayload(metadata)["metadata_source"] == JStr("NetBox")
    ensures MetadataPayload(metadata)["custom_fields"].JObj?
    ensures forall i :: 0 <= i < |MetadataFields| ==>
              (MetadataFields[i].1 in MetadataPayload(metadata)["custom_fields"].fields <==>
               Truthy(Get(metadata, MetadataFields[i].0)))
    ensures forall i :: 0 <= i < |MetadataFields| && Truthy(Get(metadata, MetadataFields[i].0)) ==>
              MetadataPayload(metadata)["custom_fields"].fields[MetadataFields[i].1] == metadata[MetadataFields[i].0]
    ensures "description" in MetadataPayload(metadata) <==> Truthy(Get(metadata, "netbox_description"))
  {
    var fields := MetadataFields;
    assert DistinctTargets(fields) by {
      forall i, j | 0 <= i < j < |fields| ensures fields[i].1 != fields[j].1 {
        assert fields[i].1 == ["netbox_device_name", "netbox_site", "netbox_device_role", "netbox_device_type",
                               "netbox_platform", "netbox_serial", "netbox_asset_tag"][i];
        assert fields[j].1 == ["netbox_device_name", "netbox_site", "netbox_device_role", "netbox_device_type",
                               "netbox_platform", "netbox_serial", "netbox_asset_tag"][j];
      }
    }
    TransferSpec(metadata, fields, true);
    var custom := Transfer(metadata, fields, true);
    forall i | 0 <= i < |fields|
      ensures fields[i].1 in custom <==> Truthy(Get(metadata, fields[i].0))
    {
      if fields[i].1 in custom {
        var j :| 0 <= j < |fields| && fields[j].1 == fields[i].1 && Wanted(metadata, fields[j].0, true);
        assert i == j;
      }
    }
  }

  // ------------------------------------------------------------------ operation results

  /** The result of `scan_ip_address` once `POST /scan/ip` has answered:
      without a scan id (`scan_id`, else `id`) the scan counts as failed. */
  function ScanOutcome(ip: string, resp: Result<Json, Exc>): (r: Result<Json, Exc>)
    ensures r.Ok? <==> (resp.Ok? && resp.value.JObj?
                        && Truthy(Or(Get(resp.value.fields, "scan_id"), Get(resp.value.fields, "id"))))
    ensures r.Ok? ==> r.value.JObj? && Get(r.value.fields, "success") == JBool(true)
                      && Truthy(Get(r.value.fields, "scan_id")) && Get(r.value.fields, "scan_details") == resp.value
                      && Get(r.value.fields, "scan_id") == Or(Get(resp.value.fields, "scan_id"), Get(resp.value.fields, "id"))
                      && Get(r.value.fields, "message") == JStr("Scan initiated for IP " + ip)
    ensures r.Err? ==> r.error.IsApiError()
    ensures resp.Err? && resp.error.IsApiError() ==> r == resp
  {
    match resp
    case Err(e) => Err(Rewrap("Failed to scan IP " + ip + ": ", e))
    case Ok(JObj(m)) =>
      var scanId := Or(Get(m, "scan_id"), Get(m, "id"));
      if !Truthy(scanId) then Err(ApiException("No scan ID returned from IP scan request"))
      else Ok(JObj(map["success" := JBool(true), "scan_id" := scanId,
                       "message" := JStr("Scan initiated for IP " + ip), "scan_details" := JObj(m)]))
    case Ok(j) => Err(ApiException("Failed to scan IP " + ip + ": " + NoGet(j)))
  }

  /** The result of `add_device_by_ip`: the new device's id, read from
      `device_id` or else `id` (and possibly `None`), beside the raw answer. */
  function AddOutcome(ip: string, resp: Result<Json, Exc>): (r: Result<Json, Exc>)
    ensures r.Ok? <==> resp.Ok? && resp.value.JObj?
    ensures r.Ok? ==> r.value.JObj? && r.value.fields.Keys == {"success", "device_id", "message", "device_details"}
                      && Get(r.value.fields, "success") == JBool(true)
                      && Get(r.value.fields, "device_id") == Or(Get(resp.value.fields, "device_id"), Get(resp.value.fields, "id"))
    ensures r.Err? ==> r.error.IsApiError()
  {
    match resp
    case Err(e) => Err(Rewrap("Failed to add device by IP " + ip + ": ", e))
    case Ok(JObj(m)) =>
      Ok(JObj(map["success" := JBool(true), "device_id" := Or(Get(m, "device_id"), Get(m, "id")),
                  "message" := JStr("Device added for IP " + ip), "device_details" := JObj(m)]))
    case Ok(j) => Err(ApiException("Failed to add device by IP " + ip + ": " + NoGet(j)))
  }

  /** The result of `update_device_metadata`: any answer counts as success. */
  function MetadataOutcome(deviceId: Json, resp: Result<Json, Exc>): (r: Result<Json, Exc>)
    ensures r.Ok? <==> resp.Ok?
    ensures r.Ok? ==> r.value.JObj? && Get(r.value.fields, "success") == JBool(true)
                      && Get(r.value.fields, "device_id") == deviceId && Get(r.value.fields, "update_details") == resp.value
    ensures r.Err? ==> r.error.IsApiError()
  {
    match resp
    case Err(e) => Err(Rewrap("Failed to update device metadata for " + PyStr(deviceId) + ": ", e))
    case Ok(j) =>
      Ok(JObj(map["success" := JBool(true), "device_id" := deviceId,
                  "message" := JStr("Device metadata updated from NetBox"), "update_details" := j]))
  }

  /** The result of `get_scan_results`. */
  function ScanResultsOutcome(scanId: Json, resp: Result<Json, Exc>): (r: Result<Json, Exc>)
    ensures r.Ok? <==> resp.Ok? && resp.value.JObj?
    ensures r.Ok? ==> r.value.JObj? && Get(r.value.fields, "scan_id") == scanId
                      && Get(r.value.fields, "devices_found") == GetOr(resp.value.fields, "devices_found", JList([]))
                      && Get(r.value.fields, "error_details") == GetOr(resp.value.fields, "errors", JList([]))
    ensures r.Err? ==> r.error.IsApiError()
  {
    match resp
    case Err(e) => Err(Rewrap("Failed to get scan results for " + PyStr(scanId) + ": ", e))
    case Ok(JObj(m)) =>
      Ok(JObj(map["scan_id" := scanId, "status" := Get(m, "status"),
                  "devices_found" := GetOr(m, "devices_found", JList([])),
                  "scan_summary" := GetOr(m, "summary", JObj(map[])),
                  "completion_time" := Get(m, "completion_time"),
                  "error_details" := GetOr(m, "errors", JList([]))]))
    case Ok(j) => Err(ApiException("Failed to get scan results for " + PyStr(scanId) + ": " + NoGet(j)))
  }

  /** The result of `bulk_add_ips`: counts default to 0 when the server
      omits them, and the message counts the addresses sent. */
  function BulkOutcome(ips: seq<string>, resp: Result<Json, Exc>): (r: Result<Json, Exc>)
    ensures r.Ok? <==> resp.Ok? && resp.value.JObj?
    ensures r.Ok? ==> r.value.JObj? && Get(r.value.fields, "success") == JBool(true)
                      && Get(r.value.fields, "added_count") == GetOr(resp.value.fields, "added_count", JInt(0))
                      && Get(r.value.fields, "failed_count") == GetOr(resp.value.fields, "failed_count", JInt(0))
                      && Get(r.value.fields, "message")
                         == JStr("Bulk operation initiated for " + IntToString(|ips|) + " IP addresses")
    ensures r.Err? ==> r.error.IsApiError()
  {
    match resp
    case Err(e) => Err(Rewrap("Failed to bulk add IPs: ", e))
    case Ok(JObj(m)) =>
      Ok(JObj(map["success" := JBool(true), "batch_id" := Get(m, "batch_id"),
                  "added_count" := GetOr(m, "added_count", JInt(0)),
                  "failed_count" := GetOr(m, "failed_count", JInt(0)),
                  "scan_ids" := GetOr(m, "scan_ids", JList([])),
                  "message" := JStr("Bulk operation initiated for " + IntToString(|ips|) + " IP addresses"),
                  "batch_details" := JObj(m)]))
    case Ok(j) => Err(ApiException("Failed to bulk add IPs: " + NoGet(j)))
  }

  /** The result of `delete_device`: the bare value `True`, not a dictionary. */
  function DeleteOutcome(deviceId: Json, resp: Result<Json, Exc>): (r: Result<Json, Exc>)
    ensures r.Ok? <==> resp.Ok?
    ensures r.Ok? ==> r.value == JBool(true)
    ensures r.Err? ==> r.error.IsApiError()
  {
    match resp
    case Err(e) => Err(Rewrap("Failed to delete device " + PyStr(deviceId) + ": ", e))
    case Ok(_) => Ok(JBool(true))
  }

  /** The result of `get_device_groups`: a dictionary answer is unwrapped to
      its `groups` entry, anything else is returned as it is. */
  function GroupsOutcome(resp: Result<Json, Exc>): (r: Result<Json, Exc>)
    ensures r.Ok? <==> resp.Ok?
    ensures r.Ok? && resp.value.JObj? ==> r.value == GetOr(resp.value.fields, "groups", JList([]))
    ensures r.Ok? && !resp.value.JObj? ==> r.value == resp.value
    ensures r.Err? ==> r.error.IsApiError()
  {
    match resp
    case Err(e) => Err(Rewrap("Failed to get device groups: ", e))
    case Ok(JObj(m)) => Ok(GetOr(m, "groups", JList([])))
    case Ok(j) => Ok(j)
  }

  /** The report of `test_connection`, which never raises: `success` is true
      exactly when `GET /system/info` (and the two probes before it)
      succeeded, and the message names the kind of failure. */
  function ConnectionReport(resp: Result<Json, Exc>): (r: Json)
    ensures r.JObj? && "success" in r.fields && "message" in r.fields
    ensures Get(r.fields, "success") == JBool(resp.Ok?)
    ensures resp.Ok? ==> Get(r.fields, "server_info") == resp.value
    ensures resp.Err? && resp.error.IsAuthError() ==>
              Get(r.fields, "message") == JStr("Authentication failed - check username and password")
    ensures resp.Err? && resp.error.IsApiError() && !resp.error.IsAuthError() ==>
              Get(r.fields, "message") == JStr("API error: " + Message(resp.error))
    ensures resp.Err? && !resp.error.IsApiError() ==>
              Get(r.fields, "message") == JStr("Unexpected error: " + Message(resp.error))
  {
    match resp
    case Ok(j) => JObj(map["success" := JBool(true), "message" := JStr("Connection successful"), "server_info" := j])
    case Err(e) =>
      var text :=
        if e.IsAuthError() then "Authentication failed - check username and password"
        else if e.IsApiError() then "API error: " + Message(e)
        else "Unexpected error: " + Message(e);
      JObj(map["success" := JBool(false), "message" := JStr(text)])
  }

  // ------------------------------------------------------------------ record mapping

  /** WhatsUp Gold field names and the normalised names they become. */
  const FieldMapping: seq<(string, string)> := [
    ("deviceId", "id"), ("deviceName", "name"), ("displayName", "display_name"),
    ("ipAddress", "ip_address"), ("macAddress", "mac_address"), ("deviceType", "device_type"),
    ("manufacturer", "vendor"), ("model", "model"), ("osVersion", "os_version"),
    ("groupName", "group"), ("location", "location"), ("status", "status"),
    ("lastSeen", "last_seen")
  ]

  lemma FieldMappingDistinct()
    ensures DistinctTargets(FieldMapping)
    ensures forall i :: 0 <= i < |FieldMapping| ==> FieldMapping[i].1 != "raw_data"
  {
    assert FieldMapping[0].1 == "id";
    assert FieldMapping[1].1 == "name";
    assert FieldMapping[2].1 == "display_name";
    assert FieldMapping[3].1 == "ip_address";
    assert FieldMapping[4].1 == "mac_address";
    assert FieldMapping[5].1 == "device_type";
    assert FieldMapping[6].1 == "vendor";
    assert FieldMapping[7].1 == "model";
    assert FieldMapping[8].1 == "os_version";
    assert FieldMapping[9].1 == "group";
    assert FieldMapping[10].1 == "location";
    assert FieldMapping[11].1 == "status";
    assert FieldMapping[12].1 == "last_seen";
  }

  /** `s.replace('Z', '+00:00')`. */
  function ZuluToOffset(s: string): string {
    if s == [] then "" else (if s[0] == 'Z' then "+00:00" else [s[0]]) + ZuluToOffset(s[1..])
  }

  /** `normalize_wug_device_data`. The ISO-8601 parser is a parameter: it
      yields the parsed timestamp, or `None` where `fromisoformat` raises. */
  function NormalizeWugDeviceData(device: map<string, Json>, parseIso: string -> Option<Json>): (r: map<string, Json>)
    ensures "raw_data" in r && r["raw_data"] == JObj(device)
  {
    var mapped := Transfer(device, FieldMapping, false)["raw_data" := JObj(device)];
    if "last_seen" in mapped && mapped["last_seen"].JStr? then
      mapped["last_seen" := match parseIso(ZuluToOffset(mapped["last_seen"].s)) case Some(t) => t case None => JNull]
    else mapped
  }

  /** A normalised record holds `raw_data` (the whole input) and exactly the
      mapped names whose WhatsUp Gold field is present, with that field's
      value; only a textual `last_seen` is replaced by its parse. */
  lemma NormalizeSpec(device: map<string, Json>, parseIso: string -> Option<Json>)
    ensures NormalizeWugDeviceData(device, parseIso)["raw_data"] == JObj(device)
    ensures forall k :: k in NormalizeWugDeviceData(device, parseIso) <==>
              k == "raw_data" || exists i :: 0 <= i < |FieldMapping| && FieldMapping[i].1 == k && FieldMapping[i].0 in device
    ensures forall i :: 0 <= i < |FieldMapping| && FieldMapping[i].0 in device && FieldMapping[i].1 != "last_seen" ==>
              NormalizeWugDeviceData(device, parseIso)[FieldMapping[i].1] == device[FieldMapping[i].0]
    ensures "lastSeen" in device && !device["lastSeen"].JStr? ==>
              NormalizeWugDeviceData(device, parseIso)["last_seen"] == device["lastSeen"]
    ensures "lastSeen" in device && device["lastSeen"].JStr? && parseIso(ZuluToOffset(device["lastSeen"].s)).None? ==>
              NormalizeWugDeviceData(device, parseIso)["last_seen"] == JNull
    ensures "lastSeen" in device && device["lastSeen"].JStr? && parseIso(ZuluToOffset(device["lastSeen"].s)).Some? ==>
              NormalizeWugDeviceData(device, parseIso)["last_seen"] == parseIso(ZuluToOffset(device["lastSeen"].s)).value
  {
    FieldMappingDistinct();
    TransferSpec(device, FieldMapping, false);
    var t := Transfer(device, FieldMapping, false);
    assert FieldMapping[12] == ("lastSeen", "last_seen");
    if "lastSeen" in device {
      assert t["last_seen"] == device["lastSeen"];
    }
    if "last_seen" in t {
      var i :| 0 <= i < |FieldMapping| && FieldMapping[i].1 == "last_seen" && FieldMapping[i].0 in device;
      assert i == 12;
    }
  }

  /** NetBox-side names of the WhatsUp Gold values kept as custom fields. */
  const CustomFieldMapping: seq<(string, string)> := [
    ("ip_address", "wug_ip_address"), ("mac_address", "wug_mac_address"), ("vendor", "wug_vendor"),
    ("model", "wug_model"), ("os_version", "wug_os_version"), ("group", "wug_group"),
    ("location", "wug_location")
  ]

  /** The fixed part of a NetBox device body: name, status and the ids given. */
  function NetboxIdentity(device: map<string, Json>, siteId: Json, deviceTypeId: Json, deviceRoleId: Json): (r: map<string, Json>)
    ensures "custom_fields" !in r
    ensures "status" in r && r["status"] == JStr("active")
    ensures "name" in r && r["name"] == GetOr(device, "name", JStr("wug-device-" + PyStr(Get(device, "id"))))
    ensures "site" in r <==> Truthy(siteId)
    ensures "device_type" in r <==> Truthy(deviceTypeId)
    ensures "device_role" in r <==> Truthy(deviceRoleId)
  {
    var base := map["name" := GetOr(device, "name", JStr("wug-device-" + PyStr(Get(device, "id")))),
                    "status" := JStr("active")];
    var withSite := if Truthy(siteId) then base["site" := siteId] else base;
    var withType := if Truthy(deviceTypeId) then withSite["device_type" := deviceTypeId] else withSite;
    if Truthy(deviceRoleId) then withType["device_role" := deviceRoleId] else withType
  }

  /** `create_netbox_device_data`: a NetBox device body from a normalised
      WhatsUp Gold record. Ids that are `None` (or otherwise falsy) are left
      out; `custom_fields` is present only when one of them is filled. */
  function CreateNetboxDeviceData(device: map<string, Json>, siteId: Json, deviceTypeId: Json, deviceRoleId: Json)
    : (r: map<string, Json>)
    ensures "status" in r && r["status"] == JStr("active")
    ensures "site" in r <==> Truthy(siteId)
    ensures "device_type" in r <==> Truthy(deviceTypeId)
    ensures "device_role" in r <==> Truthy(deviceRoleId)
  {
    var identity := NetboxIdentity(device, siteId, deviceTypeId, deviceRoleId);
    var custom := Transfer(device, CustomFieldMapping, true);
    if custom != map[] then identity["custom_fields" := JObj(custom)] else identity
  }

  /** Some custom field is filled exactly when one of the seven WhatsUp Gold
      values is truthy. */
  predicate AnyTruthy(device: map<string, Json>, pairs: seq<(string, string)>) {
    exists i :: 0 <= i < |pairs| && Truthy(Get(device, pairs[i].0))
  }

  lemma {:induction false} CustomFieldsNonEmpty(device: map<string, Json>, pairs: seq<(string, string)>)
    ensures Transfer(device, pairs, true) != map[] <==> AnyTruthy(device, pairs)
    decreases |pairs|
  {
    if pairs != [] {
      var init := pairs[..|pairs| - 1];
      CustomFieldsNonEmpty(device, init);
      var last := pairs[|pairs| - 1];
      if exists i :: 0 <= i < |init| && Truthy(Get(device, init[i].0)) {
        var i :| 0 <= i < |init| && Truthy(Get(device, init[i].0));
        assert pairs[i] == init[i];
      }
      if exists i :: 0 <= i < |pairs| && Truthy(Get(device, pairs[i].0)) {
        var i :| 0 <= i < |pairs| && Truthy(Get(device, pairs[i].0));
        if i < |init| {
          assert pairs[i] == init[i];
        } else {
          assert Transfer(device, pairs, true) == Transfer(device, init, true)[last.1 := device[last.0]];
          assert last.1 in Transfer(device, pairs, true);
        }
      }
    }
  }

  /** Custom fields are attached exactly when one of the seven WhatsUp Gold
      values is truthy, and are then the truthy values under their NetBox
      names. */
  lemma CreateNetboxCustomFields(device: map<string, Json>, siteId: Json, deviceTypeId: Json, deviceRoleId: Json)
    ensures "custom_fields" in CreateNetboxDeviceData(device, siteId, deviceTypeId, deviceRoleId) <==>
              AnyTruthy(device, CustomFieldMapping)
    ensures "custom_fields" in CreateNetboxDeviceData(device, siteId, deviceTypeId, deviceRoleId) ==>
              CreateNetboxDeviceData(device, siteId, deviceTypeId, deviceRoleId)["custom_fields"]
                == JObj(Transfer(device, CustomFieldMapping, true))
  {
    CustomFieldsNonEmpty(device, CustomFieldMapping);
    AttachCustomFields(device, siteId, deviceTypeId, deviceRoleId, Transfer(device, CustomFieldMapping, true));
  }

  lemma AttachCustomFields(device: map<string, Json>, siteId: Json, deviceTypeId: Json, deviceRoleId: Json,
                           custom: map<string, Json>)
    requires custom == Transfer(device, CustomFieldMapping, true)
    ensures "custom_fields" in CreateNetboxDeviceData(device, siteId, deviceTypeId, deviceRoleId) <==> custom != map[]
    ensures custom != map[] ==> CreateNetboxDeviceData(device, siteId, deviceTypeId, deviceRoleId)["custom_fields"] == JObj(custom)
  {
    var identity := NetboxIdentity(device, siteId, deviceTypeId, deviceRoleId);
    assert "custom_fields" !in identity;
  }
}
