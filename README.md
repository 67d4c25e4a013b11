# netbox-wug-sync, modelled in Dafny

This project models the synchronisation core of the NetBox plugin that
keeps NetBox devices and a WhatsUp Gold (WUG) server in step, and proves
properties of that model:

- **`WUGAPIClient`** (`netbox_wug_sync/wug_client.py`) is a class,
  `WugClient.ApiClient`, whose state is `_token`, `_token_expires` and the
  session. The HTTP session is a scripted transport (`Http.Transport`): it
  answers the `i`-th request with the `i`-th scripted outcome and records
  every request it is sent. Each method is proved equal to a specification
  function over the state (`RequestSpec`, `AuthenticateSpec`, …).
  `wug_client_properties.dfy` proves what those functions promise:
  - the ordered authentication candidates;
  - the expiry rule;
  - the single retry after a 401;
  - the exception mapping;
  - the URL resolution against a base without a trailing slash;
  - the detail loop of `get_devices`.
  The payload builders and the two record transformers are pure functions
  in `wug_payloads.dfy`. URL reference resolution (section 5.2 of RFC 3986,
  as `urllib.parse.urljoin` implements it) and host sanitisation are in
  `urls.dfy`.
- **The signal engine** (`netbox_wug_sync/signals.py`) runs over an
  abstract database (`Store.Db`). The database holds the `WUGConnection`,
  `WUGDevice` and `WUGSyncLog` tables. Each client call is a `Replies`
  value: a value, or the exception it raises. The handlers are methods
  proved against `SyncSpec`, `RemoveSpec`, `CheckSpec` and the handler
  specifications. `signals_properties.dfy` proves:
  - the upsert, delete and logging rules;
  - the conflict rules;
  - three consequences of the real client's answer shapes. The id stored
    after a push is always `None`. No record is ever removed. The WUG side
    of the conflict check finds nothing.
- **The views** (`netbox_wug_sync/views.py`):
  - the manual-sync log lifecycle (running, then failed, completed or
    error);
  - the per-device and bulk sync switches;
  - the export trigger's guards;
  - the status, export and device statistics.
- **`SimpleWUGClient`** (`simple_wug_test.py`) is a class with a different
  401 policy, plain URL concatenation and the `data` envelope. Its group
  walk de-duplicates devices by id.
- **`scripts/list_wug_groups.py`**: the sort key, the sectioned listing
  loop and the parent-name lookup.
- **`scripts/development/dev_migration_helper.py`**: the next migration
  number, the file name and the default-name rule.

Python values are modelled by `Json.Json`:
- `None`, booleans, integers, strings, lists and dictionaries;
- a dictionary is a Dafny `map<string, Json>`, so its keys are strings and
  are unique.

Python's own semantics appear as explicit functions in `json.dfy` and
`text.dfy`:
- truthiness, `dict.get` and `a or b`;
- `int()`, `str()`, `"{:04d}"`;
- `str.strip` and `str.split`;
- string order.

Exceptions are `Result` errors.

| file | module | models |
|---|---|---|
| base.dfy | Base | `Option`, `Result` |
| text.dfy | Text | string operations, `int(str)`, `str(int)`, zero padding, string order |
| json.dfy | Json | Python values, truthiness, `get`, `or`, `len`, `int`, hashing |
| http.dfy | Http | requests, outcomes, exceptions, the scripted session |
| errors.dfy | Errors | `str(e)` of each exception |
| urls.dfy | Urls | `urljoin`, `urlparse` of the host argument |
| wug_client.dfy | WugClient | `WUGAPIClient` and its specification functions |
| wug_client_properties.dfy | WugClientProperties | lemmas about the client |
| wug_payloads.dfy | WugPayloads | payload builders, answer handling, record transformers |
| store.dfy | Store | the three tables and their ORM operations |
| signals.dfy | Signals | the signal handlers |
| signals_properties.dfy | SignalProperties | lemmas about the handlers |
| views.dfy | Views | the function views |
| simple_client.dfy | SimpleClient | `SimpleWUGClient` and `main`'s tally |
| list_groups.dfy | ListGroups | the group listing script |
| migrations.dfy | Migrations | the migration numbering |

## Model

| member | source | states |
|---|---|---|
| WugClient.MakeConfig | netbox_wug_sync/wug_client.py:32-66 | The constructor fails exactly when host sanitisation fails, with the same error. Otherwise its address is the sanitised host and port, its scheme is `https` exactly when `use_ssl` holds, and the candidates are the six authentication attempts. |
| Urls.SanitizeHost | netbox_wug_sync/wug_client.py:53-62 | A host that is not an `http://`/`https://` URL is kept with the given port. The port only changes from the default 9644, and only to a valid URL port. The only failure is the `ValueError` of `urlparse`'s port. |
| Urls.AddressFromUrl | netbox_wug_sync/wug_client.py:54-60 | A URL host is reduced to its (lower-cased) hostname. The URL's port replaces only the default port. |
| Urls.SanitizedHostClean | netbox_wug_sync/wug_client.py:53-66 | A host taken from a URL holds no URL delimiter, so the base URL's network location is exactly `host:port`. |
| Urls.ExplicitPortWins | netbox_wug_sync/wug_client.py:59-60 | A port other than 9644 is always kept, whatever the URL says. |
| Urls.MergedPathFromApi | netbox_wug_sync/wug_client.py:108 | Resolving a plain reference against the path `/api` replaces the segment `api` rather than going beneath it (RFC 3986, section 5.2.3). |
| Urls.EndpointUrlPlain | netbox_wug_sync/wug_client.py:108 | With a clean host, every plain endpoint resolves to `scheme://host:port/` followed by the endpoint: `/devices` goes to the origin, and `/api/v1/token` keeps its `/api`. |
| WugClientProperties.PlainUrl | netbox_wug_sync/wug_client.py:108 | A request URL is the origin followed by the endpoint. It is never the base URL followed by the endpoint. |
| WugClientProperties.OneSegmentUrl | netbox_wug_sync/wug_client.py:108 | One-segment endpoints such as `/devices` and `/groups` are fetched from the server's root, not from under `/api`. |
| WugClientProperties.DeviceDetailsUrl | netbox_wug_sync/wug_client.py:376 | The details of a device with a numeric id are fetched from `/devices/<id>` under the origin. |
| WugClient.RootUrl | netbox_wug_sync/wug_client.py:291 | The probe's intended target is the base URL without its trailing `/api`. |
| WugClient.Conclude | netbox_wug_sync/wug_client.py:151-167 | For a final outcome: a 4xx or 5xx status becomes an HTTP `WUGAPIException` naming the status and URL. A success with a JSON body returns it, and one without returns `{}`. A timeout becomes "Request timeout after N seconds", and every other failure is a `WUGAPIException` that is not an authentication error. |
| WugClient.ApiClient.constructor | netbox_wug_sync/wug_client.py:32-74 | A new client holds its configuration and session, with no token and no expiry. |
| WugClient.ApiClient.MakeRequest | netbox_wug_sync/wug_client.py:89-167 | The result and the new token, expiry and session log equal `RequestSpec`: authenticate when needed, send, and after a 401 clear the token and, for an authenticated call, authenticate again and retry once. |
| WugClient.ApiClient.MakeRequestRaw | netbox_wug_sync/wug_client.py:169-210 | One request with the given credentials. The result and the session log equal `RawRequest`, and the token is untouched. |
| WugClient.ApiClient.EnsureAuthenticated | netbox_wug_sync/wug_client.py:212-215 | Equals `EnsureSpec`: authenticate exactly when there is no token or it has expired. |
| WugClient.ApiClient.Authenticate | netbox_wug_sync/wug_client.py:223-280 | The loop over the candidates equals `AuthenticateSpec`. The first accepted token wins. A token whose expiry falls outside the datetime range raises `OverflowError`, which makes that candidate a failure and moves on. Otherwise the error names the last exception. |
| WugClient.ApiClient.TryCandidate | netbox_wug_sync/wug_client.py:243-274 | One pass of the loop: candidate `k`'s request, the token it stores and its verdict, as `Attempt` gives them. |
| WugClient.ApiClient.TestConnection | netbox_wug_sync/wug_client.py:282-325 | Equals `TestConnectionSpec`: a probe of the server root (the corrected probe URL, see "## Findings"), a probe of the base URL, then `GET /system/info`. Every failure becomes a report rather than an exception. |
| WugClient.ApiClient.GetDeviceDetails | netbox_wug_sync/wug_client.py:366-381 | Equals `DeviceDetailsSpec`: `GET /devices/<id>`, with failures wrapped as "Failed to get device details". |
| WugClient.ApiClient.GetDevices | netbox_wug_sync/wug_client.py:327-364 | Equals `GetDevicesSpec`: the dictionary answer is unwrapped through `devices`. With details on, each device runs through the detail loop. |
| WugClient.ApiClient.AddDetails | netbox_wug_sync/wug_client.py:345-357 | The detail loop over the visited devices equals `WithDetails` on the devices and the state. |
| WugClient.ApiClient.AddDetail | netbox_wug_sync/wug_client.py:346-356 | One device of the detail loop equals `DetailStep`: a dictionary answer is merged in, and anything else leaves the device as it was. |
| WugClient.ApiClient.GetDeviceGroups | netbox_wug_sync/wug_client.py:405-423 | Equals `GET /groups` followed by `GroupsOutcome`, with failures wrapped. |
| WugClient.ApiClient.DeleteDevice | netbox_wug_sync/wug_client.py:499-516 | Equals `DELETE /devices/<id>` followed by `DeleteOutcome`, with failures wrapped. |
| WugClient.ApiClient.ScanIpAddress | netbox_wug_sync/wug_client.py:520-558 | Sends `ScanIpPayload` to `POST /scan/ip` and answers `ScanOutcome`. |
| WugClient.ApiClient.AddDeviceByIp | netbox_wug_sync/wug_client.py:594-634 | Sends `AddByIpPayload` to `POST /devices/add-by-ip` and answers `AddOutcome`. |
| WugClient.ApiClient.UpdateDeviceMetadata | netbox_wug_sync/wug_client.py:636-692 | Sends `MetadataPayload` to `PUT /devices/<id>/metadata` and answers `MetadataOutcome`. |
| WugClient.ApiClient.GetScanResults | netbox_wug_sync/wug_client.py:694-719 | Sends `GET /scan/<id>/results` and answers `ScanResultsOutcome`. |
| WugClient.ApiClient.BulkAddIps | netbox_wug_sync/wug_client.py:721-764 | Sends `BulkPayload` to `POST /devices/bulk-add` and answers `BulkOutcome`. |
| WugClientProperties.FreshTokenValidIff | netbox_wug_sync/wug_client.py:261-264 | A token stored with lifetime `expires_in` is unexpired at the moment it is stored exactly when `expires_in` exceeds the 60-second margin. |
| WugClient.Lifetime | netbox_wug_sync/wug_client.py:261-264 | A token answer is usable exactly when `expires_in` (default 3600) supports the subtraction and the expiry, now in whole seconds plus `expires_in − 60` seconds, lies within years 1 to 9999 and within the `timedelta` range. |
| WugClientProperties.OverflowingLifetimeFails | netbox_wug_sync/wug_client.py:258-274 | A token whose expiry would fall after year 9999 is not accepted: the `OverflowError` makes the candidate a failure, `_token` keeps the token and the expiry is untouched. |
| WugClientProperties.TokenStepFacts | netbox_wug_sync/wug_client.py:258-264 | Only an accepted token sets the expiry, to the whole-second time of `now` plus `expires_in − 60`. Any dictionary answer sets `_token`. |
| WugClientProperties.ExchangeFacts | netbox_wug_sync/wug_client.py:245-256 | Candidate `k` sends its own request and receives the next scripted answer. |
| WugClientProperties.AuthLoopVerdict | netbox_wug_sync/wug_client.py:243-280 | The loop from candidate `k` ends as the reference says: it succeeds exactly when some later candidate authenticates. Otherwise the error carries the last failure so far. |
| WugClientProperties.AuthLoopSends | netbox_wug_sync/wug_client.py:243-274 | The loop sends one request per candidate it tries, in candidate order, and consumes one answer each. |
| WugClientProperties.AuthLoopNext | netbox_wug_sync/wug_client.py:268-274 | A candidate that does not authenticate hands on to the next. |
| WugClientProperties.AuthLoopWin | netbox_wug_sync/wug_client.py:258-267 | A candidate that authenticates ends the loop with its token stored. |
| WugClientProperties.AuthLoopKeeps | netbox_wug_sync/wug_client.py:243-280 | The loop leaves the winner's token and expiry, or an untouched expiry when no candidate wins. |
| WugClientProperties.AttemptFacts | netbox_wug_sync/wug_client.py:243-274 | One pass, measured against the original script: the request of candidate `k` gets the `k`-th outcome and stores what its verdict says. |
| WugClientProperties.AuthenticateTriesInOrder | netbox_wug_sync/wug_client.py:234-280 | `_authenticate` tries the six candidates in order, one request each, and stops at the first that yields a token with a usable `expires_in`. When none does, all six were tried, and the error is "Last error" with the last exception, or "No token returned" when none was raised. |
| WugClientProperties.AuthenticateKeepsWinner | netbox_wug_sync/wug_client.py:258-264 | After `_authenticate` the client holds the winning candidate's token, with the expiry its `expires_in` gives. A failure leaves the expiry as it was. |
| WugClientProperties.EnsureReauthenticatesIff | netbox_wug_sync/wug_client.py:212-221 | `_ensure_authenticated` sends nothing when a token is held and unexpired. Otherwise it authenticates, sending at least one request. Its failures are authentication errors. |
| WugClientProperties.CandidateRequestsNoBearer | netbox_wug_sync/wug_client.py:248-256 | No token request carries a bearer token. |
| WugClientProperties.EnsureSendsNoBearer | netbox_wug_sync/wug_client.py:212-280 | Authentication adds only token requests to the log. |
| WugClientProperties.AtMostOneRetry | netbox_wug_sync/wug_client.py:138-148 | An authenticated request sends at most two requests carrying a bearer token. "Authentication failed" comes only after both were answered 401. |
| WugClientProperties.RequestErrorsAreApiErrors | netbox_wug_sync/wug_client.py:151-167 | Every failure of `_make_request` is a `WUGAPIException`. |
| WugClientProperties.GetDevicesErrorsAreApiErrors | netbox_wug_sync/wug_client.py:327-364 | Every failure of `get_devices` is a `WUGAPIException`. A device list that is not a list of dictionaries fails with "Failed to get devices: ". |
| WugClientProperties.UnauthorizedClearsToken | netbox_wug_sync/wug_client.py:138-140 | A request without authentication that is answered 401 clears the token and fails. Any other answer keeps the token. The expiry never changes. |
| WugClientProperties.WithDetailsKeepsDevices | netbox_wug_sync/wug_client.py:339-357 | The detail loop keeps every device, in order, as a dictionary holding at least the keys it had. |
| WugClientProperties.DetailStepWithoutId | netbox_wug_sync/wug_client.py:346-348 | A device without a truthy `id` or `deviceId` passes through untouched and costs no request. |
| WugClientProperties.ProbeUrlApiHost | netbox_wug_sync/wug_client.py:291 | For a host that begins with `api`, the probe URL as written is `http:/` (or `https:/`), a URL with no host. |
| WugClientProperties.ProbeUrlIsRoot | netbox_wug_sync/wug_client.py:291 | For every other clean host, the probe URL as written is the origin, the URL the model probes. |
| WugClientProperties.TestConnectionSucceedsIff | netbox_wug_sync/wug_client.py:282-325 | With the corrected probe URL, the report is a dictionary. Its `success` is true exactly when both probes got an answer and `GET /system/info` succeeded. |
| WugClientProperties.TestConnectionApiHostFails | netbox_wug_sync/wug_client.py:289-325 | As written, for a host beginning with `api` the probe URL has no host. Nothing is sent, and the report is always `success` false with "Unexpected error: Invalid URL …: No host supplied". |
| WugClientProperties.TestConnectionWrittenAgrees | netbox_wug_sync/wug_client.py:289-325 | For every other clean host the connection test as written is the corrected one. |
| WugPayloads.TransferSpec | netbox_wug_sync/wug_client.py:798-800 | A field copy with distinct targets holds a target key exactly when its source is wanted, and then holds the source's value. |
| WugPayloads.Rewrap | netbox_wug_sync/wug_client.py:420-423 | The result is always a `WUGAPIException`. The client's own exceptions pass through unchanged, and any other failure is wrapped with the operation's prefix. |
| WugPayloads.ScanIpPayload | netbox_wug_sync/wug_client.py:532-539 | The body holds `ip_address`, `scan_type` and the options' keys. The options' values win, and `ip_address` is the IP unless the options set it. |
| WugPayloads.AddByIpPayload | netbox_wug_sync/wug_client.py:606-620 | The caller's configuration wins over `ip_address` and `discovery_method`. `device_name` defaults to `NetBox-<ip>` and `group` to `NetBox Imports`, each only when the configuration lacks it. |
| WugPayloads.BulkPayload | netbox_wug_sync/wug_client.py:733-747 | The body holds `ip_addresses`, `operation`, `source`, `group`, `scan_after_add` and the configuration's keys. The configuration's values win. `group` defaults to `NetBox Bulk Import` and `scan_after_add` to true. |
| WugPayloads.MetadataPayloadSpec | netbox_wug_sync/wug_client.py:649-678 | Each truthy metadata value, and only those, reaches its custom field. A description is sent exactly when the metadata holds a truthy one. |
| WugPayloads.MetadataPayload | netbox_wug_sync/wug_client.py:649-678 | The body holds `metadata_source` `NetBox` and a `custom_fields` dictionary, plus `description` exactly when the metadata has a truthy `netbox_description`. |
| WugPayloads.ScanOutcome | netbox_wug_sync/wug_client.py:541-553 | The scan succeeds exactly when the answer is a dictionary with a truthy `scan_id` or `id`. It then reports success, that id, the message `Scan initiated for IP <ip>`, and the answer as `scan_details`. Every failure is a `WUGAPIException`, and the client's own exceptions pass through. |
| WugPayloads.AddOutcome | netbox_wug_sync/wug_client.py:622-629 | Succeeds exactly for a dictionary answer. The result then has exactly the keys `success` (true), `device_id`, `message` and `device_details`, with `device_id` taken from the answer's `device_id`, else its `id`. |
| WugPayloads.MetadataOutcome | netbox_wug_sync/wug_client.py:680-687 | Any answer counts as success, reporting the device id and the answer as `update_details`. |
| WugPayloads.ScanResultsOutcome | netbox_wug_sync/wug_client.py:705-714 | For a dictionary answer the result holds the scan id, and `devices_found` and `error_details` from the answer with their `[]` defaults. Anything else fails with a `WUGAPIException`. |
| WugPayloads.BulkOutcome | netbox_wug_sync/wug_client.py:749-759 | Missing counts default to 0. The message counts the addresses sent. |
| WugPayloads.DeleteOutcome | netbox_wug_sync/wug_client.py:510-511 | `delete_device` succeeds exactly when its request does, and then answers the bare value `True`, not a dictionary. |
| WugPayloads.GroupsOutcome | netbox_wug_sync/wug_client.py:413-418 | A dictionary answer is unwrapped to its `groups` entry. Anything else is returned as it is. |
| WugPayloads.ConnectionReport | netbox_wug_sync/wug_client.py:305-325 | The report always has `success` and `message`. `success` is true exactly when `/system/info` answered, and `server_info` then holds the answer. Authentication errors, other `WUGAPIException`s and any other exception each get their own message. |
| WugPayloads.FieldMappingDistinct | netbox_wug_sync/wug_client.py:779-793 | The normalised names the WhatsUp Gold fields map to are pairwise distinct, and none of them is `raw_data`. |
| WugPayloads.NormalizeSpec | netbox_wug_sync/wug_client.py:768-813 | A normalised record holds `raw_data`, the whole input, and exactly the mapped names whose WhatsUp Gold field is present, with that field's value. Only a textual `last_seen` is replaced by its parse, and when that parse succeeds `last_seen` is the parsed datetime. |
| WugPayloads.NormalizeWugDeviceData | netbox_wug_sync/wug_client.py:768-813 | The normalised record always keeps the whole input as `raw_data`. |
| WugPayloads.NetboxIdentity | netbox_wug_sync/wug_client.py:829-840 | The body holds `status` `active`, the device's `name` (or `wug-device-<id>`), and each of `site`, `device_type` and `device_role` exactly when its id is truthy. It has no `custom_fields`. |
| WugPayloads.CreateNetboxCustomFields | netbox_wug_sync/wug_client.py:843-868 | `custom_fields` is attached exactly when one of the seven WhatsUp Gold values is truthy. It then holds the truthy values under their NetBox names. |
| WugPayloads.CreateNetboxDeviceData | netbox_wug_sync/wug_client.py:815-868 | The body has status `active`, and holds `site`, `device_type` and `device_role` exactly when the given id is truthy. |
| Store.FirstFor | netbox_wug_sync/signals.py:93-96 | The first device row of the connection for the NetBox id: nothing before it matches, and `None` means no row matches. |
| Store.WithNetboxId | netbox_wug_sync/signals.py:67 | Exactly the rows with that NetBox id. |
| Store.CountIn | netbox_wug_sync/views.py:433 | The number of rows `.filter(id__in=ids)` selects is at most the table size. It is 0 exactly when no row's key is among the ids. |
| Store.Saved | netbox_wug_sync/signals.py:142-146 | Saving a stored row replaces the row with that key and keeps every other row and the table length. |
| Store.Deleted | netbox_wug_sync/signals.py:270 | The rows left are exactly those with another key. |
| Store.DeletedOne | netbox_wug_sync/signals.py:270 | Deleting a present key removes exactly one row. |
| Store.DeletedAbsent | netbox_wug_sync/signals.py:270 | Deleting an absent key changes nothing. |
| Store.Db.CreateDevice | netbox_wug_sync/signals.py:149-156 | `WUGDevice.objects.create` appends one row with a fresh key and the given fields, and keeps the keys valid. |
| Store.Db.SaveDevice | netbox_wug_sync/signals.py:142-146 | `save()` replaces the stored row with that key. |
| Store.Db.DeleteDevice | netbox_wug_sync/signals.py:270 | `delete()` removes the row with that key. |
| Store.Db.UpdateSyncEnabled | netbox_wug_sync/views.py:433 | `filter(id__in=ids).update(sync_enabled=v)` sets the flag of the selected rows and returns how many were selected. |
| Store.Db.CreateLog | netbox_wug_sync/signals.py:177-188 | Appends one log row and returns its id. |
| Store.Db.SaveLog | netbox_wug_sync/views.py:252-255 | Replaces the log row with that id. |
| Store.CreateKeepsKeys | netbox_wug_sync/signals.py:149-156 | Creating a device keeps the keys distinct and below the next key. |
| Store.SavedKeepsKeys | netbox_wug_sync/signals.py:142-146 | Saving a stored row keeps the keys valid and touches no other row. |
| Signals.DeviceData | netbox_wug_sync/signals.py:106-122 | The body sent to WhatsUp Gold has eight fixed keys, plus `role` and `platform` exactly when the device has them. |
| Signals.Construction | netbox_wug_sync/signals.py:126-133 | Building the client raises exactly when the constructor's host sanitisation raises. |
| SignalProperties.PushPayload | netbox_wug_sync/signals.py:106-136 | The device data the push sends has no `device_name`, `group` or `ip_address`. So WhatsUp Gold always gets the name `NetBox-<ip>` and the group `NetBox Imports`. The NetBox name travels only as `displayName`. |
| Signals.ActiveConnections | netbox_wug_sync/signals.py:41 | Exactly the connections with `is_active`. |
| Signals.SyncAllStep | netbox_wug_sync/signals.py:50-56 | One more active connection means one more `sync_device_to_wug`, after the earlier ones. |
| Signals.CollectNetbox | netbox_wug_sync/signals.py:297-308 | The NetBox loop builds exactly `NetboxConflicts`. |
| Signals.CollectWug | netbox_wug_sync/signals.py:311-336 | The WhatsUp Gold loop appends exactly `WugConflicts` of the entries it visits. |
| Signals.SummaryLines | netbox_wug_sync/signals.py:341-346 | The summary loop writes one line per conflict, in order. |
| Signals.CheckIpConflictsAfterScan | netbox_wug_sync/signals.py:280-372 | The new tables equal `CheckSpec`: one warning log exactly when a conflict is found. |
| Signals.RecordSuccess | netbox_wug_sync/signals.py:138-156 | The record update after a successful push equals `Recorded`. |
| Signals.RecordPush | netbox_wug_sync/signals.py:136-212 | Everything after a dictionary answer equals `Pushed`: the record update, the scan, the conflict check and the one push log. |
| Signals.SyncDeviceToWug | netbox_wug_sync/signals.py:82-229 | The new tables equal `SyncSpec`: a client that cannot be built, an exception, or an answer without `.get` leaves an error log. |
| Signals.DeviceSavedHandler | netbox_wug_sync/signals.py:22-56 | The new tables equal `SavedHandlerSpec`. |
| Signals.RemoveDeviceFromWug | netbox_wug_sync/signals.py:232-277 | The new tables equal `RemoveSpec`. |
| Signals.DeviceDeletedHandler | netbox_wug_sync/signals.py:59-79 | The new tables equal `DeletedHandlerSpec`, one record at a time. |
| SignalProperties.SyncSpecShape | netbox_wug_sync/signals.py:82-229 | A push changes no connection and only appends logs. |
| SignalProperties.SyncSpecLogs | netbox_wug_sync/signals.py:177-229 | A push appends one or two logs: its own `netbox_to_wug` log last, and at most a conflict warning before it. |
| SignalProperties.SyncAllLogs | netbox_wug_sync/signals.py:50-56 | Pushing to several connections leaves one `netbox_to_wug` log per connection, in their order, and never rewrites an older log. |
| SignalProperties.SavedHandlerLogs | netbox_wug_sync/signals.py:22-56 | The save handler does nothing unless the device is active, has a primary IPv4 address and some connection is active. Otherwise it leaves exactly one push log per active connection. |
| SignalProperties.FirstForIs | netbox_wug_sync/signals.py:93-96 | The first match is the row that nothing before it matches. |
| SignalProperties.FirstForSaved | netbox_wug_sync/signals.py:142-146 | Saving a new version of a device's first record keeps it first. |
| SignalProperties.FirstForAppended | netbox_wug_sync/signals.py:149-156 | A record appended for a device that had none becomes its first. |
| SignalProperties.RecordedFirst | netbox_wug_sync/signals.py:138-156 | The record update keeps keys valid and leaves `PushedRecord` as the device's first record for the connection. |
| SignalProperties.SuccessfulPush | netbox_wug_sync/signals.py:138-156 | After a successful push, the connection's first record for the device is `PushedRecord`. A known record is updated in place, with only its id, sync time and status changed; an unknown device gets one new row; no other row changes. |
| SignalProperties.SuccessfulPushLogs | netbox_wug_sync/signals.py:160-188 | The push log counts one device created or updated, as the action says, and no errors. A conflict warning precedes it exactly for a new device whose scan started and for which a conflict is found. |
| SignalProperties.RefusedPush | netbox_wug_sync/signals.py:190-212 | A refused push marks a known record failed with the server's message, creates no record, and logs one failure with one error. |
| SignalProperties.FailedPush | netbox_wug_sync/signals.py:214-229 | An exception leaves every record as it was and logs one error. |
| SignalProperties.SyncSpecKeepsKeys | netbox_wug_sync/signals.py:82-229 | A push keeps device keys valid. |
| SignalProperties.SyncAllKeepsKeys | netbox_wug_sync/signals.py:50-56 | Pushing to every active connection keeps device keys valid. |
| SignalProperties.SavedHandlerKeepsKeys | netbox_wug_sync/signals.py:22-56 | The save handler keeps device keys valid. |
| SignalProperties.NetboxConflictsExact | netbox_wug_sync/signals.py:297-308 | The NetBox side reports exactly the other devices whose address text starts with the IP, and never the device itself. |
| SignalProperties.WugConflictsExact | netbox_wug_sync/signals.py:311-336 | The WhatsUp Gold side reports exactly the visited entries carrying the IP that are not the connection's own record of the device, with ids compared as text. |
| SignalProperties.ConflictCheck | netbox_wug_sync/signals.py:340-367 | The check changes only the logs. It writes one `ip_conflict_check` warning exactly when some conflict is found, with `devices_discovered` equal to the conflicts plus one. |
| SignalProperties.ConflictSides | netbox_wug_sync/signals.py:297-336 | NetBox conflicts are listed before WhatsUp Gold conflicts. |
| SignalProperties.PrefixConflict | netbox_wug_sync/signals.py:298 | Because the match is on the start of the address text, `10.0.0.5` also conflicts with `10.0.0.50/24`. |
| SignalProperties.RemoveOutcome | netbox_wug_sync/signals.py:232-277 | A removal deletes the record, with one completed log, exactly when its connection exists, the client is built and `delete_device` answers a dictionary with a true `success`. Every other outcome leaves the tables as they were. |
| SignalProperties.RemoveKeepsKeys | netbox_wug_sync/signals.py:232-277 | A removal keeps device keys valid, whether or not the record is stored. |
| SignalProperties.RemoveAllAppendsLogs | netbox_wug_sync/signals.py:67-79 | The delete handler keeps device keys valid and only appends logs. |
| SignalProperties.DeletedHandlerKeepsKeys | netbox_wug_sync/signals.py:59-79 | The delete handler keeps device keys valid. |
| SignalProperties.RealAddStoresNoId | netbox_wug_sync/signals.py:139 | `add_device_by_ip` answers under `device_id`, so the id the handler reads from `deviceId`/`id` is always `None`. |
| SignalProperties.RealPushStoresNoId | netbox_wug_sync/signals.py:136-156 | With the real `add_device_by_ip`, a dictionary answer always gives a successful push whose record holds `None` as its WhatsUp Gold id. |
| SignalProperties.RealDeleteRemovesNothing | netbox_wug_sync/signals.py:250-252 | `.get('success')` on the bare `True` of `delete_device` raises, so no removal deletes a record or logs anything. |
| SignalProperties.RemoveAllWithBareTrue | netbox_wug_sync/signals.py:67-79 | Hence the delete handler leaves the tables unchanged whenever every `delete_device` that succeeds answers `True`. |
| SignalProperties.DeletedHandlerWithRealClient | netbox_wug_sync/signals.py:59-79 | With the real client, `device_deleted_handler` changes nothing. |
| SignalProperties.RealListingFindsNothing | netbox_wug_sync/signals.py:313 | `get_devices()` answers a list, on which `.get` raises, so the WhatsUp Gold side of the check finds nothing. |
| Views.TriggerSyncView | netbox_wug_sync/views.py:185-327 | The response and the new tables equal `TriggerSyncSpec`. |
| Views.TriggerSyncGuards | netbox_wug_sync/views.py:189-207 | An anonymous caller gets 401, and any method but GET and POST gets 405. Neither, nor a GET, writes a log. |
| Views.ManualLogOutcome | netbox_wug_sync/views.py:219-310 | The saved log belongs to the connection, has type `manual`, zero created, updated and error counts, and an end time. It is completed exactly when the client is built, the test succeeds and the listing has a length, with `devices_discovered` that length (0 for a falsy listing). It is failed exactly when the test answered a dictionary without a true `success`, and is an error otherwise. Only a completed log counts devices. |
| Views.TriggerSyncPost | netbox_wug_sync/views.py:210-327 | A POST for an existing connection appends exactly one log and changes nothing else. It answers 200, with `success` true exactly when the log is completed. |
| Views.DeviceCountOnlyOnSuccess | netbox_wug_sync/views.py:147-182 | The test report is passed through, with `device_count` added exactly when the test succeeded: the list length, 0 for a non-list, "unknown" when listing raises. |
| Views.TestConnectionView | netbox_wug_sync/views.py:147-182 | 403 exactly without the permission, 404 exactly for a missing connection, and otherwise a 200 carrying `success`. `device_count` is added only when the client was built and the report's `success` is truthy, and is then the device count of the listing. |
| Views.ConnectionLogs | netbox_wug_sync/views.py:55 | Exactly the connection's logs. |
| Views.LatestLog | netbox_wug_sync/views.py:336 | One of the connection's logs, and none exactly when the connection has no log. |
| Views.LatestHeadsNewestFirst | netbox_wug_sync/views.py:336 | The latest log heads the newest-first list. |
| Views.StatusNoneIffNoLogs | netbox_wug_sync/views.py:330-356 | The status is "none" exactly when the connection has no log. Otherwise it is its newest log's. |
| Views.SyncStatusView | netbox_wug_sync/views.py:330-356 | 404 exactly for a missing connection. Otherwise a 200 whose `status` is "none" exactly when the connection has no log. |
| Views.DeviceSyncSwitchView | netbox_wug_sync/views.py:377-403 | Without the change permission the reply is 403 and nothing changes. A missing device is a 404. Otherwise the row's `sync_enabled` is set and the view redirects to the device. |
| Views.DeviceForceSyncView | netbox_wug_sync/views.py:405-421 | Without the change permission the reply is 403, and a missing device is a 404. Otherwise the row becomes pending with `now` as its last sync attempt, and nothing else changes. |
| Views.SaveChangesOneRow | netbox_wug_sync/views.py:383-416 | Saving one row with a changed field changes that row and no other. |
| Views.SwitchesChangeOnlyTheirFields | netbox_wug_sync/views.py:383-416 | The switches change only `sync_enabled`, and force sync only `sync_status` and `last_sync_attempt`, of the one row addressed. |
| Views.BulkSyncSwitchView | netbox_wug_sync/views.py:424-453 | Only a POST with a non-empty id list updates rows. The count reported is the number of rows the ids select. |
| Views.BulkUpdateFields | netbox_wug_sync/views.py:430-449 | A bulk update sets the flag of exactly the selected rows and touches no other field. |
| Views.CountInSelects | netbox_wug_sync/views.py:430-449 | The count reported is the number of rows whose key is among the ids. |
| Views.ExportTriggerGuards | netbox_wug_sync/views.py:456-488 | Anything but POST gets 405, and a POST for a missing connection gets 404. Otherwise the reply is 200 with `success` equal to the connection's `enable_netbox_export`. |
| Views.TriggerExportView | netbox_wug_sync/views.py:456-488 | 403 exactly without the permission. A 200 answers only a POST for an existing connection, and its `success` is that connection's `enable_netbox_export`. |
| Views.CompletedSplits | netbox_wug_sync/views.py:501-507 | The completed count is the exported count plus the scan-completed count. |
| Views.InsertKeepsOrder | netbox_wug_sync/views.py:510 | Inserting by `created` keeps a list newest first. |
| Views.ByCreatedDesc | netbox_wug_sync/views.py:510 | `order_by('-created')` is newest first and a permutation of its input. |
| Views.RecentAreNewest | netbox_wug_sync/views.py:510 | The recent list holds the ten newest exports (all of them when there are fewer), newest first. No export left out is newer than one kept. |
| Views.ExportStatsAddUp | netbox_wug_sync/views.py:501-507 | Completed equals exported plus scan-completed. Completed alone, and pending plus completed, are at most the total. |
| Views.PendingAndCompletedDisjoint | netbox_wug_sync/views.py:501-507 | Pending and completed exports together are at most the total. |
| Views.ExportStatusReports | netbox_wug_sync/views.py:491-528 | The status view reports the statistics of the connection's own exports, and at most ten recent entries in `RecentExports` order. |
| Views.ExportStatusView | netbox_wug_sync/views.py:491-528 | 404 exactly for a missing connection. Otherwise a 200 listing at most ten recent exports. |
| Views.RecentLogs | netbox_wug_sync/views.py:55 | At most ten of the connection's logs. The list is empty exactly when the connection has no log, and is otherwise headed by its latest log. |
| Views.StatusCountsPartition | netbox_wug_sync/views.py:58-63 | Every device has one of four statuses, so the success, pending, error and failed counts add up to the number of devices. |
| Views.DeviceStatsAddUp | netbox_wug_sync/views.py:58-63 | The total is synced plus pending plus errors plus the devices marked failed, which `device_stats` does not count. The three reported counts never exceed the total. |
| Views.DeviceStats | netbox_wug_sync/views.py:58-63 | The four counts `total`, `synced`, `pending` and `errors`. `total` is the number of the connection's devices and bounds the sum of the other three. |
| SimpleClient.SimpleWugClient.constructor | simple_wug_test.py:37-56 | A new client holds its configuration and session, with no token. |
| SimpleClient.SimpleWugClient.Authenticate | simple_wug_test.py:65-93 | Equals `AuthenticateSpec`: one password-grant POST. An expiry outside the datetime range raises `OverflowError` after the token is stored. |
| SimpleClient.SimpleWugClient.EnsureAuthenticated | simple_wug_test.py:99-102 | Equals `EnsureSpec`. |
| SimpleClient.SimpleWugClient.MakeRequest | simple_wug_test.py:104-165 | Equals `RequestSpec`, with the 401 path of `RetrySpec`. |
| SimpleClient.SimpleWugClient.TestConnection | simple_wug_test.py:167-180 | Equals `TestConnectionSpec`: every exception becomes a failed report. |
| SimpleClient.TestConnectionReport | simple_wug_test.py:167-180 | The test makes the one `GET /product/version` request. `success` is true exactly when that request succeeds, with its answer as `version_info`. Otherwise the message is "Connection failed: " and the exception's text, whatever the exception. The state afterwards is the request's. |
| SimpleClient.SimpleWugClient.GetDeviceGroups | simple_wug_test.py:182-190 | Equals `DeviceGroupsSpec`: `GET /device-groups/-` through the `data.groups` envelope. |
| SimpleClient.SimpleWugClient.GetDevicesFromGroup | simple_wug_test.py:192-200 | Equals the group's device request through the `data.devices` envelope. |
| SimpleClient.SimpleWugClient.GetAllDevices | simple_wug_test.py:202-232 | Equals `AllDevicesSpec`. |
| SimpleClient.SimpleWugClient.CollectGroup | simple_wug_test.py:210-230 | One group of the outer loop equals `GroupStep`. |
| SimpleClient.SimpleWugClient.TakeGroupDevices | simple_wug_test.py:216-227 | The inner loop equals `TakeDevices`. |
| SimpleClient.Success | simple_wug_test.py:135-139 | A 200/201 answer yields its JSON body, or `{'status': 'success', 'response': text}` when the body is not JSON. |
| SimpleClient.PathNormalised | simple_wug_test.py:107-110 | The URL is the base URL plus the endpoint, with one `/` added when it lacks one. Normalising twice changes nothing. |
| SimpleClient.AuthenticateOutcome | simple_wug_test.py:65-93 | One authentication sends exactly the token request. It succeeds exactly on a 200 whose body is a dictionary with a usable `expires_in` whose expiry, `expires_in − 60` seconds on, is a datetime. It then stores `access_token` and that expiry. A non-200 or a transport failure is an authentication error. An expiry beyond the datetime range raises `OverflowError` with the token already stored and the expiry untouched. |
| SimpleClient.FreshTokenLifetime | simple_wug_test.py:88-97 | A token stored at `now` with lifetime `secs` is expired from `secs − 60` seconds after `now`, and not before. |
| SimpleClient.EnsureAuthenticatesIff | simple_wug_test.py:99-102 | The token request is sent exactly when there is no token or it has expired. Otherwise nothing changes. |
| SimpleClient.EnsureSendsAtMostOne | simple_wug_test.py:65-102 | An authentication sends at most one request and never drops one from the log. |
| SimpleClient.RetryIsFinal | simple_wug_test.py:140-152 | After a 401 the request is sent once more, and a second failure is not retried. Any status but 200/201, another 401 included, is a failed re-authentication. |
| SimpleClient.RequestSendsAtMostFour | simple_wug_test.py:104-165 | A request sends at most four requests: a token request, the request, and after a 401 one more token request and the retry. |
| SimpleClient.RequestStatusPolicy | simple_wug_test.py:135-162 | With a valid token, a 200/201 yields its body. Any status but 200, 201 and 401 is an API error naming the status, and a 401 goes to exactly one retry with the token dropped. |
| SimpleClient.FailureNamesServerMessage | simple_wug_test.py:153-160 | A failed request's message carries the `message` of the server's error object when it has one. |
| SimpleClient.EnvelopeShape | simple_wug_test.py:182-200 | Both envelopes answer `[]` unless the answer is a dictionary with `data`. Then they answer that entry's list, or `[]` when the key is missing. |
| SimpleClient.TakeDevicesConsistent | simple_wug_test.py:216-227 | Taking a group's devices keeps the collection consistent and only appends, so a device stays annotated with the first group it appears in. |
| SimpleClient.TakeDevicesOrigin | simple_wug_test.py:216-227 | Every entry a group adds is one of its devices with a truthy id, annotated with the group's id and name. |
| SimpleClient.TakeDevicesKeeps | simple_wug_test.py:216-227 | Entries already collected keep their place. |
| SimpleClient.TakeDevicesComplete | simple_wug_test.py:216-227 | For a group whose device ids are all hashable, every device with a truthy id ends up with its id among the collected keys. |
| SimpleClient.GroupStepSkips | simple_wug_test.py:210-230 | A group without an id costs no request and adds nothing. A group whose fetch fails adds nothing. |
| SimpleClient.AllDevicesUnique | simple_wug_test.py:202-232 | `get_all_devices` returns each device id at most once. Each entry is a dictionary with a truthy, hashable id, annotated with a group, and no two ids are equal as set keys. |
| SimpleClient.ExitZeroIffAllPassed | simple_wug_test.py:360-374 | `main` exits with 0 exactly when every test passed. |
| ListGroups.Insert | scripts/list_wug_groups.py:41 | The result holds the groups and `g`, as a multiset. |
| ListGroups.SortGroups | scripts/list_wug_groups.py:41 | The sorted list is a permutation of the input, and every group in it has a computable key. |
| ListGroups.LoopParentIsSortKey | scripts/list_wug_groups.py:41-54 | The display loop reads the parent the sort used: a missing or falsy `parentGroupId` is 0 for both. |
| ListGroups.SortGroupsSorted | scripts/list_wug_groups.py:41 | The groups come out in (parent, name) order and as a permutation of the input. |
| ListGroups.InsertStable | scripts/list_wug_groups.py:41 | Inserting a group moves it only past groups with a smaller key. Among the groups with any one key, it goes first. |
| ListGroups.SortGroupsStable | scripts/list_wug_groups.py:41 | The sort is stable: the groups that share a (parent, name) key come out in their input order. |
| ListGroups.ParentsNondecreasing | scripts/list_wug_groups.py:41 | In sorted order the parents never decrease. |
| ListGroups.SectionsOnePerParent | scripts/list_wug_groups.py:49-58 | The section headers have strictly increasing parents, so no parent gets two, and every group lies in the section of its own parent. |
| ListGroups.SectionStart | scripts/list_wug_groups.py:49-58 | Every group lies in a section opened for its own parent: the returned position is at or before it, starts a section, and has the same parent. |
| ListGroups.DisplayHeaders | scripts/list_wug_groups.py:50-68 | A header is printed before group `i` exactly when `HeaderAt` holds. It is the top-level header for parent 0 and otherwise names the parent the lookup finds. |
| ListGroups.ListWugGroups | scripts/list_wug_groups.py:41-71 | The printed lines and whether the script crashed equal `ListSpec`, including the `TypeError` of `{gid:4}` on an id that is `None`, a list or a dictionary. |
| ListGroups.ListSpec | scripts/list_wug_groups.py:41-71 | A sort key that cannot be computed crashes the script before anything is printed. Otherwise the first line is the total, equal to the number of groups. |
| ListGroups.MissingIdStopsAfterHeader | scripts/list_wug_groups.py:45-71 | A single group without an id prints the total and the top-level header, then crashes at its entry. |
| ListGroups.FindParentName | scripts/list_wug_groups.py:63-67 | The inner loop equals `ParentName`. |
| ListGroups.StepPrintsOneEntry | scripts/list_wug_groups.py:50-71 | A turn of the loop prints its group's entry, and no other, exactly when it does not crash. A group whose id cannot be formatted always crashes its turn. |
| ListGroups.DisplayKeepsPrinted | scripts/list_wug_groups.py:50-71 | The loop only appends to what has been printed. |
| ListGroups.DisplayPrintsEachOnce | scripts/list_wug_groups.py:50-71 | Without a crash, the loop prints the remaining groups' entries once each and in order. |
| ListGroups.DisplayPrintsPrefix | scripts/list_wug_groups.py:50-71 | A crash stops the loop after it printed a prefix of the remaining entries. |
| ListGroups.ListingReportsEveryGroup | scripts/list_wug_groups.py:41-71 | A listing that is not stopped by the sort starts with the total, equal to the number of groups. When it runs to the end it holds one entry per group, in sorted order; otherwise a prefix of them. |
| ListGroups.ParentNameFails | scripts/list_wug_groups.py:64-67 | The lookup raises exactly when an id that `int` rejects comes before any match. |
| ListGroups.ParentNameFound | scripts/list_wug_groups.py:64-67 | The parent's name is the name of the first group whose id is the parent id. |
| ListGroups.ParentNameUnknown | scripts/list_wug_groups.py:63-67 | With no matching id, the parent is `Unknown`. |
| Text.StrLeTotal | scripts/list_wug_groups.py:41 | Python's string order is total. |
| Text.StrLeTransitive | scripts/list_wug_groups.py:41 | Python's string order is transitive. |
| Text.StrLeAntisymmetric | scripts/list_wug_groups.py:41 | Python's string order is antisymmetric. |
| Text.Format04RoundTrip | scripts/development/dev_migration_helper.py:55 | `int(f"{n:04d}") == n`, and the text has at least four characters. |
| Text.StripEmptyIffBlank | scripts/development/dev_migration_helper.py:93-95 | `s.strip()` is empty exactly when `s` is empty or all whitespace, whitespace being every character for which `str.isspace` holds (including `\xa0` and the other Unicode spaces). |
| Migrations.Existing | scripts/development/dev_migration_helper.py:51 | The glob keeps exactly the file names matching `????_*.py`. |
| Migrations.MaxPrefixIsMaximum | scripts/development/dev_migration_helper.py:54 | The maximum raises exactly when some prefix is not an integer. Otherwise it is one of the prefixes and none is larger. |
| Migrations.CreateMigration | scripts/development/dev_migration_helper.py:49-68 | The file name is the next number, `_`, the name and `.py`. It fails exactly when the next number does. |
| Migrations.NoMigrationsGivesFirst | scripts/development/dev_migration_helper.py:53-59 | With no matching file the next number is `0001`, and the default file is `0001_auto_migration.py`. |
| Migrations.NextAboveAll | scripts/development/dev_migration_helper.py:53-57 | The next number is at least four characters and reads back as one more than the largest prefix, so it is above every prefix. It fails exactly when a prefix is not an integer. |
| Migrations.NextRunAdvances | scripts/development/dev_migration_helper.py:51-59 | For a four-digit number, the new file is matched by the glob with that number as prefix, so the next run gives the number after it. |
| Migrations.ChosenNameRule | scripts/development/dev_migration_helper.py:93-95 | An empty or whitespace-only input (Unicode whitespace included) gives `auto_migration`. Any other input gives its stripped text. The name is never empty. |
| Migrations.ChosenName | scripts/development/dev_migration_helper.py:93-95 | The name passed on is never empty: it is either `auto_migration` or the stripped input. |

## Left out

- The HTTP transport, TLS verification and timeouts are not modelled. `requests.Session` is a scripted list of outcomes, and the timeout value is only carried in the configuration. An empty host gives the probe URL `http://:9644`, which `requests` refuses before sending; the model sends that probe to the script like any other request.
- The Base64 encoding of Basic credentials is not modelled. The header keeps the (user, password) pair it encodes.
- `datetime.fromisoformat` in `normalize_wug_device_data` is a parameter: a parser that returns a timestamp or fails.
- Time is an integer clock passed in as `now`, in microseconds since the Unix epoch. `WUGAPIClient` truncates the time of its expiries to whole seconds, and the simple client does not. The range of `datetime` (years 1 to 9999) and of `timedelta` is modelled for the expiry computation. The difference between `datetime.now()` and Django's `timezone.now()` is not modelled.
- These `WUGAPIClient` methods are not modelled: `get_updated_devices`, `scan_network`, `get_scan_status`, `add_device`, `update_device`, `scan_ip_range`, `close`, `__enter__` and `__exit__`. The core does not call them.
- `params` (query strings) of `_make_request` is not modelled. No modelled caller passes it.
- `urljoin` is modelled for references without a scheme, query, fragment or parameters. The client's fixed endpoints are of this form. `/devices/<id>`, `/devices/<id>/metadata` and `/scan/<id>/results` are of this form only for ids without `?`, `#` or `;`. IPv6 host literals in `urlparse` are not modelled.
- Urls.AddressFromUrl: the hostname is lower-cased for ASCII letters only, where `urlparse` lower-cases every Unicode letter.
- A detail answer of `get_devices` that is not a dictionary is treated as absent, which leaves the device unchanged.
- Dictionary key order is not modelled, and `str()` of a dictionary is written as `{...}`.
- The Django ORM is modelled as three in-memory tables. The `models.py` file is not part of this model:
  - field defaults follow the fields the core reads;
  - the default ordering of logs is assumed newest first;
  - `NetBoxIPExport` rows are a separate list.
- Statuses are enumerations: `sync_status`, log `status` and `sync_type`.
- Django messages, `render`, redirects and permission decorators are not modelled; only their outcome is. `is_authenticated` is a boolean and `PermissionDenied` a 403 reply.
- Logging output is not modelled.
- The simple client words the error of `response.json()` on a 200 body that is not JSON with one fixed text, `Expecting value: line 1 column 1 (char 0)`, on both the authentication and the retry path. `requests` words it after the body's first error, for example "Expecting property name enclosed in double quotes: line 1 column 2 (char 1)" for `{a`.
- Floating-point values are not modelled: `Json` has no float. An answer such as `expires_in: 3600.0`, which `timedelta` accepts, or a float id cannot be represented.
- Django signal registration is not modelled: the handlers are methods called with the saved device.
- The simple client's form body is carried as one string value. The simple client raises the same exception kinds as `WUGAPIClient`.
- The `test_*` functions in `simple_wug_test.py` are not modelled, because they contact a fixed live host. `main` keeps only the tally of their results.
- ListGroups.ListSpec: requires every group's `name` to be text (`NameIsText`). Python's `sorted` raises only when it actually compares two groups with equal parents whose names cannot be ordered, so a lone group with a `None` name lists fine; the model does not track which comparisons the sort makes, and such listings are outside it. Groups are dictionaries.
- ListGroups.ListWugGroups: carries the same `NameIsText` requirement as `ListSpec`, for the same reason.
- Views.BulkSyncSwitchView: posted ids are taken as integers. Django's `ValueError` for an id that is not numeric, which makes the view fail without updating anything, is not modelled.
- ListGroups: the text of each printed line (the `{gid:4}` padding of an id that can be formatted, the decoration) is abstracted into `Line` values. Django setup and `client.get_device_groups()` are inputs.
- Text.ParseInt: the model's `int()` on text accepts ASCII digits only; Python also accepts underscores between digits and non-ASCII decimal digits. It is used for migration prefixes and for the listing's parent key and parent-id lookup, so such values count there as a `ValueError`.
- Migrations: the glob's directory order, hidden files and sub-directories are not modelled. Django setup, printing and `input()` are left out; the functions take the file names and the typed text.
- WugClient.ApiClient.TestConnection: the first probe goes to the corrected root URL (`RootUrl`), not to `base_url.split('/api')[0]` as written. For hosts beginning with `api` the written probe has no host and the test always fails (`TestConnectionWritten`, `TestConnectionApiHostFails`); for every other clean host the two agree (`TestConnectionWrittenAgrees`). See "## Findings".
- WugClientProperties.TestConnectionSucceedsIff: stated for the corrected probe; for hosts beginning with `api` the test as written never succeeds (`TestConnectionApiHostFails`).
- `verify_installation.py`, `test_updated_wug_client.py`, `navigation.py` and the test settings are outside the core and not modelled.

## Findings

| source | as written | input that shows it | evidently intended | confidence | as-written member | corrected member |
|---|---|---|---|---|---|---|
| netbox_wug_sync/wug_client.py:291 | The connectivity probe URL is `self.base_url.split('/api')[0]`, which cuts at the first `/api` in the URL. | host `api.example.com` with `use_ssl=False`: the base URL `http://api.example.com:9644/api` splits to `http:/`, a URL with no host. | The server root `http://api.example.com:9644`, the base URL without its trailing `/api`. | not executed | WugClientProperties.ProbeUrlApiHost | WugClient.RootUrl |
