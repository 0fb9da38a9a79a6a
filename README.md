# Ansible modules for an F5 BIG-IP appliance, modelled in Dafny

The repository holds Ansible modules that configure an F5 BIG-IP load
balancer through its iControl REST API. This project models their core:

- **`icontrol_install_config.py`**: the `BIG_IP` connection object and the
  dispatcher on top of it (`icontrol.dfy`, module `IControl`). The object
  keeps a uri, the last status code, the last response and a `changed`
  flag. Its GET/POST/PATCH/DELETE helpers turn the transport's answer into
  a result (`True`, `False`, or `None` for a connection error, which also
  records status 599). `install_config` probes `uri + name` and then PATCHes
  the object (name moved from the body into the uri) when it exists, or
  POSTs the body unchanged when it does not. `main` dispatches on the
  upper-cased method (`PATCH`, `POST`, `_POST_`, `DELETE`).
- **`icontrol_gather_facts.py`**: `get_facts` (`gather_facts.dfy`, module
  `GatherFacts`). It prefixes a missing leading slash, GETs
  `https://<host><uri>`, and renames the answer's `items` key to
  `bigip_items`. The module succeeds exactly on status 200.
- **`bigip_check.py`**: the readiness driver (`bigip_check.dfy`, module
  `BigipCheck`). It optionally saves the configuration, then optionally
  reloads the device. It then polls `/mgmt/tm/cm/device/` once per value of
  `range(0, timeout, interval)`, stops at the first 200, and returns the
  first item of the answer as facts.

`http.dfy` (module `Http`) holds what the three share: parsed JSON values,
the transport's reply, requests, and the URL `"https://" + host + path`.

How I/O is represented:

- Every network call takes the transport's reply as a parameter:
  `Refused(reason)` for a connection error, or `Answered(status, body)`.
- A body is an `Option<JsonObject>`. `None` means text that is not a JSON
  object.
- The connection object records every request it sends, in order, in its
  `sent` field. That field stands for the wire. It lets the contracts state
  which requests go out (verb, URL, body) and how many of them change state.
- The readiness poll's answers are a function from the attempt number to a
  reply.
- Each module's `main` becomes a `RunModule` method. It returns the
  outcome (exit, failure with its message, or an uncaught exception) and
  the requests sent.

Behaviour of the code worth knowing:

- POST and PATCH succeed only on status 200. A 201 fails the run, and a
  400 on PATCH is a failure, not a no-op.
- DELETE succeeds on 200 (changed) and on 404 (not changed).
- A failed or refused existence probe is not an error: it leads to a POST.
- There is no partition or identity check. The name is taken from the body
  when present, and a body without a name is simply POSTed.
- Several inputs make the Python code raise an uncaught exception. The
  model reports each as a crash outcome:
  - an empty uri (`uri[0]`);
  - a non-string `"name"` in a POST body (`uri + name`);
  - in `get_facts`, a connection error. `genericGET` returns the exception
    object, and `get_facts` then assigns `bigip_items` into it, which
    raises;
  - in `get_facts`, an answer that is not JSON (`json.loads`);
  - in the readiness driver, an interval of 0 (`range` raises);
  - in the readiness driver, a negative interval after a failed attempt
    (`time.sleep` with a negative length raises).
- Save and reload both POST to `/mgmt/tm/sys/config/`.

## Model

| member | source | states |
|---|---|---|
| `Http.Url` | icontrol_gather_facts.py:110 | the request URL is `https://`, then the host, then the path, with nothing in between |
| `Http.UrlInjective` | icontrol_install_config.py:203 | on one host, equal URLs mean equal paths, so the path a request targets can be read back from its URL |
| `IControl.ValidateUri` | icontrol_install_config.py:186-195 | the result starts and ends with `/`; it is the input with a `/` added in front exactly when the input lacks one there, and a `/` added at the end exactly when the input lacks one there; at most 2 longer; needs a non-empty input |
| `IControl.ValidateUriIdempotent` | icontrol_install_config.py:186-195 | normalising twice gives the same uri as normalising once |
| `IControl.ValidateUriKeepsSlashed` | icontrol_install_config.py:189-193 | a uri that already starts and ends with `/` is returned unchanged |
| `IControl.Upper` | icontrol_install_config.py:375 | upper-casing keeps the length and maps every character through ASCII upper-casing |
| `IControl.UpperIdempotent` | icontrol_install_config.py:375-385 | upper-casing an upper-cased name changes nothing, so the upper-cased method stored on the object and the one looked up agree |
| `IControl.Dispatch` | icontrol_install_config.py:379-387 | after upper-casing, `PATCH` selects update, `POST` install, `_POST_` post-only and `DELETE` delete, each in both directions; any other name selects nothing ("Invalid method") |
| `IControl.DispatchIgnoresCase` | icontrol_install_config.py:385 | dispatching an upper-cased name selects the same function as dispatching the name as given |
| `IControl.BigIp.constructor` | icontrol_install_config.py:173-184 | a new connection has the normalised uri, status 0, no response, `changed` false and nothing sent |
| `IControl.BigIp.Exchange` | icontrol_install_config.py:203-214 | one request to this host is appended to the wire; the status becomes the reply's (599 on a connection error) and the response the parsed body, no response, or the error text; uri and `changed` are untouched |
| `IControl.BigIp.GenericDelete` | icontrol_install_config.py:197-221 | DELETE of the uri; 200 gives true and sets `changed`, 404 gives true and leaves `changed`, any other status false, a connection error None with status 599; `changed` is never reset |
| `IControl.BigIp.GenericGet` | icontrol_install_config.py:223-246 | GET of the given path, or of the uri when none or an empty one is given; true exactly on 200, None on a connection error; uri and `changed` unchanged |
| `IControl.BigIp.GenericPost` | icontrol_install_config.py:248-268 | POST of the body to the uri; true and `changed` set exactly on 200, None with status 599 on a connection error; `changed` is never reset |
| `IControl.BigIp.GenericPatch` | icontrol_install_config.py:270-291 | PATCH of the body to the uri; true and `changed` set exactly on 200, None with status 599 on a connection error; `changed` is never reset |
| `IControl.BigIp.NodeExists` | icontrol_install_config.py:293-308 | None with nothing sent when the body is not JSON or has no `"name"`; otherwise one GET of `uri + name` whose result is true exactly on 200; uri never altered |
| `IControl.BigIp.ModifyUrlAndBody` | icontrol_install_config.py:310-322 | the uri gets the body's name appended; the returned body has the same keys and values minus `"name"`; nothing is sent |
| `IControl.InstallWireShape` | icontrol_install_config.py:329-338 | install sends at most a read-only probe and then exactly one state-changing request, last; a PATCH body never contains `"name"` |
| `IControl.InstallConfig` | icontrol_install_config.py:329-338 | when the probe of the named object answers 200, PATCH of the body without its name to `uri + name`; otherwise (no name, not JSON, probe failed or refused) POST of the unmodified body to the unchanged uri; result and `changed` follow that one call |
| `IControl.UpdateConfig` | icontrol_install_config.py:341-343 | one PATCH of the body as given to the uri |
| `IControl.DeleteConfig` | icontrol_install_config.py:346-348 | one DELETE of the uri; the body is ignored |
| `IControl.PostConfig` | icontrol_install_config.py:351-353 | one POST of the body to the uri, never a PATCH |
| `IControl.RunModule` | icontrol_install_config.py:356-399 | an empty uri crashes and an unknown method fails with "Invalid method", both with nothing sent; `PATCH`, `_POST_` and `DELETE` send exactly their one request (DELETE without a body); `POST` sends what install sends; every completed run makes exactly one state-changing call, and exits with `changed` true exactly when that call answered 200 if its result was truthy, else fails with that call's status code and response |
| `GatherFacts.LeadingSlash` | icontrol_gather_facts.py:133-134 | a `/` is prepended when the uri lacks a leading one; otherwise the uri is unchanged |
| `GatherFacts.GetFacts` | icontrol_gather_facts.py:104-141 | one GET of `https://` + host + slashed uri; for a JSON answer the status is returned unchanged, and the facts have no `items`, have `bigip_items` holding the former `items` (an empty object when there was none), and keep every other key; a connection error or a non-JSON answer raises |
| `GatherFacts.ItemsRenamedUnique` | icontrol_gather_facts.py:136-140 | the renaming fixes the facts completely: two results that both satisfy it for one answer are equal |
| `GatherFacts.RunModule` | icontrol_gather_facts.py:147-167 | exits with the result exactly when the status is 200, fails with the status code and the result otherwise, and crashes on an empty uri, a connection error or a non-JSON answer |
| `BigipCheck.BuildFacts` | bigip_check.py:129-134 | the first element of the response's `items` when there is one (the first character when `items` is a string), otherwise `{"error": "Response not valid"}` |
| `BigipCheck.RangeCount` | bigip_check.py:179 | the number of values `range(0, timeout, interval)` yields; zero exactly when the timeout is not beyond 0 in the step's direction |
| `BigipCheck.RangeCountIsCeiling` | bigip_check.py:179 | for a positive interval the attempts are ceil(timeout / interval), and none when the timeout is not positive |
| `BigipCheck.DefaultAttempts` | bigip_check.py:145-146 | the default timeout 40 and interval 10 give four attempts |
| `BigipCheck.FirstReady` | bigip_check.py:179-182 | the first attempt whose probe answers 200 (all earlier ones did not), or the number of attempts when none does |
| `BigipCheck.Check.constructor` | bigip_check.py:94-97 | the change counter starts at 0 |
| `BigipCheck.Check.SaveConfig` | bigip_check.py:99-104 | the shared uri becomes `/mgmt/tm/sys/config/` and the save command is POSTed there; true exactly on 200 |
| `BigipCheck.Check.ReloadDevice` | bigip_check.py:106-111 | the shared uri becomes `/mgmt/tm/sys/config/` and the reboot command is POSTed there; true exactly on 200 |
| `BigipCheck.Check.TestReady` | bigip_check.py:113-121 | the shared uri becomes `/mgmt/tm/cm/device/` and one GET is sent there; ready exactly on 200; `changed` untouched |
| `BigipCheck.Check.DeviceChanged` | bigip_check.py:123-127 | true exactly when the change counter is non-zero |
| `BigipCheck.AwaitReady` | bigip_check.py:179-185 | at most the given number of probes of `/mgmt/tm/cm/device/`, each appended to the wire; the first that answers 200 ends in "Ready" with the first item of its response as facts; with a negative interval a failed first probe raises; with no 200 it fails with "Device not ready"; afterwards the shared connection points at the device endpoint and holds the last probe's status and response (all unchanged when no probe was sent), and its `changed` flag is untouched |
| `BigipCheck.ProbesSent` | bigip_check.py:179-183 | the number of probes the loop sends: through the first 200, all of them when none answers, one when a negative interval makes the first wait raise; never more than the attempts, and zero exactly when there are no attempts |
| `BigipCheck.RunModule` | bigip_check.py:137-185 | save is sent before reload and a failed save stops the run before any reload; after both, an interval of 0 crashes; otherwise probes are sent one per attempt until the first 200, which ends in "Ready" with the first item as facts and `changed` true exactly when a save or reload was done; with no 200 in `RangeCount(timeout, interval)` attempts it fails with "Device not ready"; a negative interval crashes after a failed attempt |

## Left out

- `F5_sdk_LTM_node.py` is not part of this model: it only sequences calls into the external f5-sdk library, and its `update_LTM` is an empty stub.
- HTTP transport: `requests` calls, TLS with `verify=False`, basic authentication, the JSON content-type header and `disable_warnings` are replaced by the reply parameter. For the same reason the `BIG_IP` fields `username`, `password` and `debug` are not modelled. Neither is the stored upper-cased `method`, which nothing reads.
- JSON text: parsing and serialising (`json.loads`, `json.dumps`) are not modelled, and bodies are parsed objects or "not JSON". Valid JSON that is not an object (a list, a string) is folded into "not JSON", both in request bodies (on which `body["name"]` would raise) and in replies: the helpers store such a reply's parsed value in `response`, where the model records no response, so the `content` reported on exit and the response in a failure message differ for such replies. A body parameter that is neither text nor a mapping is not modelled either. Numbers are integers only.
- AnsibleModule plumbing: the argument specifications, `exit_json`/`fail_json` process exit and the `sys.path` import fallback. The failure messages `"<status_code> <response>"` and `"status_code= <code> <response>"` are kept as structured values (status code plus response), not rendered text.
- IControl.Upper: covers ASCII letters only, because Python's full Unicode upper-casing table is not modelled.
- Timing: `time.sleep`, wall-clock time and the device's actual reboot are out of scope. The only effect of `sleep` that is kept is the exception it raises for a negative interval.
