# mimo-rpc-service client core, modelled in Dafny

This project models the request-shaping layer and the shared-connection state of a Go client for a storage daemon's JSON-RPC control socket.

- `client/client.go` is modelled in `client.dfy` (module `Client`):
  - `BuildParams` is a loop method. It is proved equal to the filter function `WireParams`, which drops `nil` and `""` and keeps everything else unchanged.
  - The package globals (`socketAddr`, the `sync.Once`, `clientInstance`) are the class `Client.Client`.
  - Each of its methods is tied to a pure step function: `GetClientStep`, `CallStep` and `Step`.
  - Lemmas over arbitrary sequences of calls (`Run`) prove how the one-shot initialiser behaves.
- `service/bdev.go` is modelled in `bdev.dfy` (module `Bdev`):
  - Each `BdevService` operation has a pure request builder. The builder returns either a local validation error or a `Request`, which is a remote method plus its filtered parameters.
  - The class `Bdev.BdevService` sends that request through the shared client.
- `gostrings.dfy` (module `GoStrings`) models Go's `strings.Fields` and `unicode.IsSpace`. The RAID base-device re-split uses them.
- `results.dfy` holds `Option` and `Result`.

The foreign calls are oracle parameters:
- `DialResult` is what connecting to the Unix socket returns if the initialiser runs.
- `RpcReply` is what the client library returns for a request handed to it: the daemon's answer, or an error.

In three places the code behaves differently from what a reader might expect. The model follows the code:
- A failed first connection is not sticky. Only the call that ran the initialiser sees the error. Every later `GetClient` returns a nil client and a nil error, and every later `Call` fails with the nil-client error without sending anything (`Client.SettledIsFrozen`, `Client.FirstConnect`).
- `GetBdevs("", 0)` sends `{"timeout_ms": 0}`, not `{}`. Only the empty name is dropped (`Bdev.RequestExamples`).
- `CreateRaidBdev` always sends `strip_size_kb` and `superblock`, even when they are 0 or false. The `omitempty` tags play no part, because the parameters are built from a map.

## Model

| member | source | states |
|---|---|---|
| `Client.BuildParams` | client/client.go:64-80 | Whatever order the entries are visited in, the result is exactly the filtered map `WireParams(args)` |
| `Client.WireParamsKeys` | client/client.go:66-78 | A key is sent iff it is in the input with a value that is neither nil nor the empty string |
| `Client.WireParamsValues` | client/client.go:70-77 | Output keys are a subset of input keys, and every kept key carries its input value unchanged |
| `Client.WireParamsKeepsNonEmpty` | client/client.go:67-77 | Integers (0 included), booleans (false included), every string list (empty included) and non-empty strings are always kept |
| `Client.WireParamsIdempotent` | client/client.go:64-80 | Filtering an already filtered map changes nothing |
| `Client.EffectiveAddress` | client/client.go:28-31 | The dialled address is the configured one when non-empty, else `/var/tmp/mimo.sock`, and is never empty |
| `Client.Client.constructor` | client/client.go:13-17 | At start there is no address, the once has not run, and there is no client |
| `Client.Client.SetSocketAddress` | client/client.go:20-22 | Only `socketAddr` changes |
| `Client.Client.GetClient` | client/client.go:25-43 | New globals and returned pair are those of `GetClientStep`; the instance stays nil until the once has run |
| `Client.Client.Close` | client/client.go:83-87 | Closes the current instance if there is one, and changes no global |
| `Client.Client.Call` | client/client.go:46-61 | Gets the client; on a connect error returns it; otherwise returns the daemon's result, or wraps its error with the method name |
| `Client.StepConsistent` | client/client.go:27-38 | No call sets `clientInstance` before the once has run |
| `Client.BeforeConnect` | client/client.go:20-22 | Until something goes through the once, the only state change is the address, and nothing is dialled |
| `Client.InitialiserRunsAtMostOnce` | client/client.go:27-38 | Over any sequence of calls, the connect runs at most once. It runs exactly once if some `GetClient` or `Call` happens before the once is done |
| `Client.SettledIsFrozen` | client/client.go:27-42 | After the once has run, later `SetSocketAddress` calls change only `socketAddr`, and nothing is dialled again. Every later `GetClient`/`Call` gets the stored instance with no connection error. After a failed init that instance is nil: each `Call` sends nothing and returns `NilClient`. After a successful init each `Call` sends its request on the instance and returns the daemon's answer, or its error wrapped with the method name. `Close` reports the stored instance |
| `Client.FirstConnect` | client/client.go:25-43 | The first call through the once dials the address set at that moment, or the default. Its connect outcome is reported to it alone: a first `Call` whose dial fails sends nothing and returns `ConnectFailed` with that address and cause, and one whose dial succeeds sends its request. Every later call gets the instance fixed there, or nil after a failure, with no connection error. After a failure every later `Call` sends nothing and returns `NilClient` |
| `Client.CloseNeverResets` | client/client.go:83-87 | `Close` never changes the globals, so closing twice is the same as closing once |
| `GoStrings.Fields` | service/bdev.go:163 | Every field `strings.Fields` returns is non-empty and free of white space |
| `GoStrings.FieldsKeepOrder` | service/bdev.go:163 | Concatenating the fields gives the input with all white space removed, so nothing else is lost or reordered |
| `GoStrings.FieldsEmptyIffAllSpace` | service/bdev.go:163 | There are no fields exactly when the input is all white space |
| `GoStrings.FieldsOfJoin` | service/bdev.go:163 | Splitting a space-joined list of fields gives that list back |
| `GoStrings.FieldsOfField` | service/bdev.go:163 | A non-empty, white-space-free string splits to itself alone |
| `GoStrings.FieldsSplitAtSpace` | service/bdev.go:163 | Every white-space character is a cut: the fields of `a + [c] + b` are the fields of `a` followed by the fields of `b` |
| `Bdev.RpcNamesDistinct` | service/bdev.go:69-298 | Every operation names its own remote method; no two share one |
| `Bdev.SentNameIdentifiesOperation` | service/bdev.go:26-38 | When a request is sent, its method name belongs to the requested operation and to no other |
| `Bdev.GetBdevsRequest` | service/bdev.go:63-69 | `bdev_get_bdevs`; keys within {name, timeout_ms}; name only when non-empty; `timeout_ms` always, 0 included |
| `Bdev.AttachNvmeControllerRequest` | service/bdev.go:89-99 | Rejected iff name, trtype or traddr is empty. Otherwise the method is `bdev_nvme_attach_controller` and the params are exactly those three strings |
| `Bdev.NumBlocks` | service/bdev.go:122 | The block count is the largest n with n*blockSize <= totalSizeMB*1048576 (truncated quotient) |
| `Bdev.CreateMallocBdevRequest` | service/bdev.go:117-131 | Rejected iff a size is non-positive. Otherwise the method is `bdev_malloc_create`, and `block_size` and `num_blocks` are always sent. `name` and `uuid` are sent only when set, and no other key is sent |
| `Bdev.NormalizeBaseBdevs` | service/bdev.go:160-164 | A list is unchanged unless it has exactly one entry and that entry contains ' '. The re-split entries are non-empty and white-space free, and they keep the input's non-space characters in order. The result is empty iff the entry is all white space. How the entry is cut is pinned by `GoStrings.FieldsSplitAtSpace` (a cut at every white-space character) and `GoStrings.FieldsOfField` (no cut inside a device name) |
| `Bdev.CreateRaidBdevRpc` | service/bdev.go:139-175 | Rejected iff the name or level is empty or the list is empty. Otherwise the method is `bdev_raid_create`, with name, level, the normalised list, `strip_size_kb` and `superblock` always sent. `uuid` is sent only when set |
| `Bdev.DetachNvmeControllerRequest` | service/bdev.go:192-199 | No local check; `bdev_nvme_detach_controller`; each of name/trtype/traddr sent only when non-empty, nothing else |
| `Bdev.DeleteMallocBdevRequest` | service/bdev.go:213-218 | No local check; `bdev_malloc_delete`; params are `{name}`, or `{}` for an empty name |
| `Bdev.DeleteRaidBdevRequest` | service/bdev.go:232-237 | No local check; `bdev_raid_delete`; params are `{name}`, or `{}` for an empty name |
| `Bdev.AddRaidBaseBdevRequest` | service/bdev.go:251-257 | No local check; `bdev_raid_add_base_bdev`; raid_bdev/base_bdev sent only when non-empty, nothing else |
| `Bdev.RemoveRaidBaseBdevRequest` | service/bdev.go:271-276 | No local check; `bdev_raid_remove_base_bdev`; params are `{name}`, or `{}` for an empty name |
| `Bdev.WipeSuperblockRequest` | service/bdev.go:292-298 | No local check; `bdev_wipe_superblock`; name only when non-empty; `size` always, 0 included |
| `Bdev.Perform` | service/bdev.go:26-38 | A rejected request leaves the client state alone and sends nothing. A built request moves the state exactly as `GetClient` does. A connect error or a nil client reaches the caller wrapped with the operation, and nothing is sent. With a live client the built request is handed to the library: the daemon's result is returned, or its error is wrapped with the method name and the operation. Once the client is settled, the state does not change |
| `Bdev.BdevService.New` | service/bdev.go:18-23 | A non-empty address is handed to the client; an empty one leaves the client untouched |
| `Bdev.BdevService.Submit` | service/bdev.go:26-38 | The new client state and the result are those of `Perform` |
| `Bdev.BdevService.GetBdevs` | service/bdev.go:63-74 | Sends `GetBdevsRequest` through the client (`Perform`) |
| `Bdev.BdevService.AttachNvmeController` | service/bdev.go:89-104 | Validates, then sends `AttachNvmeControllerRequest` (`Perform`) |
| `Bdev.BdevService.CreateMallocBdev` | service/bdev.go:117-136 | Validates, then sends `CreateMallocBdevRequest` (`Perform`) |
| `Bdev.BdevService.CreateRaidBdev` | service/bdev.go:155-180 | Validates, then sends `CreateRaidBdevRpc` (`Perform`) |
| `Bdev.BdevService.DetachNvmeController` | service/bdev.go:192-204 | Sends `DetachNvmeControllerRequest` (`Perform`) |
| `Bdev.BdevService.DeleteMallocBdev` | service/bdev.go:213-223 | Sends `DeleteMallocBdevRequest` (`Perform`) |
| `Bdev.BdevService.DeleteRaidBdev` | service/bdev.go:232-242 | Sends `DeleteRaidBdevRequest` (`Perform`) |
| `Bdev.BdevService.AddRaidBaseBdev` | service/bdev.go:251-262 | Sends `AddRaidBaseBdevRequest` (`Perform`) |
| `Bdev.BdevService.RemoveRaidBaseBdev` | service/bdev.go:271-281 | Sends `RemoveRaidBaseBdevRequest` (`Perform`) |
| `Bdev.BdevService.WipeSuperblock` | service/bdev.go:292-303 | Sends `WipeSuperblockRequest` (`Perform`) |
| `Bdev.RaidValidationPrecedesConnection` | service/bdev.go:155-158 | A RAID request is rejected, with no state change and nothing sent, exactly when a required field is empty |
| `Bdev.BaseBdevsResplit` | service/bdev.go:160-164 | A single space-joined entry of device names is split back into those names in order; a single device name comes back as itself |
| `Bdev.BaseBdevsCutAtSpace` | service/bdev.go:160-164 | Once the single entry holds a space, it is cut at every white-space character, tabs and newlines included |
| `Bdev.RaidSplitExamples` | service/bdev.go:160-164 | `["bdev1 bdev2 bdev3"]` becomes three names; `["bdev1", "bdev2 bdev3"]` is sent unchanged |
| `Bdev.RaidWhiteSpaceExample` | service/bdev.go:160-164 | `["bdev1\t bdev2"]` becomes `["bdev1", "bdev2"]`: the tab and the space separate alike |
| `Bdev.RaidBlankEntryExamples` | service/bdev.go:156-173 | `["  "]` passes validation and is sent as an empty list; `["a\tb"]` is not split |
| `Bdev.RequestExamples` | service/bdev.go:63-129 | `GetBdevs("", 0)` sends `{timeout_ms: 0}` and `GetBdevs("Malloc0", 0)` adds the name. Attach with empty fields is rejected, and so is malloc with size 0. 1 MiB of 512-byte blocks is 2048 blocks |

## Left out

- Bdev.CreateMallocBdevRequest: `totalSizeMB` is an integer. The source takes a `float64` and truncates `totalSizeMB*1024*1024/blockSize` to `int`. Fractional sizes and out-of-range float-to-int conversions are not modelled.
- Bdev.NumBlocks: the quotient is an unbounded integer, so Go's 64-bit `int` limits are not modelled. This also applies to `timeoutMs`, `size` and `stripSizeKB`.
- Client.Client.Call: the marshal/unmarshal round trip of the result (`json.MarshalIndent` in `Call`, `json.Unmarshal` in `callRPC`) is treated as the identity. Their serialization and decode errors are not modelled.
- Client.Client.Call: after a failed first connection, the source hands a nil `*spdk.Client` to the foreign client library. What that library does with it is not part of this model, so it is modelled as the `NilClient` error.
- Client.Client.GetClient: the connect call (`spdk.CreateClientWithJsonCodec`) is an oracle outcome parameter. The daemon's replies are likewise parameters, and socket I/O is not modelled.
- Client.Client.Close: the foreign client's own `Close` is abstracted as reporting which instance was closed. Closing is not tracked: a later `Call` on the closed instance is modelled as being handed to the client library, and its reply parameter stands for the error that library returns on a closed connection.
- The concurrency guarantee of `sync.Once` is not modelled, because only sequential executions are modelled: "runs at most once" is proved for sequences of calls, not for racing callers.
- Error messages and `%w` wrapping chains are modelled as tags (`ClientError`, `Violation`, `ServiceError`), not as strings.
- GoStrings.Fields works on characters (Unicode code points). Go works on UTF-8 bytes, and invalid UTF-8 is not modelled.
- The `socketAddr` field that `BdevService` stores is never read by the source, and is kept only as a constant.
- The example programs (an HTTP front end with its `"PCIe"` trtype default, and a command-line demo) are not part of this model.
