/** The block-device facade (`service/bdev.go`). Each operation checks its
    required fields, builds a literal argument map, filters it with
    `BuildParams` and names a fixed remote method; the request builders are
    functions, and `BdevService` sends what they build through the shared
    client. */
module Bdev {
  import opened Results
  import opened Client
  import opened GoStrings

  /** The remote methods the facade calls. */
  datatype Rpc =
    | BdevGetBdevs
    | BdevNvmeAttachController
    | BdevMallocCreate
    | BdevRaidCreate
    | BdevNvmeDetachController
    | BdevMallocDelete
    | BdevRaidDelete
    | BdevRaidAddBaseBdev
    | BdevRaidRemoveBaseBdev
    | BdevWipeSuperblock
  {
    /** The JSON-RPC method name on the wire. */
    function Name(): string {
      match this
      case BdevGetBdevs => "bdev_get_bdevs"
      case BdevNvmeAttachController => "bdev_nvme_attach_controller"
      case BdevMallocCreate => "bdev_malloc_create"
      case BdevRaidCreate => "bdev_raid_create"
      case BdevNvmeDetachController => "bdev_nvme_detach_controller"
      case BdevMallocDelete => "bdev_malloc_delete"
      case BdevRaidDelete => "bdev_raid_delete"
      case BdevRaidAddBaseBdev => "bdev_raid_add_base_bdev"
      case BdevRaidRemoveBaseBdev => "bdev_raid_remove_base_bdev"
      case BdevWipeSuperblock => "bdev_wipe_superblock"
    }
  }

  /** A request ready for `callRPC`: the remote method and the filtered parameters. */
  datatype Request = Request(rpc: Rpc, params: Params)

  /** The local checks that reject a call before any connection is made. */
  datatype Violation =
    | MissingNvmeFields   // "name, trtype, and traddr are required"
    | NonPositiveSize     // "total_size and block_size must be positive"
    | MissingRaidFields   // "name, raid_level, and base_bdevs are required"

  datatype ServiceError =
    | Invalid(violation: Violation)
    | Failed(rpc: Rpc, cause: ClientError)  // "<operation> failed: <cause>"

  /** `key` is sent with value `v`. */
  predicate Sends(p: Params, key: string, v: Value) {
    key in p && p[key] == v
  }

  /** An optional string argument: omitted when empty, sent as is otherwise. */
  predicate SendsIfSet(p: Params, key: string, s: string) {
    if s == "" then key !in p else Sends(p, key, Str(s))
  }

  /** No two operations share a remote method. */
  lemma RpcNamesDistinct(a: Rpc, b: Rpc)
    ensures a.Name() == b.Name() ==> a == b
  {
  }

  // ---------------------------------------------------------------------------
  // Request builders

  /** `GetBdevs`: the name filter is dropped when empty, `timeout_ms` is always sent, 0 included. */
  function GetBdevsRequest(name: string, timeoutMs: int): (r: Request)
    ensures r.rpc == BdevGetBdevs
    ensures r.params.Keys <= {"name", "timeout_ms"}
    ensures SendsIfSet(r.params, "name", name)
    ensures Sends(r.params, "timeout_ms", Int(timeoutMs))
  {
    Request(BdevGetBdevs, WireParams(map["name" := Str(name), "timeout_ms" := Int(timeoutMs)]))
  }

  /** `AttachNvmeController`: all three fields are required, and then all three are sent. */
  function AttachNvmeControllerRequest(name: string, trtype: string, traddr: string)
    : (r: Result<Request, Violation>)
    ensures r.Err? <==> name == "" || trtype == "" || traddr == ""
    ensures r.Err? ==> r.error == MissingNvmeFields
    ensures r.Ok? ==> r.value.rpc == BdevNvmeAttachController
    ensures r.Ok? ==> r.value.params == map["name" := Str(name), "trtype" := Str(trtype), "traddr" := Str(traddr)]
  {
    if name == "" || trtype == "" || traddr == "" then Err(MissingNvmeFields)
    else
      Ok(Request(BdevNvmeAttachController,
                 WireParams(map["name" := Str(name), "trtype" := Str(trtype), "traddr" := Str(traddr)])))
  }

  /** The block count of a malloc device: the whole number of `blockSize`-byte
      blocks that fit in `totalSizeMB` MiB (Go truncates the quotient, which
      for positive operands is the floor). */
  function NumBlocks(totalSizeMB: int, blockSize: int): (n: nat)
    requires totalSizeMB > 0 && blockSize > 0
    ensures n * blockSize <= totalSizeMB * 1048576 < (n + 1) * blockSize
  {
    var bytes := totalSizeMB * 1024 * 1024;
    var n := bytes / blockSize;
    assert bytes == n * blockSize + bytes % blockSize;
    n
  }

  /** `CreateMallocBdev`: both sizes must be positive; `block_size` and
      `num_blocks` are always sent, `name` and `uuid` only when set. */
  function CreateMallocBdevRequest(name: string, uuid: string, totalSizeMB: int, blockSize: int)
    : (r: Result<Request, Violation>)
    ensures r.Err? <==> totalSizeMB <= 0 || blockSize <= 0
    ensures r.Err? ==> r.error == NonPositiveSize
    ensures r.Ok? ==> r.value.rpc == BdevMallocCreate
    ensures r.Ok? ==> r.value.params.Keys <= {"name", "uuid", "block_size", "num_blocks"}
    ensures r.Ok? ==> SendsIfSet(r.value.params, "name", name) && SendsIfSet(r.value.params, "uuid", uuid)
    ensures r.Ok? ==> Sends(r.value.params, "block_size", Int(blockSize))
    ensures r.Ok? ==> Sends(r.value.params, "num_blocks", Int(NumBlocks(totalSizeMB, blockSize)))
  {
    if totalSizeMB <= 0 || blockSize <= 0 then Err(NonPositiveSize)
    else
      var numBlocks := NumBlocks(totalSizeMB, blockSize);
      Ok(Request(BdevMallocCreate,
                 WireParams(map["name" := Str(name), "uuid" := Str(uuid),
                                "block_size" := Int(blockSize), "num_blocks" := Int(numBlocks)])))
  }

  /** The argument of `CreateRaidBdev`. */
  datatype CreateRaidBdevRequest = CreateRaidBdevRequest(
    name: string,
    raidLevel: string,
    baseBdevs: seq<string>,
    stripSizeKB: int,
    uuid: string,
    superblock: bool)

  /** The base-device list as sent: a list of exactly one entry that contains a
      space (' ', not any white space) is re-split with `strings.Fields`; every
      other list goes out unchanged, spaces and all. */
  function NormalizeBaseBdevs(list: seq<string>): (r: seq<string>)
    ensures !(|list| == 1 && ' ' in list[0]) ==> r == list
    ensures |list| == 1 && ' ' in list[0] ==>
      && (forall i :: 0 <= i < |r| ==> IsField(r[i]))
      && Concat(r) == RemoveSpaces(list[0])
      && (r == [] <==> AllSpace(list[0]))
  {
    if |list| == 1 && ' ' in list[0] then
      FieldsKeepOrder(list[0]);
      FieldsEmptyIffAllSpace(list[0]);
      Fields(list[0])
    else list
  }

  /** `CreateRaidBdev`: name, level and a non-empty list are required;
      `strip_size_kb` and `superblock` are always sent (0 and false included),
      `uuid` only when set. */
  function CreateRaidBdevRpc(req: CreateRaidBdevRequest): (r: Result<Request, Violation>)
    ensures r.Err? <==> req.name == "" || req.raidLevel == "" || |req.baseBdevs| == 0
    ensures r.Err? ==> r.error == MissingRaidFields
    ensures r.Ok? ==> r.value.rpc == BdevRaidCreate
    ensures r.Ok? ==> r.value.params.Keys <= {"name", "raid_level", "base_bdevs", "strip_size_kb", "uuid", "superblock"}
    ensures r.Ok? ==> Sends(r.value.params, "name", Str(req.name))
    ensures r.Ok? ==> Sends(r.value.params, "raid_level", Str(req.raidLevel))
    ensures r.Ok? ==> Sends(r.value.params, "base_bdevs", StrList(NormalizeBaseBdevs(req.baseBdevs)))
    ensures r.Ok? ==> Sends(r.value.params, "strip_size_kb", Int(req.stripSizeKB))
    ensures r.Ok? ==> SendsIfSet(r.value.params, "uuid", req.uuid)
    ensures r.Ok? ==> Sends(r.value.params, "superblock", Bool(req.superblock))
  {
    if req.name == "" || req.raidLevel == "" || |req.baseBdevs| == 0 then Err(MissingRaidFields)
    else
      var baseList := NormalizeBaseBdevs(req.baseBdevs);
      Ok(Request(BdevRaidCreate,
                 WireParams(map["name" := Str(req.name), "raid_level" := Str(req.raidLevel),
                                "base_bdevs" := StrList(baseList), "strip_size_kb" := Int(req.stripSizeKB),
                                "uuid" := Str(req.uuid), "superblock" := Bool(req.superblock)])))
  }

  /** `DetachNvmeController`: no local check; each field is sent only when set. */
  function DetachNvmeControllerRequest(name: string, trtype: string, traddr: string): (r: Request)
    ensures r.rpc == BdevNvmeDetachController
    ensures r.params.Keys <= {"name", "trtype", "traddr"}
    ensures SendsIfSet(r.params, "name", name)
    ensures SendsIfSet(r.params, "trtype", trtype)
    ensures SendsIfSet(r.params, "traddr", traddr)
  {
    Request(BdevNvmeDetachController,
            WireParams(map["name" := Str(name), "trtype" := Str(trtype), "traddr" := Str(traddr)]))
  }

  /** The single-name operations (`DeleteMallocBdev`, `DeleteRaidBdev`,
      `RemoveRaidBaseBdev`): no local check; an empty name is simply omitted. */
  function NameOnlyRequest(rpc: Rpc, name: string): (r: Request)
    ensures r.rpc == rpc
    ensures r.params.Keys <= {"name"}
    ensures SendsIfSet(r.params, "name", name)
  {
    Request(rpc, WireParams(map["name" := Str(name)]))
  }

  function DeleteMallocBdevRequest(name: string): (r: Request)
    ensures r.rpc == BdevMallocDelete
    ensures r.params == if name == "" then map[] else map["name" := Str(name)]
  {
    NameOnlyRequest(BdevMallocDelete, name)
  }

  function DeleteRaidBdevRequest(name: string): (r: Request)
    ensures r.rpc == BdevRaidDelete
    ensures r.params == if name == "" then map[] else map["name" := Str(name)]
  {
    NameOnlyRequest(BdevRaidDelete, name)
  }

  function RemoveRaidBaseBdevRequest(name: string): (r: Request)
    ensures r.rpc == BdevRaidRemoveBaseBdev
    ensures r.params == if name == "" then map[] else map["name" := Str(name)]
  {
    NameOnlyRequest(BdevRaidRemoveBaseBdev, name)
  }

  /** `AddRaidBaseBdev`: no local check; each name is sent only when set. */
  function AddRaidBaseBdevRequest(raidBdev: string, baseBdev: string): (r: Request)
    ensures r.rpc == BdevRaidAddBaseBdev
    ensures r.params.Keys <= {"raid_bdev", "base_bdev"}
    ensures SendsIfSet(r.params, "raid_bdev", raidBdev)
    ensures SendsIfSet(r.params, "base_bdev", baseBdev)
  {
    Request(BdevRaidAddBaseBdev, WireParams(map["raid_bdev" := Str(raidBdev), "base_bdev" := Str(baseBdev)]))
  }

  /** `WipeSuperblock`: no local check; `size` is always sent, 0 included. */
  function WipeSuperblockRequest(name: string, size: int): (r: Request)
    ensures r.rpc == BdevWipeSuperblock
    ensures r.params.Keys <= {"name", "size"}
    ensures SendsIfSet(r.params, "name", name)
    ensures Sends(r.params, "size", Int(size))
  {
    Request(BdevWipeSuperblock, WireParams(map["name" := Str(name), "size" := Int(size)]))
  }

  // ---------------------------------------------------------------------------
  // Sending a request

  /** One facade call from client state `g`: a rejected request never touches
      the connection; a built one goes through `Call`, and its failure is
      wrapped with the operation. Yields the new state, what was handed to the
      client library, and the caller's result. */
  function Perform(g: Globals, r: Result<Request, Violation>, dial: DialResult, reply: RpcReply)
    : (p: (Globals, Option<Wire>, Result<Json, ServiceError>))
    ensures r.Err? ==> p == (g, None, Err(Invalid(r.error)))
    ensures p.1.Some? ==> r.Ok? && p.1.value == Wire(r.value.rpc.Name(), r.value.params)
    ensures p.2.Ok? ==> p.1.Some? && reply.Ok? && p.2.value == reply.value
    ensures g.done ==> p.0 == g
    // A built request: the state moves as `GetClient` moves it, and every
    // outcome of the connection reaches the caller.
    ensures r.Ok? ==> p.0 == GetClientStep(g, dial).0
    ensures var c := GetClientStep(g, dial).1;
            r.Ok? && c.err.Some? ==> p.1.None? && p.2 == Err(Failed(r.value.rpc, c.err.value))
    ensures var c := GetClientStep(g, dial).1;
            r.Ok? && c.err.None? && c.client.None? ==> p.1.None? && p.2 == Err(Failed(r.value.rpc, NilClient))
    ensures var c := GetClientStep(g, dial).1;
            r.Ok? && c.err.None? && c.client.Some? ==>
              p.1 == Some(Wire(r.value.rpc.Name(), r.value.params)) &&
              p.2 == match reply
                     case Ok(j) => Ok(j)
                     case Err(cause) => Err(Failed(r.value.rpc, CallFailed(r.value.rpc.Name(), cause)))
  {
    match r
    case Err(v) => (g, None, Err(Invalid(v)))
    case Ok(req) =>
      var (g', _, sent, res) := CallStep(g, req.rpc.Name(), req.params, dial, reply);
      match res
      case Ok(j) => (g', sent, Ok(j))
      case Err(e) => (g', sent, Err(Failed(req.rpc, e)))
  }

  /** `BdevService`: a facade over the shared client. */
  class BdevService {
    const socketAddr: string
    const client: Client

    /** `NewBdevService`: hands a non-empty address to the client; an empty one
        leaves the client's address untouched. */
    constructor New(c: Client, socketAddr: string)
      requires c.Valid()
      modifies c
      ensures c.Valid()
      ensures this.client == c && this.socketAddr == socketAddr
      ensures c.State() == if socketAddr != "" then old(c.State()).(socketAddr := socketAddr) else old(c.State())
    {
      if socketAddr != "" {
        c.SetSocketAddress(socketAddr);
      }
      this.client := c;
      this.socketAddr := socketAddr;
    }

    /** Validation outcome, then `callRPC`, then the operation's error wrapping. */
    method Submit(r: Result<Request, Violation>, dial: DialResult, reply: RpcReply)
      returns (out: Result<Json, ServiceError>)
      requires client.Valid()
      modifies client
      ensures client.Valid()
      ensures client.State() == Perform(old(client.State()), r, dial, reply).0
      ensures out == Perform(old(client.State()), r, dial, reply).2
    {
      if r.Err? {
        return Err(Invalid(r.error));
      }
      var req := r.value;
      var res := client.Call(req.rpc.Name(), req.params, dial, reply);
      match res
      case Err(e) =>
        out := Err(Failed(req.rpc, e));
      case Ok(j) =>
        out := Ok(j);
    }

    method GetBdevs(name: string, timeoutMs: int, dial: DialResult, reply: RpcReply)
      returns (out: Result<Json, ServiceError>)
      requires client.Valid()
      modifies client
      ensures client.Valid()
      ensures client.State() == Perform(old(client.State()), Ok(GetBdevsRequest(name, timeoutMs)), dial, reply).0
      ensures out == Perform(old(client.State()), Ok(GetBdevsRequest(name, timeoutMs)), dial, reply).2
    {
      out := Submit(Ok(GetBdevsRequest(name, timeoutMs)), dial, reply);
    }

    method AttachNvmeController(name: string, trtype: string, traddr: string, dial: DialResult, reply: RpcReply)
      returns (out: Result<Json, ServiceError>)
      requires client.Valid()
      modifies client
      ensures client.Valid()
      ensures client.State() == Perform(old(client.State()), AttachNvmeControllerRequest(name, trtype, traddr), dial, reply).0
      ensures out == Perform(old(client.State()), AttachNvmeControllerRequest(name, trtype, traddr), dial, reply).2
    {
      out := Submit(AttachNvmeControllerRequest(name, trtype, traddr), dial, reply);
    }

    method CreateMallocBdev(name: string, uuid: string, totalSizeMB: int, blockSize: int, dial: DialResult, reply: RpcReply)
      returns (out: Result<Json, ServiceError>)
      requires client.Valid()
      modifies client
      ensures client.Valid()
      ensures client.State() == Perform(old(client.State()), CreateMallocBdevRequest(name, uuid, totalSizeMB, blockSize), dial, reply).0
      ensures out == Perform(old(client.State()), CreateMallocBdevRequest(name, uuid, totalSizeMB, blockSize), dial, reply).2
    {
      out := Submit(CreateMallocBdevRequest(name, uuid, totalSizeMB, blockSize), dial, reply);
    }

    method CreateRaidBdev(req: CreateRaidBdevRequest, dial: DialResult, reply: RpcReply)
      returns (out: Result<Json, ServiceError>)
      requires client.Valid()
      modifies client
      ensures client.Valid()
      ensures client.State() == Perform(old(client.State()), CreateRaidBdevRpc(req), dial, reply).0
      ensures out == Perform(old(client.State()), CreateRaidBdevRpc(req), dial, reply).2
    {
      out := Submit(CreateRaidBdevRpc(req), dial, reply);
    }

    method DetachNvmeController(name: string, trtype: string, traddr: string, dial: DialResult, reply: RpcReply)
      returns (out: Result<Json, ServiceError>)
      requires client.Valid()
      modifies client
      ensures client.Valid()
      ensures client.State() == Perform(old(client.State()), Ok(DetachNvmeControllerRequest(name, trtype, traddr)), dial, reply).0
      ensures out == Perform(old(client.State()), Ok(DetachNvmeControllerRequest(name, trtype, traddr)), dial, reply).2
    {
      out := Submit(Ok(DetachNvmeControllerRequest(name, trtype, traddr)), dial, reply);
    }

    method DeleteMallocBdev(name: string, dial: DialResult, reply: RpcReply)
      returns (out: Result<Json, ServiceError>)
      requires client.Valid()
      modifies client
      ensures client.Valid()
      ensures client.State() == Perform(old(client.State()), Ok(DeleteMallocBdevRequest(name)), dial, reply).0
      ensures out == Perform(old(client.State()), Ok(DeleteMallocBdevRequest(name)), dial, reply).2
    {
      out := Submit(Ok(DeleteMallocBdevRequest(name)), dial, reply);
    }

    method DeleteRaidBdev(name: string, dial: DialResult, reply: RpcReply)
      returns (out: Result<Json, ServiceError>)
      requires client.Valid()
      modifies client
      ensures client.Valid()
      ensures client.State() == Perform(old(client.State()), Ok(DeleteRaidBdevRequest(name)), dial, reply).0
      ensures out == Perform(old(client.State()), Ok(DeleteRaidBdevRequest(name)), dial, reply).2
    {
      out := Submit(Ok(DeleteRaidBdevRequest(name)), dial, reply);
    }

    method AddRaidBaseBdev(raidBdev: string, baseBdev: string, dial: DialResult, reply: RpcReply)
      returns (out: Result<Json, ServiceError>)
      requires client.Valid()
      modifies client
      ensures client.Valid()
      ensures client.State() == Perform(old(client.State()), Ok(AddRaidBaseBdevRequest(raidBdev, baseBdev)), dial, reply).0
      ensures out == Perform(old(client.State()), Ok(AddRaidBaseBdevRequest(raidBdev, baseBdev)), dial, reply).2
    {
      out := Submit(Ok(AddRaidBaseBdevRequest(raidBdev, baseBdev)), dial, reply);
    }

    method RemoveRaidBaseBdev(name: string, dial: DialResult, reply: RpcReply)
      returns (out: Result<Json, ServiceError>)
      requires client.Valid()
      modifies client
      ensures client.Valid()
      ensures client.State() == Perform(old(client.State()), Ok(RemoveRaidBaseBdevRequest(name)), dial, reply).0
      ensures out == Perform(old(client.State()), Ok(RemoveRaidBaseBdevRequest(name)), dial, reply).2
    {
      out := Submit(Ok(RemoveRaidBaseBdevRequest(name)), dial, reply);
    }

    method WipeSuperblock(name: string, size: int, dial: DialResult, reply: RpcReply)
      returns (out: Result<Json, ServiceError>)
      requires client.Valid()
      modifies client
      ensures client.Valid()
      ensures client.State() == Perform(old(client.State()), Ok(WipeSuperblockRequest(name, size)), dial, reply).0
      ensures out == Perform(old(client.State()), Ok(WipeSuperblockRequest(name, size)), dial, reply).2
    {
      out := Submit(Ok(WipeSuperblockRequest(name, size)), dial, reply);
    }
  }

  // ---------------------------------------------------------------------------
  // Properties of the requests

  /** A RAID request is rejected, before any connection, exactly when a required field is empty. */
  lemma RaidValidationPrecedesConnection(g: Globals, req: CreateRaidBdevRequest, dial: DialResult, reply: RpcReply)
    ensures (req.name == "" || req.raidLevel == "" || |req.baseBdevs| == 0) <==>
            Perform(g, CreateRaidBdevRpc(req), dial, reply) == (g, None, Err(Invalid(MissingRaidFields)))
  {
  }

  /** The re-split turns a space-joined entry back into its device names, in
      order; a single device name comes back as itself. */
  lemma {:induction false} BaseBdevsResplit(names: seq<string>)
    requires |names| >= 1
    requires forall i :: 0 <= i < |names| ==> IsField(names[i])
    ensures NormalizeBaseBdevs([JoinSpaces(names)]) == names
  {
    var joined := JoinSpaces(names);
    if |names| == 1 {
      assert joined == names[0];
    } else {
      assert joined == names[0] + " " + JoinSpaces(names[1..]);
      assert joined[|names[0]|] == ' ';
      FieldsOfJoin(names);
    }
  }

  /** The re-split of a single entry cuts it at every white-space character:
      the device names on either side are split independently. */
  lemma BaseBdevsCutAtSpace(before: string, c: char, after: string)
    requires IsSpace(c)
    requires ' ' in before + [c] + after
    ensures NormalizeBaseBdevs([before + [c] + after]) == Fields(before) + Fields(after)
  {
    FieldsSplitAtSpace(before, c, after);
  }

  /** A space-joined single entry is split into its device names; a longer
      list is not split even when an entry holds a space. */
  lemma RaidSplitExamples()
    ensures NormalizeBaseBdevs(["bdev1 bdev2 bdev3"]) == ["bdev1", "bdev2", "bdev3"]
    ensures NormalizeBaseBdevs(["bdev1", "bdev2 bdev3"]) == ["bdev1", "bdev2 bdev3"]
  {
    BaseBdevsResplit(["bdev1", "bdev2", "bdev3"]);
    assert JoinSpaces(["bdev1", "bdev2", "bdev3"]) == "bdev1 bdev2 bdev3";
  }

  /** Once a plain space asks for the re-split, tabs and runs of white space
      separate device names as well. */
  lemma RaidWhiteSpaceExample()
    ensures NormalizeBaseBdevs(["bdev1\t bdev2"]) == ["bdev1", "bdev2"]
  {
    var entry := "bdev1\t bdev2";
    var tabbed := "bdev1" + ['\t'] + [];
    assert entry == tabbed + [' '] + "bdev2";
    assert ' ' in entry by { assert entry[6] == ' '; }
    assert Fields(tabbed) == ["bdev1"] by {
      FieldsSplitAtSpace("bdev1", '\t', []);
      FieldsOfField("bdev1");
    }
    FieldsOfField("bdev2");
    BaseBdevsCutAtSpace(tabbed, ' ', "bdev2");
  }

  /** The method name a request goes out under identifies its operation. */
  lemma SentNameIdentifiesOperation(g: Globals, r: Result<Request, Violation>, dial: DialResult, reply: RpcReply)
    ensures var sent := Perform(g, r, dial, reply).1;
            sent.Some? ==> r.Ok? && forall o: Rpc :: o.Name() == sent.value.methodName <==> o == r.value.rpc
  {
    var sent := Perform(g, r, dial, reply).1;
    if sent.Some? {
      forall o: Rpc ensures o.Name() == sent.value.methodName <==> o == r.value.rpc {
        RpcNamesDistinct(o, r.value.rpc);
      }
    }
  }

  /** A lone all-space entry passes validation and goes out as an empty list;
      a tab alone does not trigger the re-split. */
  lemma RaidBlankEntryExamples()
    ensures NormalizeBaseBdevs(["  "]) == []
    ensures NormalizeBaseBdevs(["a\tb"]) == ["a\tb"]
    ensures var r := CreateRaidBdevRpc(CreateRaidBdevRequest("r0", "raid1", ["  "], 0, "", false));
            r.Ok? && Sends(r.value.params, "base_bdevs", StrList([]))
  {
    assert "  "[0] == ' ';
    assert AllSpace("  ");
  }

  /** Examples of list, attach and malloc: zero is sent, the empty string is
      not, a missing field or a zero size is rejected, and 1 MiB of 512-byte
      blocks is 2048 blocks. */
  lemma RequestExamples()
    ensures GetBdevsRequest("", 0).params == map["timeout_ms" := Int(0)]
    ensures GetBdevsRequest("Malloc0", 0).params == map["name" := Str("Malloc0"), "timeout_ms" := Int(0)]
    ensures AttachNvmeControllerRequest("n", "", "") == Err(MissingNvmeFields)
    ensures CreateMallocBdevRequest("", "", 0, 512) == Err(NonPositiveSize)
    ensures NumBlocks(1, 512) == 2048
  {
    var p := GetBdevsRequest("", 0).params;
    assert p.Keys == {"timeout_ms"};
    var q := GetBdevsRequest("Malloc0", 0).params;
    assert q.Keys == {"name", "timeout_ms"};
  }
}
