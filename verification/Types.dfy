/** The values the storage server passes around: machine integers, the persisted registry,
    kernel-facing records, and the messages of the gRPC service. */
module Types {

  datatype Option<+T> = None | Some(value: T)

  const U16_LIMIT: int := 0x1_0000
  const U32_LIMIT: int := 0x1_0000_0000
  const U64_LIMIT: int := 0x1_0000_0000_0000_0000
  const I64_LIMIT: int := 0x8000_0000_0000_0000
  const I32_LIMIT: int := 0x8000_0000

  type u16 = x: int | 0 <= x < U16_LIMIT
  type u32 = x: int | 0 <= x < U32_LIMIT
  type u64 = x: int | 0 <= x < U64_LIMIT
  type byte = x: int | 0 <= x < 256

  /** Go's truncating conversion `uint16(x)`: the number of 16 bits that is equal modulo 2^16. */
  function ToU16(x: int): (r: u16)
    ensures (r - x) % U16_LIMIT == 0
  {
    x % U16_LIMIT
  }

  /** Go's wrapping conversion `int64(x)` of a uint64. */
  function ToI64(x: u64): (r: int)
    ensures -I64_LIMIT <= r < I64_LIMIT && (r - x) % U64_LIMIT == 0
  {
    if x < I64_LIMIT then x else x - U64_LIMIT
  }

  /** Go's wrapping conversion `uint64(x)` of an int64. */
  function ToU64(x: int): (r: u64)
    ensures (r - x) % U64_LIMIT == 0
  {
    x % U64_LIMIT
  }

  /** Go's wrapping conversion `int32(x)` of an int64 that holds a LUN number. */
  function ToI32(x: int): (r: int)
    ensures -I32_LIMIT <= r < I32_LIMIT && (r - x) % U32_LIMIT == 0
  {
    var y := x % U32_LIMIT;
    if y < I32_LIMIT then y else y - U32_LIMIT
  }

  /** A size survives being stored as a signed number, however large it is. */
  lemma SizeComesBack(x: u64)
    ensures ToU64(ToI64(x)) == x
  {
  }

  function Max(a: int, b: int): int {
    if a >= b then a else b
  }

  // The persisted registry.

  datatype StateVolume = StateVolume(id: u16, name: string, poolId: u16, size: int)

  datatype StatePool = StatePool(id: u16, name: string, volumes: map<u16, StateVolume>)

  datatype State = State(maxLunId: u16, pools: map<u16, StatePool>)

  const EMPTY_STATE := State(0, map[])

  datatype ServerConfig = ServerConfig(baseIqn: string, volumesDir: string, portal: string)

  /** What the state file holds.  Opening it for writing truncates it first, so a failed
      write leaves a file that no longer parses. */
  datatype StateFile = Absent | Torn | Holds(state: State)

  // What the kernel helpers are told.

  datatype Target = Target(id: u16, name: string, iqn: string)

  const ZERO_TARGET := Target(0, "", "")

  datatype Backstore = Backstore(kind: string, id: u16, name: string, filePath: string, fileSize: int)

  const BLOCK := "block"
  const FILEIO := "fileio"
  const PSCSI := "pscsi"
  const RAMDISK := "ramdisk"

  /** Outcome of a kernel call or helper.  `Fault` is the injected failure: any call may
      return it.  `Busy` is the refusal to remove something that has children or an
      incoming link, `Syntax` a directory name that does not parse, and `NilDereference` the
      panic on a missing value. */
  datatype Err = Ok | NotExist | Exist | Busy | Syntax | Unsupported | NilDereference | Fault

  // The service's messages.

  datatype Code =
    | OK | InvalidArgument | NotFound | AlreadyExists | ResourceExhausted
    | FailedPrecondition | Aborted | Internal | Unavailable | Crashed

  datatype Status = Invalid | Gone | Active | Degraded

  datatype PoolInfo = PoolInfo(poolId: u32, status: Status, poolName: string, iqn: string)

  datatype VolumeInfo = VolumeInfo(
    poolId: u32, volumeId: u32, status: Status, volumeName: string, volumeSize: u64, iqn: string, lun: int)

  datatype CreatePoolRequest = CreatePoolRequest(poolId: Option<u32>, poolName: Option<string>)

  datatype GetVolumeRequest = GetVolumeRequest(poolId: u32, volumeId: Option<u32>, volumeName: Option<string>)

  datatype CreateVolumeRequest = CreateVolumeRequest(
    poolId: u32, volumeId: Option<u32>, volumeName: Option<string>, volumeSize: u64)

  datatype DeleteVolumeRequest = DeleteVolumeRequest(poolId: u32, volumeId: u32)
}
