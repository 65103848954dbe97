/**
 * Vocabulary shared by every part of the model: the fixed-width integers of
 * the C++ code, the small vector records, fatal program termination as an
 * error value, and the fixed-capacity arrays of the ctk container library.
 */
module Common {

  const U32_LIMIT: int := 0x1_0000_0000

  /** An unsigned 32-bit integer (`u32` in the source). */
  newtype u32 = x: int | 0 <= x < 0x1_0000_0000

  /** `CTK_U32_MAX`, used as an "unset" sentinel. */
  const U32_MAX: u32 := 0xFFFF_FFFF

  /** A Vulkan non-dispatchable handle; 0 is `VK_NULL_HANDLE`. */
  type Handle = nat

  const VK_NULL_HANDLE: Handle := 0

  datatype Option<T> = None | Some(value: T) {
    function GetOr(default: T): T {
      if Some? then value else default
    }
  }

  /**
   * Why the program stops. `CTK_FATAL` and a failed `CTK_ASSERT` end the
   * process; the model returns one of these instead.
   */
  datatype FatalError =
    | CapacityExceeded(subject: string, max: nat)
    | AssertionFailed(condition: string)
    | MeshImportFailed
    | UnhandledDescriptorType
    | ValidationError(messageId: string, message: string)

  datatype Result<T> = Success(value: T) | Failure(error: FatalError)

  /** A result with nothing to return on success. */
  datatype Outcome = Done | Fatal(error: FatalError)

  /** 32-bit float vectors; components are modelled as exact reals. */
  datatype Vec2 = Vec2(x: real, y: real)
  datatype Vec3 = Vec3(x: real, y: real, z: real)
  datatype Vec4 = Vec4(x: real, y: real, z: real, w: real)

  const ZERO_VEC2: Vec2 := Vec2(0.0, 0.0)
  const ZERO_VEC3: Vec3 := Vec3(0.0, 0.0, 0.0)

  /**
   * A ctk array: elements in use followed by unused room up to a capacity
   * fixed when the array is created.
   */
  datatype BoundedArray<T> = BoundedArray(items: seq<T>, capacity: nat) {
    predicate HasRoom() {
      |items| < capacity
    }
  }

  function EmptyArray<T>(capacity: nat): BoundedArray<T> {
    BoundedArray([], capacity)
  }

  /** Appending to a full ctk array is a caller error. */
  function Push<T>(a: BoundedArray<T>, x: T): BoundedArray<T>
    requires a.HasRoom()
  {
    a.(items := a.items + [x])
  }
}
