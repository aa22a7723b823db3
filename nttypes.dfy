/** Fixed-width integer types of the Windows/NT headers, the Option wrapper used for
    oracle results that may fail, and the two NTSTATUS values that the bootstrap returns. */
module NtTypes {

  const TWO_TO_THE_8: int := 0x100
  const TWO_TO_THE_16: int := 0x1_0000
  const TWO_TO_THE_32: int := 0x1_0000_0000
  const TWO_TO_THE_64: int := 0x1_0000_0000_0000_0000

  /** BYTE / UCHAR */
  type UChar = x: int | 0 <= x < TWO_TO_THE_8
  /** USHORT / WORD */
  type UShort = x: int | 0 <= x < TWO_TO_THE_16
  /** ULONG / DWORD */
  type ULong = x: int | 0 <= x < TWO_TO_THE_32
  /** ULONG_PTR and KAFFINITY on a 64-bit build */
  type ULongPtr = x: int | 0 <= x < TWO_TO_THE_64
  type KAffinity = ULongPtr

  const USHRT_MAX: UShort := 0xFFFF
  const ULONG_MAX: ULong := 0xFFFF_FFFF

  /** NTSTATUS values, as their unsigned 32-bit bit patterns. */
  type NtStatus = ULong
  const STATUS_SUCCESS: NtStatus := 0
  const STATUS_UNSUCCESSFUL: NtStatus := 0xC000_0001

  /** The C conversion `(USHORT)x`: keep the low 16 bits. Dafny's `%` is Euclidean, so this is
      also the C result for a negative (sign-extended) operand. */
  function ToUShort(x: int): (r: UShort)
    ensures 0 <= x < TWO_TO_THE_16 ==> r == x
    ensures (x - r) % TWO_TO_THE_16 == 0
  {
    x % TWO_TO_THE_16
  }

  datatype Option<+T> = None | Some(value: T)
}
