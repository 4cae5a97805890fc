/**
 * Constants of the C interface header CNTKLibraryC.h. The header is not part of
 * this model, so every value that lives there is declared without a value: no
 * proof may depend on what the numbers are, or on whether two of them differ.
 */
module Header {

  /** Status codes of CNTK_StatusCode.code. */
  const Success: int
  const NullPointer: int
  const InternalError: int

  /**
   * The sentinel model handle meaning "no model". The source compares handles
   * against it and also stores it as the code of a status record, so it is an
   * integer that is both a handle and a code.
   */
  const InvalidModelHandle: int

  /** A capacity large enough for the 255 characters the status copy may write. */
  type Capacity = n: nat | 255 <= n witness 255

  /** The declared number of wide characters in CNTK_StatusCode.description. */
  const DescriptionCapacity: Capacity

  /** A machine address; the null pointer is address 0. Model handles are addresses. */
  type Address = int

  const Null: Address := 0
}
