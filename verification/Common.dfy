/** Vocabulary shared by every model: optional values, bytes and addresses. */
module Common {

  datatype Option<+T> = None | Some(value: T)

  type byte = x: int | 0 <= x < 256
  type Bytes = seq<byte>

  /** The number of values of a uint32_t: unsigned counters wrap modulo this. */
  const UINT32 := 0x1_0000_0000
  /** One more than INT32_MAX. */
  const INT32_LIMIT := 0x8000_0000

  const NGX_OK := 0
  const NGX_ERROR := -1
  const NGX_DECLINED := -5

  const PROXY_RESULT_OK := 0
  const PROXY_RESULT_NOT_FOUND := 1
  const PROXY_RESULT_BAD_ARGUMENT := 2
  const PROXY_RESULT_INVALID_MEMORY_ACCESS := 6
  const PROXY_RESULT_INTERNAL_FAILURE := 10
  const PROXY_RESULT_UNIMPLEMENTED := 12
}
