/** Types shared by every part of the model: optional values, errno-style
    results, bytes, and the signed 64-bit limit that the SQLite columns share. */
module Base {
  datatype Option<+T> = None | Some(value: T)

  datatype Error =
    | EINVAL | EACCES | EAGAIN | EALREADY | EBADMSG | EEXIST | EILSEQ | EIO
    | ENOENT | ENOSPC | EOVERFLOW | EPERM | ERANGE | ESTALE

  datatype Result<+T> = Ok(value: T) | Err(error: Error)

  type byte = x: int | 0 <= x < 256
  type u16 = x: int | 0 <= x < 0x1_0000
  type u32 = x: int | 0 <= x < 0x1_0000_0000
  type u64 = x: int | 0 <= x < 0x1_0000_0000_0000_0000

  const INT64_MAX: nat := 0x7fff_ffff_ffff_ffff

  /** A clock reading or identifier that the operations accept. */
  predicate Positive64(x: nat) {
    0 < x <= INT64_MAX
  }

  function Min(a: int, b: int): int {
    if a <= b then a else b
  }
}
