/** Types shared by every module. Each character of a Dafny string stands for one byte of the
    corresponding Go string. */
module Base {

  datatype Option<+T> = None | Some(value: T)

  datatype Result<+T, +E> = Ok(value: T) | Err(error: E)

  predicate IsBytes(s: string) {
    forall i | 0 <= i < |s| :: s[i] as int < 256
  }

  /** A string whose characters are byte values; e-mail addresses have this type because they are
      base64url-encoded byte by byte. */
  type Bytes = s: string | IsBytes(s)

  /** What mail.ParseAddress yields on success: an address that is never empty. */
  type CanonicalEmail = s: Bytes | s != "" witness "a@b"

  /** No path separator: true of every UUID and of every base64url encoding. */
  predicate SlashFree(s: string) {
    '/' !in s
  }
}
