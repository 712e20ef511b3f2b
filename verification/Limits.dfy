/** The bounds on chunks and xorbs, which are part of the storage format. */
module Limits {
  const MIN_CHUNK := 8192
  const MAX_CHUNK := 131072
  const MAX_XORB_BYTES := 67108864
  const MAX_XORB_CHUNKS := 8192
}
