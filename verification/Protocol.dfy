/** Sizes and response codes both ends agree on. */
module Protocol {
  import opened Bytes

  const MAX_MSG := 8192
  const QUEUE_SLOTS := 4

  const OK: byte := 0
  const PARTIAL: byte := 1
  const ERROR_UNKNOWN: byte := 2
  const EXISTS: byte := 4
  const INVALID: byte := 9
  const ERROR_IO: byte := 12
  const STATE_BLOCKED: byte := 16
  const NO_XATTR: byte := 19
  const RANGE: byte := 20
}
