/** Sizes and limits that several parts share. */
module Limits {
  const MAX_SKIP: nat := 1000
  const MAX_SKIPPED_TOTAL: nat := 2000
  const X25519_PK_LEN: nat := 32
  const KEM_PK_LEN: nat := 1568
  const KEM_CT_LEN: nat := 1568
}
