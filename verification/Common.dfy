/** What several modules name. */
module Common {
  datatype Option<T> = None | Some(value: T)

  const WORD: nat := 0x1_0000_0000_0000_0000

  type U64 = n: nat | n < WORD
  type Byte = n: nat | n < 256

  const MAX_META_TYPE: nat := 99        // the last of the protocol's own types
  const MAX_BATCH_RECORDS: nat := 1024  // the most messages a batch may have
}
