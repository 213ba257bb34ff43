/** What more than one component uses. */
module Common {

  datatype Option<T> = None | Some(value: T)

  /** How many values a `u64` counter takes before it wraps. */
  const GENERATIONS: nat := 0x1_0000_0000_0000_0000

  /** The largest page request that Azure accepts. */
  const MAX_PAGE_REQUEST_BYTES: nat := 4194304

  function Pow256(n: nat): nat { if n == 0 then 1 else 256 * Pow256(n - 1) }

  lemma Pow256Facts()
    ensures Pow256(2) == 0x1_0000 && Pow256(4) == 0x1_0000_0000 && Pow256(8) == 0x1_0000_0000_0000_0000
  {
  }
}
