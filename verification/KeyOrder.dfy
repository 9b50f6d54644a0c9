/** The order of every intrusive tree: by key, with the entity's address as the tie-breaker. */
module KeyOrder {
  predicate Less(k: int, a: int, k': int, b: int) { k < k' || (k == k' && a < b) }
}
