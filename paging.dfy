/**
 * What the two paginated list screens share: the page size their hasMore rule compares
 * against, and the `onEndReached` guard.
 */
module Paging {
  /** A full page; anything shorter is the last one. */
  const PageSize := 10

  /** `if (!loading && hasMore)`: another fetch starts only when none is running and more
      pages exist. */
  predicate ShouldFetchMore(loading: bool, hasMore: bool)
    ensures ShouldFetchMore(loading, hasMore) <==> !loading && hasMore
  {
    !loading && hasMore
  }
}
