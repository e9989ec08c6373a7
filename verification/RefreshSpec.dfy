/** The bookkeeping that limits background refreshes: one flag and one last-attempt time per key. */
module RefreshSpec {
  import opened CacheSpec

  const COOLDOWN := 5 * SECOND

  datatype Book = Book(inFlight: set<string>, lastTry: map<string, int>)

  const EMPTY_BOOK := Book({}, map[])

  predicate MayStart(b: Book, k: string, now: int) {
    k !in b.inFlight && !(k in b.lastTry && now - b.lastTry[k] < COOLDOWN)
  }

  /** triggerRefresh, up to the point where it spawns the refresh or gives up. */
  function Trigger(b: Book, k: string, now: int): Book {
    if MayStart(b, k, now) then Book(b.inFlight + {k}, b.lastTry[k := now]) else b
  }

  /** The deferred clean-up of a finished refresh. */
  function Finish(b: Book, k: string): Book {
    b.(inFlight := b.inFlight - {k})
  }
}
