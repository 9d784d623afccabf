/**
 * The state of a remote query as the data-fetching layer hands it to a screen.
 * `isPending` is `Pending?`, `isError` is `Failed?`; a failed query may still
 * carry the data of an earlier success, which is what `data` then returns.
 */
module Queries {
  import opened Wrappers

  datatype Query<T> = Pending | Failed(stale: Option<T>) | Loaded(data: T)

  /** What the hook returns as `data`: absent while pending. */
  function DataOf<T>(q: Query<T>): (r: Option<T>)
    ensures q.Pending? ==> r.None?
    ensures q.Loaded? ==> r == Some(q.data)
    ensures q.Failed? ==> r == q.stale
  {
    match q
    case Pending => None
    case Failed(s) => s
    case Loaded(d) => Some(d)
  }
}
