/** Optimistic concurrency on one stored record, as the snapshotter uses the API server:
    a write without a handle is a create, which lands only on an absent record, and a write
    with a handle is an update, which lands only on the version the handle carries. */
module Store {
  import opened Options

  /** A stored record: its resource version, the object generation it was computed for,
      and its content. */
  datatype Versioned<+C> = Versioned(rv: nat, gen: int, content: C)

  /** How a write ends: answered, applied but with the answer lost, or not applied, at least not yet. */
  datatype Reply = Acked | Lost | Refused

  predicate MayLand<C>(server: Option<Versioned<C>>, handle: Option<Versioned<C>>) {
    match handle
    case None => server.None?
    case Some(h) => server.Some? && server.value.rv == h.rv
  }
}
