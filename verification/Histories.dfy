/** Sequences of commands, on one load balancer or several. */
module Histories {
  import opened Prelude
  import opened Ingress
  import opened LoadBalancer
  import C = Cloud

  /** One command, as it happened. */
  datatype Event =
    | Created(a: Args, err: Err, run: Run)
    | ClustersRemoved(a: Args, remove: set<string>, err: Err, removal: Removal)
    | Deleted(a: Args, err: Err, ports: seq<ServicePort>, errs: DeleteErrs)

  ghost predicate Happens(e: Event, s: C.Store, s': C.Store) {
    match e
    case Created(a, err, run) => CreateRun(a, s, s', err, run)
    case ClustersRemoved(a, remove, err, removal) => RemoveRun(a, remove, s, s', err, removal)
    case Deleted(a, err, ports, errs) => DeleteRun(a, s, s', err, ports, errs)
  }

  /** The commands happened one after the other, `stores` being the store before
      the first, between any two, and after the last. */
  ghost predicate History(events: seq<Event>, stores: seq<C.Store>) {
    && |stores| == |events| + 1
    && forall i :: 0 <= i < |events| ==> Happens(events[i], stores[i], stores[i + 1])
  }
}
