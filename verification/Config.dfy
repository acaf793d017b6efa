/** The part of a validated configuration snapshot that scheduling reads. */
module Config {

  datatype Option<+T> = None | Some(value: T)

  /** A configured name, of a route or of an egress. */
  datatype Id = Id(text: string)

  datatype Strategy = Unset | RoundRobin | Weighted

  datatype Route = Route(id: Id, strategy: Strategy, egress: seq<Id>)

  /** One immutable snapshot: its generation and the weight of every configured egress. */
  datatype Runtime = Runtime(generation: nat, weights: map<Id, nat>)

  function WeightOf(rt: Runtime, id: Id): nat {
    if id in rt.weights then rt.weights[id] else 1
  }

  predicate HasControlByte(s: string) {
    exists i | 0 <= i < |s| :: s[i] < ' ' || s[i] == 127 as char
  }

  predicate Distinct<T(==)>(s: seq<T>) {
    forall i, j | 0 <= i < j < |s| :: s[i] != s[j]
  }

  /** What validation guarantees about a route and the snapshot that declares it. */
  predicate ValidRoute(route: Route, rt: Runtime) {
    && !HasControlByte(route.id.text)
    && |route.egress| > 0
    && Distinct(route.egress)
    && (forall i | 0 <= i < |route.egress| :: !HasControlByte(route.egress[i].text) && route.egress[i] in rt.weights)
    && (route.strategy == Weighted ==>
          exists i | 0 <= i < |route.egress| :: WeightOf(rt, route.egress[i]) > 0)
  }

  /** A request's eligible heads: members of the route, each at most once. */
  predicate ValidHeads(heads: seq<Id>, route: Route) {
    Distinct(heads) && forall i | 0 <= i < |heads| :: heads[i] in route.egress
  }
}
