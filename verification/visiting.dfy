/** Go's `for k := range m` visits each key of a map once, in an order the
    runtime chooses. The models keep that order as a ghost sequence of the
    keys visited so far. */
module Visiting {
  predicate Distinct(ids: seq<string>)
  {
    forall j, k | 0 <= j < k < |ids| :: ids[j] != ids[k]
  }

  /** Part way through a range over `keys`: the keys not in `todo` have each
      been visited once, in the order `visited`. */
  predicate Visited(keys: set<string>, todo: set<string>, visited: seq<string>)
  {
    && todo <= keys
    && Distinct(visited)
    && (forall k | 0 <= k < |visited| :: visited[k] in keys && visited[k] !in todo)
    && (forall id | id in keys && id !in todo :: id in visited)
  }

  lemma VisitStep(keys: set<string>, todo: set<string>, visited: seq<string>, id: string)
    requires Visited(keys, todo, visited) && id in todo
    ensures Visited(keys, todo - {id}, visited + [id])
    ensures |todo - {id}| < |todo|
  {
    var v := visited + [id];
    forall x | x in keys && x !in todo - {id}
      ensures x in v
    {
      if x != id {
        assert x in visited;
        var k :| 0 <= k < |visited| && visited[k] == x;
        assert v[k] == x;
      }
    }
  }
}
