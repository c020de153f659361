/** The Consul catalog as the two cache loaders read it (mesos/register.go
    LoadCache and consul/cache.go CacheLoad): a list of service names, one
    query per name, and the rule that seeds the cache from the answers. */
module Catalog {
  import opened Wrappers
  import opened GoStrings

  /** Every service this program registers has an ID that starts with this. */
  const ServicePrefix: string := "mesos-consul:"

  /** consulapi.CatalogService, the fields the loaders copy. */
  datatype CatalogService = CatalogService(
    serviceId: string,
    serviceName: string,
    servicePort: int,
    serviceAddress: string,
    serviceTags: seq<string>)

  /** Every per-name query in `names` answered without an error. */
  predicate AllAnswered(names: seq<string>, query: string -> Result<seq<CatalogService>>)
  {
    forall k | 0 <= k < |names| :: query(names[k]).Ok?
  }

  /** The catalog rows of all the names, in the order the names are visited. */
  function Rows(names: seq<string>, query: string -> Result<seq<CatalogService>>): seq<CatalogService>
    requires AllAnswered(names, query)
  {
    if names == [] then []
    else Rows(names[..|names| - 1], query) + query(names[|names| - 1]).value
  }

  /** The number of names, from the front, whose queries are answered: a
      loader gets that far before it returns the first query error. */
  function AnsweredPrefix(names: seq<string>, query: string -> Result<seq<CatalogService>>): (n: nat)
    ensures n <= |names|
    ensures AllAnswered(names[..n], query)
    ensures n < |names| ==> query(names[n]).Err?
  {
    if names == [] || query(names[0]).Err? then 0
    else
      var m := AnsweredPrefix(names[1..], query);
      AllAnsweredCons(names, m, query);
      1 + m
  }

  lemma AllAnsweredCons(names: seq<string>, m: nat, query: string -> Result<seq<CatalogService>>)
    requires m < |names| && query(names[0]).Ok? && AllAnswered(names[1..][..m], query)
    ensures AllAnswered(names[..m + 1], query)
  {
    var front, rest := names[..m + 1], names[1..][..m];
    forall k | 0 <= k < |front|
      ensures query(front[k]).Ok?
    {
      if k > 0 {
        assert front[k] == rest[k - 1];
      }
    }
  }

  /** AnsweredPrefix is the position of the first query that fails. */
  lemma {:induction false} AnsweredPrefixAt(names: seq<string>, i: nat, query: string -> Result<seq<CatalogService>>)
    requires i <= |names| && AllAnswered(names[..i], query)
    requires i < |names| ==> query(names[i]).Err?
    ensures AnsweredPrefix(names, query) == i
    ensures AllAnswered(names, query) <==> i == |names|
  {
    if i > 0 {
      assert names[..i][0] == names[0];
      assert names[1..][..i - 1] == names[..i][1..];
      AnsweredPrefixAt(names[1..], i - 1, query);
    }
    if i == |names| {
      assert names[..i] == names;
    }
  }

  /** A loader that got past the first `i` names got at least that far. */
  lemma {:induction false} AnsweredPrefixAtLeast(names: seq<string>, i: nat, query: string -> Result<seq<CatalogService>>)
    requires i <= |names| && AllAnswered(names[..i], query)
    ensures i <= AnsweredPrefix(names, query)
  {
    if i > 0 {
      assert names[..i][0] == names[0];
      assert names[1..][..i - 1] == names[..i][1..];
      AnsweredPrefixAtLeast(names[1..], i - 1, query);
    }
  }

  /** One more answered name at the end of the list. */
  lemma RowsSnoc(names: seq<string>, i: nat, query: string -> Result<seq<CatalogService>>)
    requires i < |names| && AllAnswered(names[..i], query) && query(names[i]).Ok?
    ensures AllAnswered(names[..i + 1], query)
    ensures Rows(names[..i + 1], query) == Rows(names[..i], query) + query(names[i]).value
  {
    assert names[..i + 1][..i] == names[..i];
  }

  /** The IDs that seeding takes from `rows`: those with the prefix. */
  function SeededIds(rows: seq<CatalogService>): set<string>
  {
    set k | 0 <= k < |rows| && HasPrefix(rows[k].serviceId, ServicePrefix) :: rows[k].serviceId
  }

  /** The seeded IDs of two lists of rows in turn are those of both. */
  lemma SeededIdsAppend(a: seq<CatalogService>, b: seq<CatalogService>)
    ensures SeededIds(a + b) == SeededIds(a) + SeededIds(b)
  {
    var ab := a + b;
    forall id | id in SeededIds(ab)
      ensures id in SeededIds(a) + SeededIds(b)
    {
      var k :| 0 <= k < |ab| && HasPrefix(ab[k].serviceId, ServicePrefix) && ab[k].serviceId == id;
      if k < |a| {
        assert ab[k] == a[k];
      } else {
        assert ab[k] == b[k - |a|];
      }
    }
    forall id | id in SeededIds(a)
      ensures id in SeededIds(ab)
    {
      var k :| 0 <= k < |a| && HasPrefix(a[k].serviceId, ServicePrefix) && a[k].serviceId == id;
      assert ab[k] == a[k];
    }
    forall id | id in SeededIds(b)
      ensures id in SeededIds(ab)
    {
      var k :| 0 <= k < |b| && HasPrefix(b[k].serviceId, ServicePrefix) && b[k].serviceId == id;
      assert ab[|a| + k] == b[k];
    }
  }

  /** Loading more names can only add seeded IDs. */
  lemma {:induction false} RowsSeededGrow(names: seq<string>, i: nat, m: nat, query: string -> Result<seq<CatalogService>>)
    requires i <= m <= |names| && AllAnswered(names[..m], query)
    ensures AllAnswered(names[..i], query)
    ensures SeededIds(Rows(names[..i], query)) <= SeededIds(Rows(names[..m], query))
    decreases m - i
  {
    assert forall k | 0 <= k < i :: names[..i][k] == names[..m][k];
    if i < m {
      assert names[..m][..m - 1] == names[..m - 1];
      assert forall k | 0 <= k < m - 1 :: names[..m - 1][k] == names[..m][k];
      RowsSeededGrow(names, i, m - 1, query);
      SeededIdsAppend(Rows(names[..m - 1], query), query(names[m - 1]).value);
    }
  }

  /** The cache after the rows are visited in order: each row whose ID has
      the prefix is stored under its ID, as `mk` builds the entry, replacing
      what was there; every other row is skipped. */
  function Seed<E>(cache: map<string, E>, rows: seq<CatalogService>, mk: CatalogService -> E): map<string, E>
  {
    if rows == [] then cache
    else
      var before := Seed(cache, rows[..|rows| - 1], mk);
      var s := rows[|rows| - 1];
      if HasPrefix(s.serviceId, ServicePrefix) then before[s.serviceId := mk(s)] else before
  }

  /** Seeding adds exactly the prefixed IDs to the keys. */
  lemma {:induction false} SeedKeys<E>(cache: map<string, E>, rows: seq<CatalogService>, mk: CatalogService -> E)
    ensures Seed(cache, rows, mk).Keys == cache.Keys + SeededIds(rows)
  {
    if rows != [] {
      var init := rows[..|rows| - 1];
      SeedKeys(cache, init, mk);
      assert forall k | 0 <= k < |init| :: init[k] == rows[k];
      var s := rows[|rows| - 1];
      if HasPrefix(s.serviceId, ServicePrefix) {
        assert SeededIds(rows) == SeededIds(init) + {s.serviceId};
      } else {
        assert SeededIds(rows) == SeededIds(init);
      }
    }
  }

  /** An entry whose ID no prefixed row carries is left exactly as it was;
      in particular, rows without the prefix change nothing. */
  lemma {:induction false} SeedKeepsOthers<E>(cache: map<string, E>, rows: seq<CatalogService>, mk: CatalogService -> E, id: string)
    requires id !in SeededIds(rows)
    ensures id in Seed(cache, rows, mk) <==> id in cache
    ensures id in cache ==> Seed(cache, rows, mk)[id] == cache[id]
  {
    if rows != [] {
      var init := rows[..|rows| - 1];
      assert forall k | 0 <= k < |init| :: init[k] == rows[k];
      assert SeededIds(init) <= SeededIds(rows);
      SeedKeepsOthers(cache, init, mk, id);
    }
  }

  /** A seeded ID holds the entry built from the last row that carries it. */
  lemma {:induction false} SeedLastRow<E>(cache: map<string, E>, rows: seq<CatalogService>, mk: CatalogService -> E, k: nat)
    requires k < |rows| && HasPrefix(rows[k].serviceId, ServicePrefix)
    requires forall j | k < j < |rows| :: rows[j].serviceId != rows[k].serviceId
    ensures rows[k].serviceId in Seed(cache, rows, mk)
    ensures Seed(cache, rows, mk)[rows[k].serviceId] == mk(rows[k])
  {
    var init := rows[..|rows| - 1];
    if k < |rows| - 1 {
      assert init[k] == rows[k];
      SeedLastRow(cache, init, mk, k);
    }
  }

  /** Seeding from two lists of rows in turn is seeding from both. */
  lemma {:induction false} SeedAppend<E>(cache: map<string, E>, a: seq<CatalogService>, b: seq<CatalogService>, mk: CatalogService -> E)
    ensures Seed(cache, a + b, mk) == Seed(Seed(cache, a, mk), b, mk)
  {
    if b == [] {
      assert a + b == a;
    } else {
      var init := b[..|b| - 1];
      SeedAppend(cache, a, init, mk);
      assert (a + b)[..|a + b| - 1] == a + init;
    }
  }
}
