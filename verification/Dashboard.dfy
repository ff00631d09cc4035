/** The dashboard: latest metric and number of open alerts per server, cached
    for ten seconds. */
module Dashboard {
  import opened Options

  type Time = int
  const CACHE_TTL: Time := 10

  datatype Metric = Metric(server: int, at: Time, cpu: real, memory: real, disk: real)
  datatype Event = Event(server: int, resolved: bool)
  datatype Server = Server(id: int, name: string)
  datatype Info = Info(server: Server, openAlerts: nat, latest: Option<Metric>)

  // ----- the queries

  /** Row j comes before row i in its partition: a later collected_at, and
      between equal times the order in which the rows are stored. */
  predicate Before(metrics: seq<Metric>, j: nat, i: nat)
    requires j < |metrics| && i < |metrics|
  {
    && metrics[j].server == metrics[i].server
    && (metrics[j].at > metrics[i].at || (metrics[j].at == metrics[i].at && j < i))
  }

  function CountBefore(metrics: seq<Metric>, i: nat, n: nat): nat
    requires i < |metrics| && n <= |metrics|
  {
    if n == 0 then 0 else CountBefore(metrics, i, n - 1) + if Before(metrics, n - 1, i) then 1 else 0
  }

  /** ROW_NUMBER() OVER (PARTITION BY server_id ORDER BY collected_at DESC). */
  function RowNumber(metrics: seq<Metric>, i: nat): nat
    requires i < |metrics|
  {
    1 + CountBefore(metrics, i, |metrics|)
  }

  /** The rows numbered 1 among the first n, for the servers in `ids`. */
  function FirstRows(metrics: seq<Metric>, ids: set<int>, n: nat): seq<Metric>
    requires n <= |metrics|
  {
    if n == 0 then []
    else FirstRows(metrics, ids, n - 1)
         + if metrics[n - 1].server in ids && RowNumber(metrics, n - 1) == 1 then [metrics[n - 1]] else []
  }

  function RankedQuery(metrics: seq<Metric>, ids: set<int>): seq<Metric> {
    FirstRows(metrics, ids, |metrics|)
  }

  function OpenCount(events: seq<Event>, server: int): nat {
    if events == [] then 0
    else
      var e := events[|events| - 1];
      OpenCount(events[..|events| - 1], server) + if e.server == server && !e.resolved then 1 else 0
  }

  /** SELECT server_id, COUNT(id) .. WHERE resolved_at IS NULL GROUP BY server_id. */
  function Grouped(events: seq<Event>, ids: set<int>): map<int, nat> {
    map id | id in ids && OpenCount(events, id) > 0 :: OpenCount(events, id)
  }

  // ----- what they are for

  predicate IsLatest(metrics: seq<Metric>, m: Metric) {
    m in metrics && forall x | x in metrics && x.server == m.server :: x.at <= m.at
  }

  ghost predicate HasRow(rows: seq<Metric>, id: int) {
    exists m :: m in rows && m.server == id
  }

  predicate OnePerServer(rows: seq<Metric>) {
    forall a, b | 0 <= a < b < |rows| :: rows[a].server != rows[b].server
  }

  /** collected_at differs between the rows of a server. */
  predicate DistinctTimes(metrics: seq<Metric>) {
    forall i, j | 0 <= i < j < |metrics| && metrics[i].server == metrics[j].server :: metrics[i].at != metrics[j].at
  }

  lemma {:induction false} NoneBefore(metrics: seq<Metric>, i: nat, n: nat)
    requires i < |metrics| && n <= |metrics|
    ensures CountBefore(metrics, i, n) == 0 <==> forall j | 0 <= j < n :: !Before(metrics, j, i)
  {
    if n > 0 {
      NoneBefore(metrics, i, n - 1);
    }
  }

  lemma {:induction false} FirstRowsHas(metrics: seq<Metric>, ids: set<int>, n: nat, m: Metric)
    requires n <= |metrics|
    ensures m in FirstRows(metrics, ids, n)
            <==> m.server in ids && exists i :: 0 <= i < n && metrics[i] == m && RowNumber(metrics, i) == 1
  {
    if n > 0 {
      FirstRowsHas(metrics, ids, n - 1, m);
    }
  }

  lemma {:induction false} FirstRowsDistinct(metrics: seq<Metric>, ids: set<int>, n: nat)
    requires n <= |metrics|
    ensures OnePerServer(FirstRows(metrics, ids, n))
  {
    if n > 0 {
      FirstRowsDistinct(metrics, ids, n - 1);
      var front := FirstRows(metrics, ids, n - 1);
      if metrics[n - 1].server in ids && RowNumber(metrics, n - 1) == 1 {
        forall m | m in front ensures m.server != metrics[n - 1].server {
          FirstRowsHas(metrics, ids, n - 1, m);
          var i :| 0 <= i < n - 1 && metrics[i] == m && RowNumber(metrics, i) == 1;
          NoneBefore(metrics, i, |metrics|);
          NoneBefore(metrics, n - 1, |metrics|);
          assert !Before(metrics, i, n - 1) && !Before(metrics, n - 1, i);
        }
        assert FirstRows(metrics, ids, n) == front + [metrics[n - 1]];
      }
    }
  }

  lemma BeforeIsTransitive(metrics: seq<Metric>, x: nat, j: nat, i: nat)
    requires x < |metrics| && j < |metrics| && i < |metrics|
    requires Before(metrics, x, j) && Before(metrics, j, i)
    ensures Before(metrics, x, i)
  {}

  /** Every partition has a first row. */
  lemma FirstExists(metrics: seq<Metric>, k: nat) returns (i: nat)
    requires k < |metrics|
    ensures i < |metrics| && metrics[i].server == metrics[k].server
    ensures forall j | 0 <= j < |metrics| :: !Before(metrics, j, i)
  {
    i := k;
    for n := 0 to |metrics|
      invariant i < |metrics| && metrics[i].server == metrics[k].server
      invariant forall j | 0 <= j < n :: !Before(metrics, j, i)
    {
      if Before(metrics, n, i) {
        forall j: nat | j < n ensures !Before(metrics, j, n) {
          if Before(metrics, j, n) {
            BeforeIsTransitive(metrics, j, n, i);
          }
        }
        i := n;
      }
    }
  }

  lemma FirstRowIsLatest(metrics: seq<Metric>, ids: set<int>, m: Metric)
    requires m in RankedQuery(metrics, ids)
    ensures m.server in ids && IsLatest(metrics, m)
  {
    FirstRowsHas(metrics, ids, |metrics|, m);
    var i :| 0 <= i < |metrics| && metrics[i] == m && RowNumber(metrics, i) == 1;
    NoneBefore(metrics, i, |metrics|);
    forall x | x in metrics && x.server == m.server ensures x.at <= m.at {
      var j :| 0 <= j < |metrics| && metrics[j] == x;
      assert !Before(metrics, j, i);
    }
  }

  lemma EveryServerHasFirstRow(metrics: seq<Metric>, ids: set<int>, m: Metric) returns (l: Metric)
    requires m in metrics && m.server in ids
    ensures l in RankedQuery(metrics, ids) && l.server == m.server
  {
    var k :| 0 <= k < |metrics| && metrics[k] == m;
    var i := FirstExists(metrics, k);
    l := metrics[i];
    NoneBefore(metrics, i, |metrics|);
    FirstRowsHas(metrics, ids, |metrics|, l);
  }

  /** The ranked query returns exactly one row for each wanted server that has
      any, and that row is a latest one of the server. */
  lemma RankedIsLatest(metrics: seq<Metric>, ids: set<int>)
    ensures var rows := RankedQuery(metrics, ids);
            && (forall m | m in rows :: m.server in ids && IsLatest(metrics, m))
            && (forall m | m in metrics && m.server in ids :: HasRow(rows, m.server))
            && OnePerServer(rows)
  {
    var rows := RankedQuery(metrics, ids);
    FirstRowsDistinct(metrics, ids, |metrics|);
    forall m | m in rows ensures m.server in ids && IsLatest(metrics, m) {
      FirstRowIsLatest(metrics, ids, m);
    }
    forall m | m in metrics && m.server in ids ensures HasRow(rows, m.server) {
      var l := EveryServerHasFirstRow(metrics, ids, m);
    }
  }

  /** With distinct times there is only one latest row. */
  lemma LatestIsUnique(metrics: seq<Metric>, a: Metric, b: Metric)
    requires DistinctTimes(metrics) && IsLatest(metrics, a) && IsLatest(metrics, b) && a.server == b.server
    ensures a == b
  {
    var i :| 0 <= i < |metrics| && metrics[i] == a;
    var j :| 0 <= j < |metrics| && metrics[j] == b;
  }

  /** What a lookup of its own would show for each server. */
  ghost predicate Shows(metrics: seq<Metric>, events: seq<Event>, server: Server, info: Info) {
    && info.server == server && info.openAlerts == OpenCount(events, server.id)
    && match info.latest
       case Some(m) => m.server == server.id && IsLatest(metrics, m)
       case None => forall m | m in metrics :: m.server != server.id
  }

  /** The tables; a user's servers in the order the query returns them. */
  datatype Tables = Tables(servers: map<int, seq<Server>>, metrics: seq<Metric>, events: seq<Event>)

  function ServersOf(t: Tables, user: int): seq<Server> {
    if user in t.servers then t.servers[user] else []
  }

  /** The answer that a lookup of its own for each server would give. */
  ghost predicate Fresh(t: Tables, user: int, data: seq<Info>) {
    && |data| == |ServersOf(t, user)|
    && forall i | 0 <= i < |data| :: Shows(t.metrics, t.events, ServersOf(t, user)[i], data[i])
  }

  /** The body of the endpoint: one ranked query and one grouped count for all
      servers give every server its own latest metric and open-alert count. */
  method BuildDashboard(t: Tables, user: int) returns (data: seq<Info>)
    ensures Fresh(t, user, data)
  {
    var servers, metrics, events := ServersOf(t, user), t.metrics, t.events;
    var ids := set s | s in servers :: s.id;
    var rows := RankedQuery(metrics, ids);
    var latest: map<int, Metric> := map[];
    for i := 0 to |rows|
      invariant forall id | id in latest :: latest[id] in rows && latest[id].server == id
      invariant forall j | 0 <= j < i :: rows[j].server in latest
    {
      latest := latest[rows[i].server := rows[i]];
    }
    var open := Grouped(events, ids);
    data := [];
    for i := 0 to |servers|
      invariant |data| == i
      invariant forall j | 0 <= j < i :: Shows(metrics, events, servers[j], data[j])
    {
      var s := servers[i];
      assert s.id in ids;
      var info := Info(s, if s.id in open then open[s.id] else 0, if s.id in latest then Some(latest[s.id]) else None);
      LatestShown(metrics, ids, rows, latest, s.id);
      data := data + [info];
    }
  }

  lemma LatestShown(metrics: seq<Metric>, ids: set<int>, rows: seq<Metric>, latest: map<int, Metric>, id: int)
    requires rows == RankedQuery(metrics, ids) && id in ids
    requires forall k | k in latest :: latest[k] in rows && latest[k].server == k
    requires forall m | m in rows :: m.server in latest
    ensures if id in latest then latest[id].server == id && IsLatest(metrics, latest[id])
            else forall m | m in metrics :: m.server != id
  {
    RankedIsLatest(metrics, ids);
  }

  // ----- the cache

  datatype Entry = Entry(answer: seq<Info>, expires: Time)
  type Cache = map<int, Entry>

  /** One request of a user, and the tables it meets. Reading and writing the
      cache may each fail, which the endpoint ignores. */
  datatype Request = Request(user: int, at: Time, tables: Tables, readable: bool, writable: bool)

  predicate Hit(cache: Cache, r: Request) {
    r.readable && r.user in cache && r.at < cache[r.user].expires
  }

  /** What a request may answer and leave in the cache; computing and storing are
      one step. */
  ghost predicate Serves(cache: Cache, r: Request, given: seq<Info>, cache': Cache) {
    if Hit(cache, r) then given == cache[r.user].answer && cache' == cache
    else
      && Fresh(r.tables, r.user, given)
      && cache' == if r.writable then cache[r.user := Entry(given, r.at + CACHE_TTL)] else cache
  }

  class Endpoint {
    var cache: Cache

    constructor ()
      ensures cache == map[]
    {
      cache := map[];
    }

    method Dashboard(r: Request) returns (given: seq<Info>)
      modifies this
      ensures Serves(old(cache), r, given, cache)
    {
      if r.readable && r.user in cache && r.at < cache[r.user].expires {
        return cache[r.user].answer;
      }
      given := BuildDashboard(r.tables, r.user);
      if r.writable {
        cache := cache[r.user := Entry(given, r.at + CACHE_TTL)];
      }
    }
  }

  ghost predicate IsRun(caches: seq<Cache>, reqs: seq<Request>, given: seq<seq<Info>>) {
    && |caches| == |reqs| + 1 && |given| == |reqs| && caches[0] == map[]
    && (forall i, j | 0 <= i < j < |reqs| :: reqs[i].at <= reqs[j].at)
    && forall i | 0 <= i < |reqs| :: Serves(caches[i], reqs[i], given[i], caches[i + 1])
  }

  lemma {:induction false} CacheHasSource(caches: seq<Cache>, reqs: seq<Request>, given: seq<seq<Info>>,
                                          n: nat, user: int) returns (i: nat)
    requires IsRun(caches, reqs, given) && n <= |reqs| && user in caches[n]
    ensures i < n && reqs[i].user == user && Fresh(reqs[i].tables, user, given[i]) && StoredBy(caches, reqs, i)
    ensures caches[n][user] == Entry(given[i], reqs[i].at + CACHE_TTL)
  {
    assert Serves(caches[n - 1], reqs[n - 1], given[n - 1], caches[n]);
    if user in caches[n - 1] && caches[n][user] == caches[n - 1][user] {
      i := CacheHasSource(caches, reqs, given, n - 1, user);
    } else {
      i := n - 1;
    }
  }

  /** Every answer is right, for the same user, for the tables as some request
      met them less than ten seconds before. */
  lemma AnswersAreRecent(caches: seq<Cache>, reqs: seq<Request>, given: seq<seq<Info>>, j: nat) returns (i: nat)
    requires IsRun(caches, reqs, given) && j < |reqs|
    ensures i <= j && reqs[i].user == reqs[j].user && 0 <= reqs[j].at - reqs[i].at < 10
    ensures Fresh(reqs[i].tables, reqs[j].user, given[j])
  {
    assert Serves(caches[j], reqs[j], given[j], caches[j + 1]);
    if Hit(caches[j], reqs[j]) {
      i := CacheHasSource(caches, reqs, given, j, reqs[j].user);
    } else {
      i := j;
    }
  }

  // ----- what the counts and the cache mean

  function OpenRows(events: seq<Event>, server: int): set<int> {
    set i | 0 <= i < |events| && events[i].server == server && !events[i].resolved
  }

  /** The count is the number of unresolved events of the server. */
  lemma {:induction false} OpenCountIs(events: seq<Event>, server: int)
    ensures OpenCount(events, server) == |OpenRows(events, server)|
  {
    if events != [] {
      var n := |events| - 1;
      OpenCountIs(events[..n], server);
      var front := OpenRows(events[..n], server);
      assert n !in front;
      if events[n].server == server && !events[n].resolved {
        assert OpenRows(events, server) == front + {n};
      } else {
        assert OpenRows(events, server) == front;
      }
    }
  }

  /** Request i computed an answer and stored it. */
  predicate StoredBy(caches: seq<Cache>, reqs: seq<Request>, i: nat)
    requires i < |caches| && i < |reqs|
  {
    !Hit(caches[i], reqs[i]) && reqs[i].writable
  }

  lemma {:induction false} EntryStays(
    caches: seq<Cache>, reqs: seq<Request>, given: seq<seq<Info>>, i: nat, j: nat, user: int, entry: Entry)
    requires IsRun(caches, reqs, given) && i <= j < |caches| && user in caches[i] && caches[i][user] == entry
    requires forall n: nat | i <= n < j && reqs[n].user == user :: !StoredBy(caches, reqs, n)
    ensures user in caches[j] && caches[j][user] == entry
    decreases j
  {
    if i < j {
      EntryStays(caches, reqs, given, i, j - 1, user, entry);
      assert Serves(caches[j - 1], reqs[j - 1], given[j - 1], caches[j]);
    }
  }

  /** A request that can read the cache repeats the last stored answer of its user
      for ten seconds, and from then on computes a new one. */
  lemma CacheAnswersExactly(caches: seq<Cache>, reqs: seq<Request>, given: seq<seq<Info>>, i: nat, j: nat)
    requires IsRun(caches, reqs, given) && i < j < |reqs| && reqs[i].user == reqs[j].user && StoredBy(caches, reqs, i)
    requires forall n: nat | i < n < j && reqs[n].user == reqs[i].user :: !StoredBy(caches, reqs, n)
    requires reqs[j].readable
    ensures if reqs[j].at - reqs[i].at < 10 then given[j] == given[i]
            else Fresh(reqs[j].tables, reqs[j].user, given[j])
  {
    assert Serves(caches[i], reqs[i], given[i], caches[i + 1]);
    assert Serves(caches[j], reqs[j], given[j], caches[j + 1]);
    EntryStays(caches, reqs, given, i + 1, j, reqs[i].user, Entry(given[i], reqs[i].at + CACHE_TTL));
  }

  /** A request that cannot read the cache, or whose user has no answer stored in
      the last ten seconds, gets a fresh one. */
  lemma FreshUnlessStored(caches: seq<Cache>, reqs: seq<Request>, given: seq<seq<Info>>, j: nat)
    requires IsRun(caches, reqs, given) && j < |reqs|
    requires !reqs[j].readable ||
             forall i: nat | i < j && reqs[i].user == reqs[j].user && StoredBy(caches, reqs, i) ::
               reqs[j].at - reqs[i].at >= 10
    ensures Fresh(reqs[j].tables, reqs[j].user, given[j])
  {
    assert Serves(caches[j], reqs[j], given[j], caches[j + 1]);
    if Hit(caches[j], reqs[j]) {
      var i := CacheHasSource(caches, reqs, given, j, reqs[j].user);
    }
  }
}
