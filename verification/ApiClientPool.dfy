/**
 * State and atomic operations of the NSX API client's connection pool.
 *
 * A `Client` value is what one green thread sees between two blocking points.
 * A `Conn` is the identity of an HTTPConnection object: its parameters and
 * its `no_release` mark are fixed when it is made, while the priority that the
 * client stashes on a checked-out connection lives in its `Lease`.
 * The priority queue maps each queued connection to its priority; ties are
 * broken arbitrarily. Nothing is ever queued twice: `Put` demands it.
 */
module ApiClientPool {
  import opened Options

  datatype Params = Params(host: string, port: int, isSsl: bool)
  datatype Conn = Conn(serial: nat, params: Params, noRelease: bool)

  type ThreadId = nat
  datatype Lease = Lease(owner: ThreadId, priority: int)
  datatype ProviderData = ProviderData(sem: nat, cookie: Option<string>)

  /** `quota` never influences a step: it records how many releasable
      connections a provider was given when it became known. */
  datatype Client = Client(
    concurrent: nat,
    providers: set<Params>,
    data: map<Params, ProviderData>,
    pool: map<Conn, int>,
    held: map<Conn, Lease>,
    next: int,
    serials: nat,
    sems: nat,
    quota: map<Params, nat>)

  // ---------------------------------------------------------------- queue

  /** `x` may be the next connection the queue hands out. */
  ghost predicate IsFirst(x: Conn, pool: map<Conn, int>) {
    x in pool && forall y :: y in pool ==> pool[x] <= pool[y]
  }

  /** `order` is one way in which repeated `get` calls can empty the queue. */
  ghost predicate IsDrain(order: seq<Conn>, pool: map<Conn, int>) {
    && (forall x :: x in order <==> x in pool)
    && (forall i, j :: 0 <= i < j < |order| ==> order[i] != order[j] && pool[order[i]] <= pool[order[j]])
  }

  lemma {:induction false} FirstExists(pool: map<Conn, int>)
    requires pool != map[]
    ensures exists x :: IsFirst(x, pool)
    decreases |pool|
  {
    var x :| x in pool;
    var rest := pool - {x};
    if rest == map[] {
      assert forall y :: y in pool ==> y == x || y in rest;
      assert IsFirst(x, pool);
    } else {
      FirstExists(rest);
      var y :| IsFirst(y, rest);
      assert forall z :: z in pool ==> z == x || z in rest;
      assert IsFirst(if pool[x] <= pool[y] then x else y, pool);
    }
  }

  /** How many of the first `k` connections of `order` belong to `p`. */
  function CountFor(order: seq<Conn>, p: Params, k: nat): (n: nat)
    requires k <= |order|
  {
    if k == 0 then 0 else CountFor(order, p, k - 1) + if order[k - 1].params == p then 1 else 0
  }

  // ----------------------------------------------------------- operations

  /** `acquire_connection` from the moment the queue hands out `x`. */
  function Checkout(c: Client, t: ThreadId, x: Conn, idle: bool): Client
    requires x in c.pool
  {
    c.(pool := c.pool - {x},
       held := c.held[CheckedOut(c, x, idle) := Lease(t, c.pool[x])],
       serials := if idle then c.serials + 1 else c.serials)
  }

  /** The connection `Checkout` hands to its caller: an idle one is replaced. */
  function CheckedOut(c: Client, x: Conn, idle: bool): Conn {
    if idle then Conn(c.serials, x.params, false) else x
  }

  /** The queue after a 503 from `conn`, when `order` was the drain order:
      every entry of that provider, and `conn` last, is pushed behind `next`. */
  ghost predicate SentBack(pool: map<Conn, int>, order: seq<Conn>, conn: Conn, next: int, pool': map<Conn, int>) {
    && pool'.Keys == pool.Keys + {conn}
    && (forall i :: 0 <= i < |order| && order[i] in pool && order[i] != conn ==>
          pool'[order[i]] == (if order[i].params == conn.params then next + CountFor(order, conn.params, i)
                              else pool[order[i]]))
    && pool'[conn] == next + CountFor(order, conn.params, |order|)
  }

  /** `release_connection`. */
  ghost predicate Released(c: Client, conn: Conn, bad: bool, unavail: bool, order: seq<Conn>, d: Client)
    requires conn in c.held
  {
    var priority := c.held[conn].priority;
    var freed := c.(held := c.held - {conn});
    if conn.params !in c.providers || conn.noRelease then d == freed
    else if bad then
      d == freed.(pool := c.pool[Conn(c.serials, conn.params, false) := priority], serials := c.serials + 1)
    else if unavail then
      && d == freed.(pool := d.pool, next := c.next + CountFor(order, conn.params, |order|) + 1)
      && SentBack(c.pool, order, conn, c.next, d.pool)
    else
      d == freed.(pool := c.pool[conn := priority])
  }

  /** A plain release. */
  function Returned(c: Client, conn: Conn): Client
    requires conn in c.held
  {
    var freed := c.(held := c.held - {conn});
    if conn.params !in c.providers || conn.noRelease then freed
    else freed.(pool := c.pool[conn := c.held[conn].priority])
  }

  /** The queued connection a redirect checkout may pick, if any. */
  ghost predicate IsRedirectPick(pool: map<Conn, int>, params: Params, pick: Option<Conn>) {
    match pick
    case Some(x) => x in pool && x.params == params && forall y :: y in pool && y.params == params ==> pool[x] <= pool[y]
    case None => forall y :: y in pool ==> y.params != params
  }

  function NewConns(params: Params, serial: nat, n: nat): set<Conn> {
    set s: nat | serial <= s < serial + n :: Conn(s, params, false)
  }

  function WithNew(pool: map<Conn, int>, conns: set<Conn>): map<Conn, int> {
    pool + (map x: Conn | x in conns :: 0)
  }

  /** `acquire_redirect_connection`, up to its login. */
  function Redirect(c: Client, t: ThreadId, params: Params, pick: Option<Conn>): Client
    requires c.concurrent > 0
    requires pick.Some? ==> pick.value in c.pool
  {
    if params in c.data then
      match pick
      case Some(x) => Checkout(c, t, x, false)
      case None => c.(held := c.held[Redirected(c, params, pick) := Lease(t, 0)], serials := c.serials + 1)
    else
      c.(providers := c.providers + {params},
         data := c.data[params := ProviderData(c.sems, None)],
         sems := c.sems + 1,
         pool := WithNew(c.pool, NewConns(params, c.serials, c.concurrent - 1)),
         held := c.held[Redirected(c, params, pick) := Lease(t, 0)],
         serials := c.serials + c.concurrent,
         quota := c.quota[params := c.concurrent])
  }

  /** The connection `Redirect` hands to its caller. */
  function Redirected(c: Client, params: Params, pick: Option<Conn>): Conn
    requires c.concurrent > 0
  {
    if params in c.data then
      match pick
      case Some(x) => x
      case None => Conn(c.serials, params, true)
    else Conn(c.serials + c.concurrent - 1, params, false)
  }

  /** No entry comes after `x`. */
  ghost predicate IsLast(x: Conn, pool: map<Conn, int>) {
    x in pool && forall y :: y in pool ==> pool[y] <= pool[x]
  }

  /** The connection whose cookie a redirect checkout tests. If it picked one
      from the queue this is the last of the others, which the loop that puts
      them back leaves behind, or the one picked if there are no others; else it
      is the one it made. */
  ghost predicate IsProbe(c: Client, params: Params, pick: Option<Conn>, probe: Conn)
    requires c.concurrent > 0
  {
    if params in c.data && pick.Some? && c.pool - {pick.value} != map[] then IsLast(probe, c.pool - {pick.value})
    else probe == Redirected(c, params, pick)
  }

  /** What a checkout does: the connection leaves the queue, its user has it or, if
      it was idle too long, a new one to the same provider, at the priority it
      was queued with. */
  lemma {:induction false} CheckoutMeans(c: Client, t: ThreadId, x: Conn, idle: bool)
    requires x in c.pool
    ensures var d, conn := Checkout(c, t, x, idle), CheckedOut(c, x, idle);
            && d.pool == c.pool - {x} && d.held == c.held[conn := Lease(t, c.pool[x])]
            && (idle ==> conn.serial == c.serials && d.serials == c.serials + 1 && conn.params == x.params && !conn.noRelease)
            && (!idle ==> conn == x && d.serials == c.serials)
            && d.providers == c.providers && d.data == c.data && d.next == c.next && d.quota == c.quota && d.concurrent == c.concurrent
  {
  }

  /** What a release does but after a 503: a connection in a bad state is replaced
      by a new one to the same provider, any other goes back itself, both at the
      priority it was checked out with; one that is not to be released, or of a
      server that is no provider, is dropped. */
  lemma {:induction false} ReleaseMeans(c: Client, conn: Conn, bad: bool, unavail: bool, order: seq<Conn>, d: Client)
    requires conn in c.held && Released(c, conn, bad, unavail, order, d)
    ensures d.held == c.held - {conn} && d.providers == c.providers && d.data == c.data && d.quota == c.quota
    ensures conn.params !in c.providers || conn.noRelease ==> d.pool == c.pool && d.next == c.next
    ensures conn.params in c.providers && !conn.noRelease && bad ==>
              exists y: Conn :: y.serial == c.serials && y.params == conn.params && !y.noRelease
                && d.pool == c.pool[y := c.held[conn].priority] && d.serials == c.serials + 1 && d.next == c.next
    ensures conn.params in c.providers && !conn.noRelease && !bad && !unavail ==>
              d.pool == c.pool[conn := c.held[conn].priority] && d.next == c.next
  {
    if conn.params in c.providers && !conn.noRelease && bad {
      var y := Conn(c.serials, conn.params, false);
      assert y.serial == c.serials && d.pool == c.pool[y := c.held[conn].priority];
    }
  }

  /** What a redirect checkout does: of a known target the first connection queued,
      or one made for this use only; of a new one the last of the configured
      number, with the others queued before everything else, a semaphore of its
      own and no cookie. */
  lemma {:induction false} PickMeans(pool: map<Conn, int>, params: Params, pick: Option<Conn>)
    requires IsRedirectPick(pool, params, pick)
    ensures pick.Some? ==>
              && pick.value in pool && pick.value.params == params
              && forall y :: y in pool && y.params == params ==> pool[pick.value] <= pool[y]
    ensures pick.None? ==> forall y :: y in pool ==> y.params != params
  {
  }

  lemma {:induction false} RedirectMeans(c: Client, t: ThreadId, params: Params, pick: Option<Conn>)
    requires c.concurrent > 0 && IsRedirectPick(c.pool, params, pick)
    ensures var d, conn := Redirect(c, t, params, pick), Redirected(c, params, pick);
            && conn.params == params && conn in d.held && d.held[conn].owner == t && d.next == c.next && d.concurrent == c.concurrent
            && (params in c.data && pick.Some? ==>
                  conn == pick.value && d.pool == c.pool - {conn} && d.held == c.held[conn := Lease(t, c.pool[conn])])
            && (params in c.data && pick.None? ==>
                  conn.noRelease && conn.serial == c.serials && d.pool == c.pool && d.held == c.held[conn := Lease(t, 0)])
            && (params in c.data ==> d.data == c.data && d.providers == c.providers && d.quota == c.quota)
    ensures var d, conn := Redirect(c, t, params, pick), Redirected(c, params, pick);
            params !in c.data ==>
              && !conn.noRelease && d.held == c.held[conn := Lease(t, 0)]
              && d.providers == c.providers + {params} && d.quota == c.quota[params := c.concurrent]
              && d.data == c.data[params := ProviderData(c.sems, None)] && d.sems == c.sems + 1
    ensures var d := Redirect(c, t, params, pick);
            params !in c.data ==>
              forall y :: y in d.pool && (y !in c.pool || d.pool[y] != c.pool[y]) ==> d.pool[y] == 0 && y.params == params && !y.noRelease
  {
  }

  /** `set_auth_cookie`: unknown providers are ignored. */
  function WithCookie(c: Client, params: Params, cookie: Option<string>): Client {
    if params in c.data then c.(data := c.data[params := c.data[params].(cookie := cookie)]) else c
  }

  // ------------------------------------------------------------ invariant

  ghost function Releasable(held: map<Conn, Lease>): set<Conn> {
    set h | h in held && !h.noRelease
  }

  /** Every releasable connection, pooled or checked out. */
  ghost function Live(c: Client): set<Conn> {
    c.pool.Keys + Releasable(c.held)
  }

  ghost function For(conns: set<Conn>, p: Params): set<Conn> {
    set x | x in conns && x.params == p
  }

  /** No connection is both pooled and checked out, `no_release` ones are
      never pooled, and all are of a known provider. */
  ghost predicate Apart(pool: map<Conn, int>, held: map<Conn, Lease>, providers: set<Params>, serials: nat) {
    && (forall x :: x in pool ==> x !in held && !x.noRelease && x.serial < serials && x.params in providers)
    && (forall h :: h in held ==> h.serial < serials && h.params in providers)
  }

  /** Every provider has its own semaphore. */
  ghost predicate OwnSemaphores(data: map<Params, ProviderData>, providers: set<Params>,
                                quota: map<Params, nat>, sems: nat) {
    && data.Keys == providers == quota.Keys
    && (forall p :: p in data ==> data[p].sem < sems)
    && (forall p, q :: p in data && q in data && data[p].sem == data[q].sem ==> p == q)
  }

  /** Non-zero priorities are distinct over the pool and the checked-out
      connections, and all are below the next one to be given. */
  ghost predicate Ranked(pool: map<Conn, int>, held: map<Conn, Lease>, next: int) {
    && 1 <= next
    && (forall x :: x in pool ==> 0 <= pool[x] < next)
    && (forall h :: h in held ==> 0 <= held[h].priority < next)
    && (forall x, y :: x in pool && y in pool && pool[x] == pool[y] != 0 ==> x == y)
    && (forall h, g :: h in held && g in held && held[h].priority == held[g].priority != 0 ==> h == g)
    && (forall x, h :: x in pool && h in held && pool[x] == held[h].priority ==> pool[x] == 0)
  }

  ghost predicate Conserved(live: set<Conn>, quota: map<Params, nat>) {
    forall p :: p in quota ==> |For(live, p)| == quota[p]
  }

  ghost predicate Inv(c: Client) {
    && Apart(c.pool, c.held, c.providers, c.serials)
    && OwnSemaphores(c.data, c.providers, c.quota, c.sems)
    && Ranked(c.pool, c.held, c.next)
    && Conserved(Live(c), c.quota)
  }

  // --------------------------------------------------------- preservation

  lemma {:induction false} SwapCount(live: set<Conn>, x: Conn, y: Conn, p: Params)
    requires x in live && (y == x || y !in live) && x.params == y.params
    ensures |For(live - {x} + {y}, p)| == |For(live, p)|
  {
    if p == x.params {
      assert For(live - {x} + {y}, p) == For(live, p) - {x} + {y};
    } else {
      assert For(live - {x} + {y}, p) == For(live, p);
    }
  }

  lemma {:induction false} SwapConserves(live: set<Conn>, quota: map<Params, nat>, x: Conn, y: Conn)
    requires Conserved(live, quota)
    requires x in live && (y == x || y !in live) && x.params == y.params
    ensures Conserved(live - {x} + {y}, quota)
  {
    forall p | p in quota ensures |For(live - {x} + {y}, p)| == quota[p] {
      SwapCount(live, x, y, p);
    }
  }

  // The queue hands out `x`; its caller leases `y`, which is `x` or fresh.

  lemma {:induction false} ApartTake(pool: map<Conn, int>, held: map<Conn, Lease>, providers: set<Params>,
                                     serials: nat, x: Conn, y: Conn, lease: Lease, serials': nat)
    requires Apart(pool, held, providers, serials) && x in pool && serials <= serials'
    requires y == x || (y.serial >= serials && y.serial < serials' && y.params in providers)
    ensures Apart(pool - {x}, held[y := lease], providers, serials')
    ensures y !in held && (y == x || y !in pool.Keys + Releasable(held))
    ensures !y.noRelease ==>
              (pool - {x}).Keys + Releasable(held[y := lease]) == pool.Keys + Releasable(held) - {x} + {y}
  {
  }

  lemma {:induction false} RankedTake(pool: map<Conn, int>, held: map<Conn, Lease>, next: int,
                                      x: Conn, y: Conn, lease: Lease)
    requires Ranked(pool, held, next) && x in pool && y !in held && lease.priority == pool[x]
    ensures Ranked(pool - {x}, held[y := lease], next)
  {
  }

  /** An idle connection is replaced one for one, with the same priority. */
  lemma {:induction false} CheckoutKeepsInv(c: Client, t: ThreadId, x: Conn, idle: bool)
    requires Inv(c) && x in c.pool
    ensures Inv(Checkout(c, t, x, idle))
    ensures Live(Checkout(c, t, x, idle)) == Live(c) - {x} + {CheckedOut(c, x, idle)}
  {
    assert !x.noRelease && x.params in c.providers;
    hide Apart, OwnSemaphores, Ranked, Conserved, Releasable;
    var d, y := Checkout(c, t, x, idle), CheckedOut(c, x, idle);
    ApartTake(c.pool, c.held, c.providers, c.serials, x, y, Lease(t, c.pool[x]), d.serials);
    RankedTake(c.pool, c.held, c.next, x, y, Lease(t, c.pool[x]));
    SwapConserves(Live(c), c.quota, x, y);
  }

  // The holder of `x` gives it back; `y`, which is `x` or fresh, is queued.

  lemma {:induction false} ApartGive(pool: map<Conn, int>, held: map<Conn, Lease>, providers: set<Params>,
                                     serials: nat, x: Conn, y: Conn, serials': nat)
    requires Apart(pool, held, providers, serials) && x in held && serials <= serials'
    requires y == x || (y.serial >= serials && y.serial < serials' && y.params == x.params)
    requires !x.noRelease && !y.noRelease
    ensures y !in pool && (y == x || y !in pool.Keys + Releasable(held)) && x in Releasable(held)
    ensures forall pool': map<Conn, int> | pool'.Keys == pool.Keys + {y} ::
              && Apart(pool', held - {x}, providers, serials')
              && pool'.Keys + Releasable(held - {x}) == pool.Keys + Releasable(held) - {x} + {y}
  {
  }

  lemma {:induction false} RankedGive(pool: map<Conn, int>, held: map<Conn, Lease>, next: int, x: Conn, y: Conn)
    requires Ranked(pool, held, next) && x in held && y !in pool
    ensures Ranked(pool[y := held[x].priority], held - {x}, next)
  {
  }

  /** A plain release, and one in a bad state: the connection, or the one
      made to replace it, comes back with the priority it was given out at. */
  lemma {:induction false} ReturnKeepsInv(c: Client, conn: Conn, y: Conn, serials: nat)
    requires Inv(c) && conn in c.held && !conn.noRelease && conn.params in c.providers && !y.noRelease
    requires y == conn || (y.serial == c.serials && y.params == conn.params)
    requires serials == if y == conn then c.serials else c.serials + 1
    ensures Inv(c.(pool := c.pool[y := c.held[conn].priority], held := c.held - {conn}, serials := serials))
  {
    hide Apart, OwnSemaphores, Ranked, Conserved, Releasable;
    ApartGive(c.pool, c.held, c.providers, c.serials, conn, y, serials);
    RankedGive(c.pool, c.held, c.next, conn, y);
    SwapConserves(Live(c), c.quota, conn, y);
  }

  // Leases of `no_release` connections come and go without a trace.

  lemma {:induction false} RankedDrop(pool: map<Conn, int>, held: map<Conn, Lease>, next: int, x: Conn)
    requires Ranked(pool, held, next)
    ensures Ranked(pool, held - {x}, next)
  {
  }

  lemma {:induction false} RankedZeroLease(pool: map<Conn, int>, held: map<Conn, Lease>, next: int, x: Conn, t: ThreadId)
    requires Ranked(pool, held, next) && x !in held
    ensures Ranked(pool, held[x := Lease(t, 0)], next)
  {
  }

  lemma {:induction false} ApartDrop(pool: map<Conn, int>, held: map<Conn, Lease>, providers: set<Params>,
                                     serials: nat, x: Conn)
    requires Apart(pool, held, providers, serials) && x.noRelease
    ensures Apart(pool, held - {x}, providers, serials) && Releasable(held - {x}) == Releasable(held)
  {
  }

  lemma {:induction false} ApartOverflow(pool: map<Conn, int>, held: map<Conn, Lease>, providers: set<Params>,
                                         serials: nat, x: Conn, lease: Lease)
    requires Apart(pool, held, providers, serials) && x.noRelease && x.serial == serials && x.params in providers
    ensures Apart(pool, held[x := lease], providers, serials + 1)
    ensures Releasable(held[x := lease]) == Releasable(held) && x !in held
  {
  }

  lemma {:induction false} DropKeepsInv(c: Client, conn: Conn)
    requires Inv(c) && conn.noRelease
    ensures Inv(c.(held := c.held - {conn}))
  {
    hide Apart, OwnSemaphores, Ranked, Conserved, Releasable;
    ApartDrop(c.pool, c.held, c.providers, c.serials, conn);
    RankedDrop(c.pool, c.held, c.next, conn);
  }

  // ------------------------------------------- service unavailable release

  lemma {:induction false} CountGrows(order: seq<Conn>, p: Params, i: nat, j: nat)
    requires i <= j <= |order|
    ensures CountFor(order, p, i) <= CountFor(order, p, j)
    ensures i < j && order[i].params == p ==> CountFor(order, p, i) < CountFor(order, p, j)
    decreases j
  {
    if i < j { CountGrows(order, p, i, j - 1); }
  }

  lemma {:induction false} SentBackRank(pool: map<Conn, int>, order: seq<Conn>, conn: Conn, next: int,
                                        pool': map<Conn, int>, x: Conn)
    requires IsDrain(order, pool) && conn !in pool && SentBack(pool, order, conn, next, pool') && x in pool
    ensures x in pool'
    ensures if x.params == conn.params then next <= pool'[x] < pool'[conn] else pool'[x] == pool[x]
  {
    var i :| 0 <= i < |order| && order[i] == x;
    CountGrows(order, conn.params, 0, i);
    CountGrows(order, conn.params, i, |order|);
  }

  lemma {:induction false} SentBackPair(pool: map<Conn, int>, order: seq<Conn>, conn: Conn, next: int,
                                        pool': map<Conn, int>, i: nat, j: nat)
    requires forall x :: x in order ==> x in pool
    requires conn !in pool && SentBack(pool, order, conn, next, pool')
    requires i < j < |order| && order[i].params == conn.params == order[j].params
    ensures pool'[order[i]] < pool'[order[j]]
  {
    assert order[i] in pool && order[j] in pool;
    CountGrows(order, conn.params, i, j);
  }

  lemma {:induction false} DrainIndices(order: seq<Conn>, pool: map<Conn, int>, x: Conn, y: Conn) returns (i: nat, j: nat)
    requires IsDrain(order, pool) && x in pool && y in pool && x != y
    ensures i < |order| && j < |order| && i != j && order[i] == x && order[j] == y
    ensures pool[x] < pool[y] ==> i < j
    ensures forall z :: z in order ==> z in pool
  {
    i :| 0 <= i < |order| && order[i] == x;
    j :| 0 <= j < |order| && order[j] == y;
  }

  /** The ranks handed out by a service-unavailable release: the provider's
      connections keep their order, behind everything else and before `conn`. */
  lemma {:induction false} SentBackOrder(pool: map<Conn, int>, order: seq<Conn>, conn: Conn, next: int, pool': map<Conn, int>)
    requires IsDrain(order, pool) && conn !in pool && SentBack(pool, order, conn, next, pool')
    ensures pool'.Keys == pool.Keys + {conn}
    ensures forall x :: x in pool && x.params != conn.params ==> pool'[x] == pool[x]
    ensures forall x :: x in pool && x.params == conn.params ==> next <= pool'[x] < pool'[conn]
    ensures forall x, y :: x in pool && y in pool && x.params == conn.params == y.params && pool[x] < pool[y] ==>
              pool'[x] < pool'[y]
    ensures forall x, y :: x in pool && y in pool && x.params == conn.params == y.params && x != y ==>
              pool'[x] != pool'[y]
  {
    assert pool'.Keys == pool.Keys + {conn};
    hide SentBack, IsDrain;
    forall x | x in pool
      ensures if x.params == conn.params then next <= pool'[x] < pool'[conn] else pool'[x] == pool[x]
    {
      SentBackRank(pool, order, conn, next, pool', x);
    }
    forall x, y | x in pool && y in pool && x.params == conn.params == y.params && x != y
      ensures pool'[x] != pool'[y] && (pool[x] < pool[y] ==> pool'[x] < pool'[y])
    {
      var i, j := DrainIndices(order, pool, x, y);
      if i < j { SentBackPair(pool, order, conn, next, pool', i, j); }
      else { SentBackPair(pool, order, conn, next, pool', j, i); }
    }
  }

  lemma {:induction false} RankedBack(pool: map<Conn, int>, held: map<Conn, Lease>, order: seq<Conn>, conn: Conn,
                                      next: int, pool': map<Conn, int>)
    requires Ranked(pool, held, next) && conn in held && conn !in pool
    requires IsDrain(order, pool) && SentBack(pool, order, conn, next, pool')
    ensures Ranked(pool', held - {conn}, next + CountFor(order, conn.params, |order|) + 1)
  {
    hide IsDrain, CountFor;
    SentBackOrder(pool, order, conn, next, pool');
  }

  /** What a release after a 503 changes, by field. */
  lemma {:induction false} UnavailableFields(c: Client, conn: Conn, order: seq<Conn>, d: Client)
    requires Inv(c) && conn in c.held && !conn.noRelease && Released(c, conn, false, true, order, d)
    ensures d == c.(pool := d.pool, held := c.held - {conn}, next := c.next + CountFor(order, conn.params, |order|) + 1)
    ensures SentBack(c.pool, order, conn, c.next, d.pool) && d.pool.Keys == c.pool.Keys + {conn} && conn !in c.pool
  {
    HolderKnown(c, conn);
    hide Inv, CountFor;
  }

  lemma {:induction false} ApartGiven(pool: map<Conn, int>, held: map<Conn, Lease>, providers: set<Params>, serials: nat,
                                      x: Conn, pool': map<Conn, int>, live: set<Conn>)
    requires Apart(pool, held, providers, serials) && x in held && !x.noRelease
    requires pool'.Keys == pool.Keys + {x} && live == pool.Keys + Releasable(held)
    ensures Apart(pool', held - {x}, providers, serials) && pool'.Keys + Releasable(held - {x}) == live
  {
    ApartGive(pool, held, providers, serials, x, x, serials);
    assert live - {x} + {x} == live;
  }

  lemma {:induction false} UnavailableKeepsInv(c: Client, conn: Conn, order: seq<Conn>, d: Client)
    requires Inv(c) && conn in c.held && !conn.noRelease && IsDrain(order, c.pool)
    requires Released(c, conn, false, true, order, d)
    ensures Inv(d)
  {
    hide Apart, OwnSemaphores, Ranked, Conserved, Releasable, IsDrain, SentBack, CountFor, For, Released;
    UnavailableFields(c, conn, order, d);
    ApartGiven(c.pool, c.held, c.providers, c.serials, conn, d.pool, Live(c));
    RankedBack(c.pool, c.held, order, conn, c.next, d.pool);
  }

  lemma {:induction false} HolderKnown(c: Client, conn: Conn)
    requires Inv(c) && conn in c.held
    ensures conn.params in c.providers && conn !in c.pool && conn.serial < c.serials
  {
  }

  lemma {:induction false} ReleaseKeepsInv(c: Client, conn: Conn, bad: bool, unavail: bool, order: seq<Conn>, d: Client)
    requires Inv(c) && conn in c.held && Released(c, conn, bad, unavail, order, d)
    requires unavail && !bad ==> IsDrain(order, c.pool)
    ensures Inv(d)
  {
    hide Inv, SentBack, IsDrain;
    HolderKnown(c, conn);
    if conn.noRelease {
      DropKeepsInv(c, conn);
    } else if bad {
      ReturnKeepsInv(c, conn, Conn(c.serials, conn.params, false), c.serials + 1);
    } else if unavail {
      UnavailableKeepsInv(c, conn, order, d);
    } else {
      ReturnKeepsInv(c, conn, conn, c.serials);
    }
  }

  /** In `pool'`, everything of `p` is behind everything else, `conn` last;
      connections of other providers keep their rank, those of `p` their order. */
  ghost predicate GoesLast(pool: map<Conn, int>, conn: Conn, pool': map<Conn, int>) {
    && pool'.Keys == pool.Keys + {conn}
    && (forall x, y :: x in pool' && y in pool' && x.params != conn.params && y.params == conn.params ==> pool'[x] < pool'[y])
    && (forall x :: x in pool' && x != conn ==> pool'[x] < pool'[conn])
    && (forall x :: x in pool && x.params != conn.params ==> pool'[x] == pool[x])
    && (forall x, y :: x in pool && y in pool && x.params == conn.params == y.params && pool[x] < pool[y] ==>
          pool'[x] < pool'[y])
  }

  lemma {:induction false} SentBackGoesLast(pool: map<Conn, int>, order: seq<Conn>, conn: Conn, next: int, pool': map<Conn, int>)
    requires IsDrain(order, pool) && conn !in pool && SentBack(pool, order, conn, next, pool')
    requires forall x :: x in pool ==> pool[x] < next
    ensures GoesLast(pool, conn, pool')
  {
    assert pool'[conn] >= next;
    hide IsDrain, SentBack, CountFor;
    SentBackOrder(pool, order, conn, next, pool');
  }

  /** A 503 sends every pooled connection of that provider, the released one
      last, behind all connections of other providers; both groups keep their
      internal order and no connection is lost. */
  lemma {:induction false} UnavailableGoesLast(c: Client, conn: Conn, order: seq<Conn>, d: Client)
    requires Inv(c) && conn in c.held && !conn.noRelease && IsDrain(order, c.pool)
    requires Released(c, conn, false, true, order, d)
    ensures GoesLast(c.pool, conn, d.pool) && d.held == c.held - {conn}
  {
    assert conn.params in c.providers && conn !in c.pool;
    hide IsDrain, SentBack, Conserved, OwnSemaphores, Apart, GoesLast;
    SentBackGoesLast(c.pool, order, conn, c.next, d.pool);
  }

  // ------------------------------------------------- releasing twice

  ghost function Elements(order: seq<Conn>): set<Conn> {
    set x | x in order
  }

  lemma {:induction false} PrefixCount(order: seq<Conn>, p: Params, k: nat)
    requires k <= |order| && forall i, j :: 0 <= i < j < |order| ==> order[i] != order[j]
    ensures CountFor(order, p, k) == |For(Elements(order[..k]), p)|
  {
    if k == 0 {
      assert For(Elements(order[..0]), p) == {};
    } else {
      PrefixCount(order, p, k - 1);
      var x := order[k - 1];
      assert order[..k] == order[..k - 1] + [x] && x !in order[..k - 1];
      ElementsMore(order[..k - 1], x, p);
    }
  }

  lemma {:induction false} ElementsMore(order: seq<Conn>, x: Conn, p: Params)
    requires x !in order
    ensures |For(Elements(order + [x]), p)| == |For(Elements(order), p)| + if x.params == p then 1 else 0
  {
    var before := Elements(order);
    assert Elements(order + [x]) == before + {x};
    assert For(before + {x}, p) == if x.params == p then For(before, p) + {x} else For(before, p);
  }

  lemma {:induction false} DrainCount(order: seq<Conn>, pool: map<Conn, int>, p: Params)
    requires IsDrain(order, pool)
    ensures CountFor(order, p, |order|) == |For(pool.Keys, p)|
  {
    PrefixCount(order, p, |order|);
    assert order[..|order|] == order && Elements(order) == pool.Keys;
  }

  lemma {:induction false} DrainMembers(order: seq<Conn>, pool: map<Conn, int>, x: Conn)
    requires IsDrain(order, pool)
    ensures x in order <==> x in pool
  {
  }

  lemma {:induction false} HeldMembers(held: map<Conn, Lease>, x: Conn)
    ensures x in Releasable(held) ==> x in held
  {
  }

  lemma {:induction false} LiveCount(c: Client, p: Params)
    requires Inv(c) && p in c.providers
    ensures |For(c.pool.Keys, p)| + |For(Releasable(c.held), p)| == c.quota[p]
  {
    hide Ranked;
    var queued, held := For(c.pool.Keys, p), For(Releasable(c.held), p);
    assert For(Live(c), p) == queued + held && queued !! held;
    assert p in c.quota;
  }

  /** `order` lists the queue's entries before a connection that was given back
      already, and that its user `t` does not have any more, is given back
      again: then one entry more is queued, and its provider has one connection
      too many for good. Unless it is in a bad state and gets replaced, the same
      connection is queued twice, or queued while somebody else uses it, if it
      is still in circulation. */
  lemma {:induction false} SecondReleaseOverfills(c: Client, t: ThreadId, conn: Conn, bad: bool, order: seq<Conn>, p: Params)
    requires Inv(c) && conn.params in c.providers && !conn.noRelease && IsDrain(order, c.pool) && p in c.providers
    requires conn in c.held ==> c.held[conn].owner != t
    ensures p in c.quota
    ensures var entries := order + [if bad then Conn(c.serials, conn.params, false) else conn];
            && CountFor(entries, p, |entries|) + |For(Releasable(c.held), p)| == c.quota[p] + (if p == conn.params then 1 else 0)
            && (!bad && conn in Live(c) ==> conn in order || (conn in c.held && c.held[conn].owner != t))
  {
    assert p in c.quota;
    hide Inv, IsDrain, Releasable, For, CountFor;
    DrainCount(order, c.pool, p);
    LiveCount(c, p);
    CountSnoc(order, if bad then Conn(c.serials, conn.params, false) else conn, p);
    DrainMembers(order, c.pool, conn);
    HeldMembers(c.held, conn);
  }

  lemma {:induction false} CountPrefix(order: seq<Conn>, more: seq<Conn>, p: Params, k: nat)
    requires k <= |order|
    ensures CountFor(order + more, p, k) == CountFor(order, p, k)
  {
    if k > 0 { CountPrefix(order, more, p, k - 1); }
  }

  lemma {:induction false} CountSnoc(order: seq<Conn>, x: Conn, p: Params)
    ensures CountFor(order + [x], p, |order| + 1) == CountFor(order, p, |order|) + if x.params == p then 1 else 0
  {
    CountPrefix(order, [x], p, |order|);
  }

  // ------------------------------------------------------ redirect checkout

  lemma {:induction false} CountNewConns(params: Params, serial: nat, n: nat)
    ensures |NewConns(params, serial, n)| == n
  {
    if n > 0 {
      CountNewConns(params, serial, n - 1);
      assert NewConns(params, serial, n) == NewConns(params, serial, n - 1) + {Conn(serial + n - 1, params, false)};
    }
  }

  lemma {:induction false} NewProviderConserves(live: set<Conn>, quota: map<Params, nat>, params: Params, more: set<Conn>)
    requires Conserved(live, quota) && For(live, params) == {} && params !in quota
    requires forall x :: x in more ==> x.params == params
    ensures Conserved(live + more, quota[params := |more|])
  {
    var quota' := quota[params := |more|];
    forall p | p in quota' ensures |For(live + more, p)| == quota'[p] {
      if p == params {
        assert For(live + more, p) == For(live, p) + more;
      } else {
        assert For(live + more, p) == For(live, p);
      }
    }
  }

  lemma {:induction false} OverflowKeepsInv(c: Client, t: ThreadId, params: Params)
    requires Inv(c) && params in c.providers
    ensures Inv(c.(held := c.held[Conn(c.serials, params, true) := Lease(t, 0)], serials := c.serials + 1))
  {
    hide Apart, OwnSemaphores, Ranked, Conserved, Releasable;
    var x := Conn(c.serials, params, true);
    ApartOverflow(c.pool, c.held, c.providers, c.serials, x, Lease(t, 0));
    RankedZeroLease(c.pool, c.held, c.next, x, t);
  }

  lemma {:induction false} RankedNew(pool: map<Conn, int>, held: map<Conn, Lease>, next: int, conns: set<Conn>)
    requires Ranked(pool, held, next)
    ensures Ranked(WithNew(pool, conns), held, next)
  {
  }

  /** `n` connections to a provider that was not known before: all but the
      last are queued at priority 0 and the last is leased. */
  lemma {:induction false} ApartNew(pool: map<Conn, int>, held: map<Conn, Lease>, providers: set<Params>,
                                    serials: nat, params: Params, n: nat, lease: Lease)
    requires Apart(pool, held, providers, serials) && n > 0
    ensures var h := Conn(serials + n - 1, params, false);
            var pool', held' := WithNew(pool, NewConns(params, serials, n - 1)), held[h := lease];
            && h !in held
            && Apart(pool', held', providers + {params}, serials + n)
            && pool'.Keys + Releasable(held') == pool.Keys + Releasable(held) + NewConns(params, serials, n)
  {
    var h := Conn(serials + n - 1, params, false);
    assert NewConns(params, serials, n) == NewConns(params, serials, n - 1) + {h};
    assert WithNew(pool, NewConns(params, serials, n - 1)).Keys == pool.Keys + NewConns(params, serials, n - 1);
    assert Releasable(held[h := lease]) == Releasable(held) + {h};
  }

  lemma {:induction false} NewSemaphore(c: Client, params: Params)
    requires Inv(c) && params !in c.data
    ensures OwnSemaphores(c.data[params := ProviderData(c.sems, None)], c.providers + {params},
                          c.quota[params := c.concurrent], c.sems + 1)
    ensures For(Live(c), params) == {} && params !in c.quota
  {
  }

  lemma {:induction false} NewProviderKeepsInv(c: Client, t: ThreadId, params: Params, pick: Option<Conn>)
    requires Inv(c) && params !in c.data && c.concurrent > 0 && (pick.Some? ==> pick.value in c.pool)
    ensures Inv(Redirect(c, t, params, pick))
  {
    hide Apart, Ranked, OwnSemaphores, Conserved, Releasable, For, NewConns, WithNew;
    NewSemaphore(c, params);
    ApartNew(c.pool, c.held, c.providers, c.serials, params, c.concurrent, Lease(t, 0));
    RankedNew(c.pool, c.held, c.next, NewConns(params, c.serials, c.concurrent - 1));
    RankedZeroLease(WithNew(c.pool, NewConns(params, c.serials, c.concurrent - 1)), c.held, c.next,
                    Redirected(c, params, None), t);
    CountNewConns(params, c.serials, c.concurrent);
    assert forall x :: x in NewConns(params, c.serials, c.concurrent) ==> x.params == params by { NewConnsParams(params, c.serials, c.concurrent); }
    NewProviderConserves(Live(c), c.quota, params, NewConns(params, c.serials, c.concurrent));
  }

  lemma {:induction false} NewConnsParams(params: Params, serial: nat, n: nat)
    ensures forall x :: x in NewConns(params, serial, n) ==> x.params == params
  {
  }

  lemma {:induction false} RedirectKeepsInv(c: Client, t: ThreadId, params: Params, pick: Option<Conn>)
    requires Inv(c) && c.concurrent > 0 && IsRedirectPick(c.pool, params, pick)
    ensures Inv(Redirect(c, t, params, pick))
  {
    assert c.data.Keys == c.providers;
    hide Inv;
    if params !in c.data {
      NewProviderKeepsInv(c, t, params, pick);
    } else if pick.None? {
      OverflowKeepsInv(c, t, params);
    } else {
      CheckoutKeepsInv(c, t, pick.value, false);
    }
  }

  lemma {:induction false} CookieKeepsInv(c: Client, params: Params, cookie: Option<string>)
    requires Inv(c)
    ensures Inv(WithCookie(c, params, cookie))
  {
    hide Apart, Ranked, Conserved, Releasable, For;
  }
}
