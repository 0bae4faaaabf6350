/**
 * The eventlet API client as an object: the constructor that fills the queue
 * and the three operations that move connections, in the source's own steps.
 * Each is proved to be one atomic operation of `ApiClientPool`.
 */
module EventletApiClients {
  import opened Options
  import opened ApiClientPool

  /** How often `p` is among the first `j` configured providers. */
  function Listed(list: seq<Params>, p: Params, j: nat): nat
    requires j <= |list|
  {
    if j == 0 then 0 else Listed(list, p, j - 1) + if list[j - 1] == p then 1 else 0
  }

  /** The queue after `i` rounds and `j` more connections of the constructor. */
  ghost predicate Filled(pool: map<Conn, int>, next: int, serials: nat, list: seq<Params>, i: nat, j: nat) {
    && j <= |list|
    && serials == next - 1 == i * |list| + j
    && (forall x :: x in pool ==> pool[x] == x.serial + 1 <= serials && !x.noRelease && x.params in list)
    && (forall x, y :: x in pool && y in pool && x.serial == y.serial ==> x == y)
  }

  ghost predicate Counted(pool: map<Conn, int>, list: seq<Params>, i: nat, j: nat) {
    j <= |list| && forall p: Params :: |For(pool.Keys, p)| == i * Listed(list, p, |list|) + Listed(list, p, j)
  }

  lemma {:induction false} ForPlus(conns: set<Conn>, x: Conn, p: Params)
    requires x !in conns
    ensures |For(conns + {x}, p)| == |For(conns, p)| + if x.params == p then 1 else 0
  {
    assert For(conns + {x}, p) == For(conns, p) + if x.params == p then {x} else {};
  }

  lemma {:induction false} CountStep(pool: map<Conn, int>, next: int, list: seq<Params>, i: nat, j: nat, conn: Conn)
    requires Counted(pool, list, i, j) && j < |list| && conn !in pool && conn.params == list[j]
    ensures Counted(pool[conn := next], list, i, j + 1)
  {
    assert pool[conn := next].Keys == pool.Keys + {conn};
    forall p: Params
      ensures |For(pool[conn := next].Keys, p)| == i * Listed(list, p, |list|) + Listed(list, p, j + 1)
    {
      ForPlus(pool.Keys, conn, p);
    }
  }

  lemma {:induction false} CountRound(pool: map<Conn, int>, list: seq<Params>, i: nat)
    requires Counted(pool, list, i, |list|)
    ensures Counted(pool, list, i + 1, 0)
  {
    forall p: Params ensures |For(pool.Keys, p)| == (i + 1) * Listed(list, p, |list|) + Listed(list, p, 0) {
    }
  }

  /** `order` has come off the queue `was`, of which `pool` is left. */
  ghost predicate Drained(was: map<Conn, int>, pool: map<Conn, int>, order: seq<Conn>) {
    && (forall x :: x in was <==> x in pool || x in order)
    && (forall x :: x in pool ==> x in was && pool[x] == was[x] && x !in order)
    && (forall i, j :: 0 <= i < j < |order| ==> order[i] != order[j] && was[order[i]] <= was[order[j]])
    && (forall i, x :: 0 <= i < |order| && x in pool ==> was[order[i]] <= pool[x])
  }

  /** What a service-unavailable release makes of the `i`-th drained entry. */
  function Renumbered(was: map<Conn, int>, params: Params, first: int, order: seq<Conn>, i: nat): (int, Conn)
    requires i < |order| && order[i] in was
  {
    (if order[i].params == params then first + CountFor(order, params, i) else was[order[i]], order[i])
  }

  /** The list it keeps while it drains. */
  ghost predicate Kept(was: map<Conn, int>, params: Params, first: int, order: seq<Conn>, conns: seq<(int, Conn)>) {
    && |conns| == |order|
    && forall i :: 0 <= i < |order| ==> order[i] in was && conns[i] == Renumbered(was, params, first, order, i)
  }

  lemma {:induction false} DrainStep(was: map<Conn, int>, pool: map<Conn, int>, order: seq<Conn>, x: Conn)
    requires Drained(was, pool, order) && IsFirst(x, pool)
    ensures Drained(was, pool - {x}, order + [x]) && x in was && pool[x] == was[x]
    ensures |pool - {x}| < |pool|
  {
  }

  lemma {:induction false} DrainDone(was: map<Conn, int>, pool: map<Conn, int>, order: seq<Conn>)
    requires Drained(was, pool, order) && pool == map[]
    ensures IsDrain(order, was)
  {
  }

  lemma {:induction false} CountEmpty(order: seq<Conn>, p: Params)
    ensures CountFor(order, p, 0) == 0
  {
  }

  lemma {:induction false} KeepStep(was: map<Conn, int>, params: Params, first: int, order: seq<Conn>,
                                    conns: seq<(int, Conn)>, x: Conn)
    requires Kept(was, params, first, order, conns) && x in was
    ensures CountFor(order + [x], params, |order|) == CountFor(order, params, |order|)
    ensures Kept(was, params, first, order + [x],
                 conns + [(if x.params == params then first + CountFor(order, params, |order|) else was[x], x)])
  {
    var more := order + [x];
    CountPrefix(order, [x], params, |order|);
    forall i | 0 <= i < |order|
      ensures more[i] in was && Renumbered(was, params, first, more, i) == Renumbered(was, params, first, order, i)
    {
      CountPrefix(order, [x], params, i);
    }
  }

  lemma {:induction false} HolderFacts(c: Client, conn: Conn)
    requires Inv(c) && conn in c.held
    ensures conn !in c.pool && conn.params in c.providers
    ensures Conn(c.serials, conn.params, false) !in c.pool
  {
    hide Ranked, Conserved, OwnSemaphores;
  }

  /** The queue once every drained entry is back with its new rank. */
  ghost predicate Refilled(was: map<Conn, int>, order: seq<Conn>, params: Params, first: int, pool: map<Conn, int>) {
    && pool.Keys == was.Keys
    && forall i :: 0 <= i < |order| ==>
         order[i] in was && order[i] in pool && pool[order[i]] == Renumbered(was, params, first, order, i).0
  }

  lemma {:induction false} SentBackBy(pool: map<Conn, int>, order: seq<Conn>, conn: Conn, next: int,
                                      queue: map<Conn, int>, pool': map<Conn, int>)
    requires IsDrain(order, pool) && Refilled(pool, order, conn.params, next, queue) && conn !in pool
    requires pool' == queue[conn := next + CountFor(order, conn.params, |order|)]
    ensures SentBack(pool, order, conn, next, pool')
  {
  }

  /** Which fields of the client a release may change, and to what. */
  lemma {:induction false} ReleasedBy(c: Client, conn: Conn, bad: bool, unavail: bool, order: seq<Conn>, d: Client)
    requires Inv(c) && conn in c.held && conn.params in c.providers && !conn.noRelease
    requires unavail && !bad ==> IsDrain(order, c.pool)
    requires d == c.(held := c.held - {conn}, pool := d.pool, next := d.next, serials := d.serials)
    requires d.serials == if bad then c.serials + 1 else c.serials
    requires bad ==> d.pool == c.pool[Conn(c.serials, conn.params, false) := c.held[conn].priority] && d.next == c.next
    requires !bad && unavail ==>
               SentBack(c.pool, order, conn, c.next, d.pool) && d.next == c.next + CountFor(order, conn.params, |order|) + 1
    requires !bad && !unavail ==> d.pool == c.pool[conn := c.held[conn].priority] && d.next == c.next
    ensures Released(c, conn, bad, unavail, order, d) && Inv(d)
  {
    hide SentBack, CountFor, Inv, IsDrain;
    ReleaseKeepsInv(c, conn, bad, unavail, order, d);
  }

  lemma {:induction false} NewNone(pool: map<Conn, int>, params: Params, serial: nat)
    ensures WithNew(pool, NewConns(params, serial, 0)) == pool
  {
  }

  lemma {:induction false} NewStep(pool: map<Conn, int>, params: Params, serial: nat, n: nat)
    requires forall x :: x in pool ==> x.serial < serial
    ensures var x := Conn(serial + n, params, false);
            && x !in WithNew(pool, NewConns(params, serial, n))
            && WithNew(pool, NewConns(params, serial, n + 1)) == WithNew(pool, NewConns(params, serial, n))[x := 0]
  {
    assert NewConns(params, serial, n + 1) == NewConns(params, serial, n) + {Conn(serial + n, params, false)};
  }

  lemma {:induction false} KnownFacts(c: Client, params: Params)
    requires Inv(c)
    ensures params in c.providers <==> params in c.data
    ensures forall x :: x in c.pool ==> x.serial < c.serials
  {
    hide Ranked, Conserved;
  }

  lemma {:induction false} NoPick(c: Client, params: Params)
    requires Inv(c)
    ensures params !in c.data ==> IsRedirectPick(c.pool, params, None)
  {
    hide Ranked, Conserved;
  }

  lemma {:induction false} PickIsQueued(pool: map<Conn, int>, params: Params, pick: Option<Conn>)
    requires IsRedirectPick(pool, params, pick)
    ensures pick.Some? ==> pick.value in pool
  {
  }

  /** What a redirect checkout has sorted out of the drained `order`: the
      first connection to `params`, and all the others in `rest`. */
  ghost predicate Sieved(was: map<Conn, int>, params: Params, order: seq<Conn>, rest: seq<Conn>,
                         conns: seq<(int, Conn)>, found: bool, priority: int, conn: Conn) {
    && |conns| == |rest|
    && (forall i :: 0 <= i < |rest| ==> rest[i] in was && conns[i] == (was[rest[i]], rest[i]))
    && (forall i, j :: 0 <= i < j < |rest| ==> rest[i] != rest[j] && was[rest[i]] <= was[rest[j]])
    && (forall x :: x in order <==> x in rest || (found && x == conn))
    && (found ==> conn in was && conn !in rest && conn.params == params && priority == was[conn])
    && (forall x :: x in order && x.params == params ==> found && x in was && was[conn] <= was[x])
  }

  ghost predicate EndsWith(order: seq<Conn>, last: Conn) {
    order != [] ==> last == order[|order| - 1]
  }

  lemma {:induction false} EndsStart(last: Conn)
    ensures EndsWith([], last)
  {
  }

  lemma {:induction false} EndsSnoc(order: seq<Conn>, x: Conn)
    ensures EndsWith(order + [x], x)
  {
  }

  lemma {:induction false} SieveStart(was: map<Conn, int>, params: Params, conn: Conn)
    ensures Drained(was, was, []) && Sieved(was, params, [], [], [], false, 0, conn)
  {
  }

  lemma {:induction false} SieveHit(was: map<Conn, int>, pool: map<Conn, int>, params: Params, order: seq<Conn>,
                                    rest: seq<Conn>, conns: seq<(int, Conn)>, priority: int, conn: Conn, x: Conn)
    requires Drained(was, pool, order) && IsFirst(x, pool) && x.params == params
    requires Sieved(was, params, order, rest, conns, false, priority, conn)
    ensures Sieved(was, params, order + [x], rest, conns, true, pool[x], x)
  {
    assert forall y :: y in rest ==> y in order;
  }

  lemma {:induction false} SieveMiss(was: map<Conn, int>, pool: map<Conn, int>, params: Params, order: seq<Conn>,
                                     rest: seq<Conn>, conns: seq<(int, Conn)>, found: bool, priority: int, conn: Conn,
                                     x: Conn)
    requires Drained(was, pool, order) && IsFirst(x, pool) && (found || x.params != params)
    requires Sieved(was, params, order, rest, conns, found, priority, conn)
    ensures Sieved(was, params, order + [x], rest + [x], conns + [(pool[x], x)], found, priority, conn)
  {
    if found {
      var i :| 0 <= i < |order| && order[i] == conn;
    }
    assert forall y :: y in rest ==> y in order;
  }

  lemma {:induction false} SieveList(was: map<Conn, int>, params: Params, order: seq<Conn>, rest: seq<Conn>,
                                     conns: seq<(int, Conn)>, found: bool, priority: int, conn: Conn)
    requires Sieved(was, params, order, rest, conns, found, priority, conn)
    ensures |conns| == |rest| && forall i :: 0 <= i < |rest| ==> conns[i].1 == rest[i]
    ensures forall i, j :: 0 <= i < j < |rest| ==> rest[i] != rest[j]
  {
  }

  ghost predicate PutBack(pool: map<Conn, int>, rest: seq<Conn>, conns: seq<(int, Conn)>) {
    && |conns| == |rest| && pool.Keys == (set x | x in rest)
    && forall i :: 0 <= i < |rest| ==> pool[rest[i]] == conns[i].0
  }

  /** The queue once all but the connection picked are back. */
  lemma {:induction false} BackButPicked(was: map<Conn, int>, params: Params, order: seq<Conn>, rest: seq<Conn>,
                                         conns: seq<(int, Conn)>, found: bool, priority: int, conn: Conn, pool: map<Conn, int>)
    requires Sieved(was, params, order, rest, conns, found, priority, conn) && IsDrain(order, was)
    requires PutBack(pool, rest, conns)
    ensures pool == if found then was - {conn} else was
    ensures found ==> conn in was && priority == was[conn]
    ensures IsRedirectPick(was, params, if found then Some(conn) else None)
  {
    assert forall x :: x in was <==> x in order;
    assert forall x :: x in pool ==> x in was && pool[x] == was[x];
  }

  /** Which connection the loop variable holds then. */
  lemma {:induction false} LastPutBack(was: map<Conn, int>, params: Params, order: seq<Conn>, rest: seq<Conn>,
                                       conns: seq<(int, Conn)>, found: bool, priority: int, conn: Conn, pool: map<Conn, int>, drained: Conn)
    requires Sieved(was, params, order, rest, conns, found, priority, conn) && EndsWith(order, drained)
    requires PutBack(pool, rest, conns)
    ensures found && rest == [] ==> pool == map[] && drained == conn
    ensures rest != [] ==> pool != map[] && IsLast(rest[|rest| - 1], pool)
  {
    if rest == [] {
      assert pool.Keys == {};
      if found { assert conn in order && order[|order| - 1] in order; }
    } else {
      var last := rest[|rest| - 1];
      assert last in pool && pool != map[];
      forall y | y in pool ensures pool[y] <= pool[last] {
        assert y in rest;
        var i :| 0 <= i < |rest| && rest[i] == y;
        assert pool[rest[i]] == was[rest[i]] && pool[last] == was[last];
      }
    }
  }

  class EventletApiClient {
    const concurrent: nat
    var providers: set<Params>
    var data: map<Params, ProviderData>
    var pool: map<Conn, int>
    var held: map<Conn, Lease>
    var next: int
    var serials: nat
    var sems: nat
    ghost var quota: map<Params, nat>

    ghost function View(): Client
      reads this
    {
      Client(concurrent, providers, data, pool, held, next, serials, sems, quota)
    }

    /** `n` connections per listed provider, queued round by round with
        ascending priorities. */
    constructor (apiProviders: seq<Params>, n: nat)
      ensures concurrent == n && held == map[] && Inv(View())
      ensures providers == set p | p in apiProviders
      ensures forall p :: p in data ==> data[p].cookie == None
      ensures forall p :: p in quota ==> quota[p] == n * Listed(apiProviders, p, |apiProviders|)
      ensures next == 1 + n * |apiProviders|
      ensures forall x :: x in pool ==> pool[x] == x.serial + 1
    {
      concurrent := n;
      providers := set p | p in apiProviders;
      data, pool, held := map[], map[], map[];
      next, serials, sems := 1, 0, 0;
      quota := map p | p in apiProviders :: n * Listed(apiProviders, p, |apiProviders|);
      new;
      MakeSemaphores();
      FillQueue(apiProviders);
      assert Live(View()) == pool.Keys;
    }

    /** Constructor, first loop: a free semaphore and no cookie each. */
    method MakeSemaphores()
      requires data == map[]
      modifies `data, `sems
      ensures data.Keys == providers
      ensures forall p :: p in data ==> data[p].sem < sems && data[p].cookie == None
      ensures forall p, q :: p in data && q in data && data[p].sem == data[q].sem ==> p == q
    {
      var todo := providers;
      while todo != {}
        invariant todo <= providers && data.Keys == providers - todo
        invariant forall p :: p in data ==> data[p].sem < sems && data[p].cookie == None
        invariant forall p, q :: p in data && q in data && data[p].sem == data[q].sem ==> p == q
        decreases todo
      {
        var p :| p in todo;
        data := data[p := ProviderData(sems, None)];
        sems := sems + 1;
        todo := todo - {p};
      }
    }

    /** Constructor, second loop: round after round, one connection each. */
    method FillQueue(apiProviders: seq<Params>)
      requires pool == map[] && next == 1 && serials == 0
      modifies `pool, `next, `serials
      ensures Filled(pool, next, serials, apiProviders, concurrent, 0)
      ensures Counted(pool, apiProviders, concurrent, 0)
    {
      hide Counted;
      CountNone(pool, apiProviders);
      for i := 0 to concurrent
        invariant Filled(pool, next, serials, apiProviders, i, 0)
        invariant Counted(pool, apiProviders, i, 0)
      {
        for j := 0 to |apiProviders|
          invariant Filled(pool, next, serials, apiProviders, i, j)
          invariant Counted(pool, apiProviders, i, j)
        {
          var conn := Conn(serials, apiProviders[j], false);
          CountStep(pool, next, apiProviders, i, j, conn);
          pool := pool[conn := next];
          next := next + 1;
          serials := serials + 1;
        }
        CountRound(pool, apiProviders, i);
      }
    }
  
    // ------------------------------------------------------------ queue

    /** `get` on a queue that is not empty. */
    method Get() returns (priority: int, conn: Conn)
      requires pool != map[]
      modifies `pool
      ensures IsFirst(conn, old(pool)) && priority == old(pool)[conn] && pool == old(pool) - {conn}
    {
      FirstExists(pool);
      conn :| conn in pool && forall y :: y in pool ==> pool[conn] <= pool[y];
      priority := pool[conn];
      pool := pool - {conn};
    }

    method Put(priority: int, conn: Conn)
      requires conn !in pool
      modifies `pool
      ensures pool == old(pool)[conn := priority]
    {
      pool := pool[conn := priority];
    }

    method CreateConnection(params: Params, noRelease: bool) returns (conn: Conn)
      modifies `serials
      ensures conn == Conn(old(serials), params, noRelease) && serials == old(serials) + 1
    {
      conn := Conn(serials, params, noRelease);
      serials := serials + 1;
    }

    // ------------------------------------------------------- operations

    /** `acquire_connection`, once the queue has something to hand out, up to
        its login. `idle` is the outcome of the clock test. */
    method AcquireConnection(t: ThreadId, idle: bool) returns (r: Option<Conn>, ghost x: Conn)
      requires Inv(View()) && (providers != {} ==> pool != map[])
      modifies this
      ensures providers == {} ==> r == None && View() == old(View())
      ensures old(providers) != {} ==>
                && r.Some? && IsFirst(x, old(pool))
                && r.value == CheckedOut(old(View()), x, idle) && View() == Checkout(old(View()), t, x, idle)
      ensures r.Some? ==>
                && x in old(pool) && (forall y :: y in old(pool) ==> old(pool)[x] <= old(pool)[y]) && pool == old(pool) - {x}
                && (if idle then r.value == Conn(old(serials), x.params, false) else r.value == x)
                && held == old(held)[r.value := Lease(t, old(pool)[x])]
      ensures Inv(View())
    {
      hide Inv;
      if providers == {} {
        x := Conn(0, Params("", 0, false), false);
        return None, x;
      }
      var priority, conn := Get();
      x := conn;
      if idle {
        conn := CreateConnection(conn.params, false);
      }
      held := held[conn := Lease(t, priority)];
      r := Some(conn);
      CheckoutKeepsInv(old(View()), t, x, idle);
    }

    /** The drain-and-refill loop of a service-unavailable release. */
    method SendBack(params: Params) returns (ghost order: seq<Conn>)
      modifies `pool, `next
      ensures IsDrain(order, old(pool)) && Refilled(old(pool), order, params, old(next), pool)
      ensures pool.Keys == old(pool).Keys
      ensures next == old(next) + CountFor(order, params, |order|)
    {
      ghost var was, first := pool, next;
      var conns: seq<(int, Conn)>;
      conns, order := Drain(params);
      assert forall i :: 0 <= i < |conns| ==> conns[i].1 == order[i];
      var _ := Refill(conns, order, Conn(0, params, false));
      assert forall x :: x in was <==> x in order;
    }

    /** Puts the drained entries back; the loop variable keeps the last of them,
        or the connection it held before if there are none. */
    method Refill(conns: seq<(int, Conn)>, ghost order: seq<Conn>, drained: Conn) returns (conn: Conn)
      requires pool == map[] && |conns| == |order| && forall i :: 0 <= i < |conns| ==> conns[i].1 == order[i]
      requires forall i, j :: 0 <= i < j < |order| ==> order[i] != order[j]
      modifies `pool
      ensures pool.Keys == set x | x in order
      ensures forall i :: 0 <= i < |order| ==> pool[order[i]] == conns[i].0
      ensures conn == if order == [] then drained else order[|order| - 1]
    {
      conn := drained;
      for i := 0 to |conns|
        invariant conn == if i == 0 then drained else order[i - 1]
        invariant pool.Keys == set x | x in order[..i]
        invariant forall k :: 0 <= k < i ==> order[k] in pool && pool[order[k]] == conns[k].0
      {
        assert order[..i + 1] == order[..i] + [order[i]];
        conn := conns[i].1;
        Put(conns[i].0, conn);
      }
      assert order[..|order|] == order;
    }

    method Drain(params: Params) returns (conns: seq<(int, Conn)>, ghost order: seq<Conn>)
      modifies `pool, `next
      ensures pool == map[] && IsDrain(order, old(pool))
      ensures Kept(old(pool), params, old(next), order, conns)
      ensures next == old(next) + CountFor(order, params, |order|)
    {
      ghost var was, first := pool, next;
      conns, order := [], [];
      assert Drained(was, pool, order) && Kept(was, params, first, order, conns);
      hide Drained, Kept, CountFor, IsDrain, IsFirst, Renumbered;
      assert next == first + CountFor(order, params, |order|) by { CountEmpty(order, params); }
      while pool != map[]
        invariant Drained(was, pool, order) && Kept(was, params, first, order, conns)
        invariant next == first + CountFor(order, params, |order|)
        decreases |pool|
      {
        ghost var before := pool;
        var priority, conn := Get();
        DrainStep(was, before, order, conn);
        KeepStep(was, params, first, order, conns, conn);
        if conn.params == params {
          priority := next;
          next := next + 1;
        }
        CountSnoc(order, conn, params);
        assert priority == if conn.params == params then first + CountFor(order, params, |order|) else was[conn];
        conns := conns + [(priority, conn)];
        order := order + [conn];
      }
      DrainDone(was, pool, order);
    }

    /** `release_connection`. */
    method ReleaseConnection(conn: Conn, bad: bool, unavail: bool) returns (ghost order: seq<Conn>)
      requires Inv(View()) && conn in held
      modifies this
      ensures unavail && !bad ==> conn.params in old(providers) && !conn.noRelease ==> IsDrain(order, old(pool))
      ensures Released(old(View()), conn, bad, unavail, order, View())
      ensures Inv(View())
    {
      HolderFacts(View(), conn);
      if conn.params !in providers || conn.noRelease {
        hide Inv;
        DropKeepsInv(View(), conn);
        held := held - {conn};
        order := [];
      } else {
        hide Inv, IsDrain, Released;
        order := Requeue(conn, bad, unavail);
      }
    }

    /** The part of a release that concerns connections of the pool. */
    method Requeue(conn: Conn, bad: bool, unavail: bool) returns (ghost order: seq<Conn>)
      requires Inv(View()) && conn in held && conn.params in providers && !conn.noRelease
      modifies this
      ensures unavail && !bad ==> IsDrain(order, old(pool))
      ensures Released(old(View()), conn, bad, unavail, order, View())
      ensures Inv(View())
    {
      ghost var was := View();
      HolderFacts(was, conn);
      hide Inv, IsDrain, CountFor, Released, SentBack;
      var priority := held[conn].priority;
      held := held - {conn};
      ghost var freed := View();
      order := [];
      if bad {
        Replace(conn, priority);
      } else if unavail {
        order := SendToEnd(conn);
      } else {
        Put(priority, conn);
      }
      assert View() == freed.(pool := pool, next := next, serials := serials);
      ReleasedBy(was, conn, bad, unavail, order, View());
    }

    /** `conn` is in a bad state: a new connection takes its place. */
    method Replace(conn: Conn, priority: int)
      requires Conn(serials, conn.params, false) !in pool
      modifies `pool, `serials
      ensures pool == old(pool)[Conn(old(serials), conn.params, false) := priority] && serials == old(serials) + 1
    {
      var again := CreateConnection(conn.params, false);
      Put(priority, again);
    }

    /** `conn` returned 503: the provider's connections go last, it after them. */
    method SendToEnd(conn: Conn) returns (ghost order: seq<Conn>)
      requires conn !in pool
      modifies `pool, `next
      ensures IsDrain(order, old(pool)) && SentBack(old(pool), order, conn, old(next), pool)
      ensures next == old(next) + CountFor(order, conn.params, |order|) + 1
    {
      hide IsDrain, CountFor, SentBack, Refilled;
      order := SendBack(conn.params);
      var priority := next;
      next := next + 1;
      ghost var queue := pool;
      Put(priority, conn);
      SentBackBy(old(pool), order, conn, old(next), queue, pool);
    }
  
    /** `acquire_redirect_connection`, up to its login; `probe` is the
        connection whose cookie it then tests. */
    method AcquireRedirectConnection(t: ThreadId, params: Params)
      returns (conn: Conn, probe: Conn, ghost pick: Option<Conn>)
      requires Inv(View()) && concurrent > 0
      modifies this
      ensures IsRedirectPick(old(pool), params, pick)
      ensures conn == Redirected(old(View()), params, pick) && View() == Redirect(old(View()), t, params, pick)
      ensures IsProbe(old(View()), params, pick, probe)
      ensures conn.params == params && conn in held && held[conn].owner == t
      ensures pick.Some? ==>
                && pick.value in old(pool) && pick.value.params == params
                && forall y :: y in old(pool) && y.params == params ==> old(pool)[pick.value] <= old(pool)[y]
      ensures pick.None? ==> forall y :: y in old(pool) ==> y.params != params
      ensures Inv(View())
    {
      ghost var was := View();
      KnownFacts(was, params);
      NoPick(was, params);
      hide Inv, IsRedirectPick, NewConns, WithNew, Redirect, Redirected;
      if params in data {
        conn, probe, pick := CheckOutKnown(t, params);
      } else {
        pick := None;
        conn := CheckOutNew(t, params);
        probe := conn;
      }
      RedirectKeepsInv(was, t, params, pick);
      RedirectMeans(was, t, params, pick);
      PickMeans(was.pool, params, pick);
    }

    method CheckOutNew(t: ThreadId, params: Params) returns (conn: Conn)
      requires params !in data && concurrent > 0 && forall x :: x in pool ==> x.serial < serials
      modifies this
      ensures conn == Redirected(old(View()), params, None) && View() == Redirect(old(View()), t, params, None)
    {
      hide NewConns, WithNew;
      conn := AddProvider(params);
      held := held[conn := Lease(t, 0)];
    }

    /** A redirect to a known provider: a queued connection if there is one,
        else one more that will not be returned to the queue. */
    method CheckOutKnown(t: ThreadId, params: Params) returns (conn: Conn, probe: Conn, ghost pick: Option<Conn>)
      requires params in data && concurrent > 0
      modifies `pool, `held, `serials
      ensures IsRedirectPick(old(pool), params, pick)
      ensures conn == Redirected(old(View()), params, pick) && View() == Redirect(old(View()), t, params, pick)
      ensures IsProbe(old(View()), params, pick, probe)
    {
      hide IsRedirectPick, NewConns, WithNew, IsLast;
      var found, priority;
      found, priority, conn, probe := TakeMatching(params);
      pick := if found then Some(conn) else None;
      PickIsQueued(old(pool), params, pick);
      if !found {
        priority := 0;
        conn := CreateConnection(params, true);
        probe := conn;
      }
      held := held[conn := Lease(t, priority)];
    }

    /** Drains the queue for the first connection to `params`, then refills it. */
    method TakeMatching(params: Params) returns (found: bool, priority: int, conn: Conn, last: Conn)
      modifies `pool
      ensures found ==> conn in old(pool) && pool == old(pool) - {conn} && priority == old(pool)[conn]
      ensures !found ==> pool == old(pool)
      ensures IsRedirectPick(old(pool), params, if found then Some(conn) else None)
      ensures found ==> if pool == map[] then last == conn else IsLast(last, pool)
    {
      ghost var was := pool;
      var drained;
      var conns: seq<(int, Conn)>;
      ghost var order: seq<Conn>, rest: seq<Conn>;
      found, priority, conn, drained, conns, order, rest := DrainMatching(params);
      SieveList(was, params, order, rest, conns, found, priority, conn);
      hide Sieved, IsDrain, EndsWith, IsRedirectPick, IsLast;
      last := Refill(conns, rest, drained);
      BackButPicked(was, params, order, rest, conns, found, priority, conn, pool);
      LastPutBack(was, params, order, rest, conns, found, priority, conn, pool, drained);
    }

    method DrainMatching(params: Params)
      returns (found: bool, priority: int, conn: Conn, last: Conn, conns: seq<(int, Conn)>,
               ghost order: seq<Conn>, ghost rest: seq<Conn>)
      modifies `pool
      ensures pool == map[] && IsDrain(order, old(pool))
      ensures Sieved(old(pool), params, order, rest, conns, found, priority, conn)
      ensures EndsWith(order, last)
    {
      ghost var was := pool;
      found, priority, conns, order, rest := false, 0, [], [], [];
      conn, last := Conn(0, params, false), Conn(0, params, false);
      hide Drained, Sieved, IsFirst, IsDrain, EndsWith;
      SieveStart(was, params, conn);
      EndsStart(last);
      while pool != map[]
        invariant Drained(was, pool, order)
        invariant Sieved(was, params, order, rest, conns, found, priority, conn)
        invariant EndsWith(order, last)
        decreases |pool|
      {
        ghost var before := pool;
        var p, x := Get();
        DrainStep(was, before, order, x);
        if !found && x.params == params {
          SieveHit(was, before, params, order, rest, conns, priority, conn, x);
          found, priority, conn := true, p, x;
        } else {
          SieveMiss(was, before, params, order, rest, conns, found, priority, conn, x);
          conns := conns + [(p, x)];
          rest := rest + [x];
        }
        EndsSnoc(order, x);
        last := x;
        order := order + [x];
      }
      DrainDone(was, pool, order);
    }

    /** A redirect target that was not known: all but one of its connections
        are queued ahead of everything else. */
    method AddProvider(params: Params) returns (conn: Conn)
      requires concurrent > 0 && forall x :: x in pool ==> x.serial < serials
      modifies `providers, `data, `sems, `pool, `serials, `quota
      ensures conn == Conn(old(serials) + concurrent - 1, params, false)
      ensures providers == old(providers) + {params}
      ensures data == old(data)[params := ProviderData(old(sems), None)] && sems == old(sems) + 1
      ensures pool == WithNew(old(pool), NewConns(params, old(serials), concurrent - 1))
      ensures serials == old(serials) + concurrent && quota == old(quota)[params := concurrent]
    {
      ghost var was, first := pool, serials;
      providers := providers + {params};
      data := data[params := ProviderData(sems, None)];
      sems := sems + 1;
      quota := quota[params := concurrent];
      NewNone(was, params, first);
      hide NewConns, WithNew;
      conn := CreateConnection(params, false);
      for i := 0 to concurrent - 1
        invariant pool == WithNew(was, NewConns(params, first, i))
        invariant conn == Conn(first + i, params, false) && serials == first + i + 1
        modifies `pool, `serials
      {
        NewStep(was, params, first, i);
        Put(0, conn);
        conn := CreateConnection(params, false);
      }
    }

    // ----------------------------------------------------- provider data

    /** The semaphore stays the same object; only the cookie is replaced. */
    method SetAuthCookie(params: Params, cookie: Option<string>)
      requires Inv(View())
      modifies `data
      ensures View() == WithCookie(old(View()), params, cookie) && Inv(View())
      ensures data.Keys == old(data).Keys
      ensures forall p :: p in data ==>
                data[p].sem == old(data)[p].sem && data[p].cookie == if p == params then cookie else old(data)[p].cookie
    {
      hide Inv;
      CookieKeepsInv(View(), params, cookie);
      if params in data {
        data := data[params := ProviderData(data[params].sem, cookie)];
      }
    }
  }

  lemma {:induction false} CountNone(pool: map<Conn, int>, list: seq<Params>)
    requires pool == map[]
    ensures Counted(pool, list, 0, 0)
  {
  }
}
