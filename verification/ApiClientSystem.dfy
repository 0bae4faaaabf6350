/**
 * The API client shared by green threads: every interleaving of checkouts,
 * logins, redirects, cookie resets and releases.
 *
 * A step is what a thread does between two points where it may be switched
 * out: waiting for the queue, for the login response or for the semaphore.
 */
module ApiClientSystem {
  import opened Options
  import opened ApiClientPool

  /** Where a thread stands. `sem` is the semaphore object it read from the
      provider data when it decided to log in. */
  datatype Pc =
    | Idle
    | Holding(conn: Conn)
    | LoginTry(conn: Conn, sem: nat)
    | LoggingIn(conn: Conn, sem: nat)
    | LoginBlocked(conn: Conn, sem: nat)
    | LoginWoken(conn: Conn, sem: nat)
    | Stranded(conn: Conn)  // its login was cut short, so nobody will release `conn`

  datatype System = System(client: Client, counters: map<nat, int>, pcs: map<ThreadId, Pc>)

  datatype Action =
    | Acquire(t: ThreadId, x: Conn, idle: bool, autoLogin: bool)
    | TryLogin(t: ThreadId)
    | FinishLogin(t: ThreadId, cookie: Option<string>)
    | FailLogin(t: ThreadId, named: bool)
    | WakeWaiter(t: ThreadId)
    | KillWaiter(t: ThreadId, named: bool)
    | LeaveWait(t: ThreadId)
    | Unauthorized(t: ThreadId)
    | GiveBack(t: ThreadId, bad: bool, unavail: bool, order: seq<Conn>)
    | FollowRedirect(t: ThreadId, params: Params, pick: Option<Conn>, probe: Conn)

  predicate HasCookie(c: Client, params: Params) {
    params in c.data && c.data[params].cookie.Some?
  }

  /** `_wait_for_login` is entered only without a cookie; it reads the
      semaphore of the connection's provider. */
  function AfterCheckout(c: Client, conn: Conn, login: bool): Pc {
    if login && conn.params in c.data then LoginTry(conn, c.data[conn.params].sem) else Holding(conn)
  }

  /** After a login that was cut short nobody will release the connection, unless
      its request knows it by name: because a redirect checked out the one that
      the request gave back just before. */
  function AfterCut(conn: Conn, named: bool): Pc {
    if named then Holding(conn) else Stranded(conn)
  }

  ghost predicate Next(s: System, a: Action, s': System) {
    && a.t in s.pcs
    && match a
       case Acquire(t, x, idle, autoLogin) =>
         && s.pcs[t].Idle? && IsFirst(x, s.client.pool)
         && var d, conn := Checkout(s.client, t, x, idle), CheckedOut(s.client, x, idle);
            s' == s.(client := d, pcs := s.pcs[t := AfterCheckout(d, conn, autoLogin && !HasCookie(d, conn.params))])
       case TryLogin(t) =>
         && s.pcs[t].LoginTry? && s.pcs[t].sem in s.counters
         && var pc := s.pcs[t];
            s' == if s.counters[pc.sem] > 0
                  then s.(counters := s.counters[pc.sem := s.counters[pc.sem] - 1], pcs := s.pcs[t := LoggingIn(pc.conn, pc.sem)])
                  else s.(pcs := s.pcs[t := LoginBlocked(pc.conn, pc.sem)])
       case FinishLogin(t, cookie) =>
         && s.pcs[t].LoggingIn? && s.pcs[t].sem in s.counters
         && s' == System(WithCookie(s.client, s.pcs[t].conn.params, cookie),
                         s.counters[s.pcs[t].sem := s.counters[s.pcs[t].sem] + 1],
                         s.pcs[t := Holding(s.pcs[t].conn)])
       case FailLogin(t, named) =>
         && s.pcs[t].LoggingIn? && s.pcs[t].sem in s.counters
         && s' == s.(counters := s.counters[s.pcs[t].sem := s.counters[s.pcs[t].sem] + 1],
                     pcs := s.pcs[t := AfterCut(s.pcs[t].conn, named)])
       case KillWaiter(t, named) =>
         s.pcs[t].LoginBlocked? && s' == s.(pcs := s.pcs[t := AfterCut(s.pcs[t].conn, named)])
       case WakeWaiter(t) =>
         && s.pcs[t].LoginBlocked? && s.pcs[t].sem in s.counters && s.counters[s.pcs[t].sem] > 0
         && s' == s.(counters := s.counters[s.pcs[t].sem := s.counters[s.pcs[t].sem] - 1],
                     pcs := s.pcs[t := LoginWoken(s.pcs[t].conn, s.pcs[t].sem)])
       case LeaveWait(t) =>
         && s.pcs[t].LoginWoken? && s.pcs[t].sem in s.counters
         && s' == s.(counters := s.counters[s.pcs[t].sem := s.counters[s.pcs[t].sem] + 1],
                     pcs := s.pcs[t := Holding(s.pcs[t].conn)])
       case Unauthorized(t) =>
         (s.pcs[t].Holding? || s.pcs[t].LoggingIn?) && s' == s.(client := WithCookie(s.client, s.pcs[t].conn.params, None))
       case GiveBack(t, bad, unavail, order) =>
         && s.pcs[t].Holding? && s.pcs[t].conn in s.client.held
         && (unavail && !bad ==> IsDrain(order, s.client.pool))
         && Released(s.client, s.pcs[t].conn, bad, unavail, order, s'.client)
         && s' == s.(client := s'.client, pcs := s.pcs[t := Idle])
       case FollowRedirect(t, params, pick, probe) =>
         && s.pcs[t].Idle? && s.client.concurrent > 0
         && IsRedirectPick(s.client.pool, params, pick) && IsProbe(s.client, params, pick, probe)
         && var d, conn := Redirect(s.client, t, params, pick), Redirected(s.client, params, pick);
            s' == System(d,
                         if params in s.client.data then s.counters else s.counters[s.client.sems := 1],
                         s.pcs[t := AfterCheckout(d, conn, !HasCookie(d, probe.params))])
  }

  // ------------------------------------------------------------ invariant

  /** The threads' positions and the client's leases tell the same story. */
  ghost predicate Accounted(held: map<Conn, Lease>, pcs: map<ThreadId, Pc>) {
    && (forall t :: t in pcs && !pcs[t].Idle? ==> pcs[t].conn in held && held[pcs[t].conn].owner == t)
    && (forall h :: h in held ==> held[h].owner in pcs && !pcs[held[h].owner].Idle? && pcs[held[h].owner].conn == h)
  }

  predicate Inside(pc: Pc, sem: nat) {
    (pc.LoggingIn? || pc.LoginWoken?) && pc.sem == sem
  }

  predicate Logging(pc: Pc) {
    pc.LoginTry? || pc.LoggingIn? || pc.LoginBlocked? || pc.LoginWoken?
  }

  /** A counter is 1 when nobody is inside, else 0 with exactly one inside. */
  ghost predicate Exclusive(counters: map<nat, int>, pcs: map<ThreadId, Pc>) {
    && (forall k :: k in counters ==> 0 <= counters[k] <= 1)
    && (forall t :: t in pcs && Logging(pcs[t]) ==> pcs[t].sem in counters)
    && (forall t, k :: t in pcs && k in counters && Inside(pcs[t], k) ==> counters[k] == 0)
    && (forall k :: k in counters && counters[k] == 0 ==> exists t :: t in pcs && Inside(pcs[t], k))
    && (forall t, u, k :: t in pcs && u in pcs && Inside(pcs[t], k) && Inside(pcs[u], k) ==> t == u)
  }

  /** A thread logging in uses the semaphore its provider still has. */
  ghost predicate OwnSemaphore(data: map<Params, ProviderData>, counters: map<nat, int>, sems: nat, pcs: map<ThreadId, Pc>) {
    && (forall k :: k in counters ==> k < sems)
    && (forall p :: p in data ==> data[p].sem in counters)
    && (forall t :: t in pcs && Logging(pcs[t]) ==>
          pcs[t].conn.params in data && data[pcs[t].conn.params].sem == pcs[t].sem)
  }

  ghost predicate SystemInv(s: System) {
    && Inv(s.client)
    && Accounted(s.client.held, s.pcs)
    && Exclusive(s.counters, s.pcs)
    && OwnSemaphore(s.client.data, s.counters, s.client.sems, s.pcs)
  }

  /** Nothing is checked out yet and every semaphore is free. */
  ghost predicate Init(s: System) {
    && Inv(s.client) && s.client.held == map[] && s.client.concurrent > 0
    && (forall t :: t in s.pcs ==> s.pcs[t].Idle?)
    && (forall k :: k in s.counters <==> exists p :: p in s.client.data && s.client.data[p].sem == k)
    && (forall k :: k in s.counters ==> s.counters[k] == 1)
  }

  lemma {:induction false} InitCounters(s: System)
    requires Init(s)
    ensures Exclusive(s.counters, s.pcs) && Accounted(s.client.held, s.pcs)
    ensures OwnSemaphore(s.client.data, s.counters, s.client.sems, s.pcs)
  {
    hide Apart, Ranked, Conserved;
  }

  lemma {:induction false} InitInv(s: System)
    requires Init(s)
    ensures SystemInv(s)
  {
    hide Inv, Exclusive, Accounted, OwnSemaphore;
    InitCounters(s);
  }

  // -------------------------------------------------------- preservation

  lemma {:induction false} Enters(counters: map<nat, int>, pcs: map<ThreadId, Pc>, t: ThreadId, pc: Pc)
    requires Exclusive(counters, pcs) && t in pcs && !pcs[t].LoggingIn? && !pcs[t].LoginWoken?
    requires Logging(pc) && pc.sem in counters && Inside(pc, pc.sem) && counters[pc.sem] > 0
    ensures Exclusive(counters[pc.sem := counters[pc.sem] - 1], pcs[t := pc])
  {
    var n, q := counters[pc.sem := counters[pc.sem] - 1], pcs[t := pc];
    forall k | k in n && n[k] == 0 ensures exists u :: u in q && Inside(q[u], k) {
      if k == pc.sem {
        assert Inside(q[t], k);
      } else {
        var u :| u in pcs && Inside(pcs[u], k);
        assert Inside(q[u], k);
      }
    }
  }

  lemma {:induction false} Leaves(counters: map<nat, int>, pcs: map<ThreadId, Pc>, t: ThreadId, pc: Pc)
    requires Exclusive(counters, pcs) && t in pcs && (pcs[t].LoggingIn? || pcs[t].LoginWoken?) && !Logging(pc)
    ensures pcs[t].sem in counters
    ensures Exclusive(counters[pcs[t].sem := counters[pcs[t].sem] + 1], pcs[t := pc])
  {
    var sem := pcs[t].sem;
    assert Logging(pcs[t]) && Inside(pcs[t], sem);
    var n, q := counters[sem := counters[sem] + 1], pcs[t := pc];
    forall k | k in n && n[k] == 0 ensures exists u :: u in q && Inside(q[u], k) {
      var u :| u in pcs && Inside(pcs[u], k);
      assert Inside(q[u], k);
    }
  }

  lemma {:induction false} StaysOutside(counters: map<nat, int>, pcs: map<ThreadId, Pc>, t: ThreadId, pc: Pc)
    requires Exclusive(counters, pcs) && t in pcs && !pcs[t].LoggingIn? && !pcs[t].LoginWoken?
    requires !pc.LoggingIn? && !pc.LoginWoken? && (Logging(pc) ==> pc.sem in counters)
    ensures Exclusive(counters, pcs[t := pc])
  {
    var q := pcs[t := pc];
    forall k | k in counters && counters[k] == 0 ensures exists u :: u in q && Inside(q[u], k) {
      var u :| u in pcs && Inside(pcs[u], k);
      assert Inside(q[u], k);
    }
  }

  lemma {:induction false} NewCounter(counters: map<nat, int>, pcs: map<ThreadId, Pc>, k: nat)
    requires Exclusive(counters, pcs) && k !in counters
    ensures Exclusive(counters[k := 1], pcs)
  {
    assert forall t :: t in pcs && Inside(pcs[t], k) ==> Logging(pcs[t]);
  }

  lemma {:induction false} Moves(held: map<Conn, Lease>, pcs: map<ThreadId, Pc>, t: ThreadId, pc: Pc)
    requires Accounted(held, pcs) && t in pcs && !pcs[t].Idle? && !pc.Idle? && pc.conn == pcs[t].conn
    ensures Accounted(held, pcs[t := pc])
  {
  }

  lemma {:induction false} Leases(held: map<Conn, Lease>, pcs: map<ThreadId, Pc>, t: ThreadId, pc: Pc, lease: Lease)
    requires Accounted(held, pcs) && t in pcs && pcs[t].Idle? && !pc.Idle? && pc.conn !in held && lease.owner == t
    ensures Accounted(held[pc.conn := lease], pcs[t := pc])
  {
  }

  lemma {:induction false} Unleases(held: map<Conn, Lease>, pcs: map<ThreadId, Pc>, t: ThreadId)
    requires Accounted(held, pcs) && t in pcs && !pcs[t].Idle?
    ensures Accounted(held - {pcs[t].conn}, pcs[t := Idle])
  {
  }

  lemma {:induction false} SameSemaphores(data: map<Params, ProviderData>, data': map<Params, ProviderData>,
                                          counters: map<nat, int>, counters': map<nat, int>,
                                          sems: nat, sems': nat, pcs: map<ThreadId, Pc>, t: ThreadId, pc: Pc)
    requires OwnSemaphore(data, counters, sems, pcs) && t in pcs && sems <= sems' && data.Keys <= data'.Keys
    requires forall p :: p in data ==> data'[p].sem == data[p].sem
    requires forall p :: p in data' && p !in data ==> data'[p].sem in counters'
    requires counters.Keys <= counters'.Keys && forall k :: k in counters' && k !in counters ==> k < sems'
    requires Logging(pc) ==> pc.conn.params in data' && data'[pc.conn.params].sem == pc.sem
    ensures OwnSemaphore(data', counters', sems', pcs[t := pc])
  {
  }

  /** The holder's connection is put back, so no other thread's lease moves. */
  lemma {:induction false} ReleasedLeases(c: Client, conn: Conn, bad: bool, unavail: bool, order: seq<Conn>, d: Client)
    requires conn in c.held && Released(c, conn, bad, unavail, order, d)
    ensures d.held == c.held - {conn} && d.data == c.data && d.sems == c.sems && d.concurrent == c.concurrent
    ensures d.quota == c.quota && d.providers == c.providers
  {
  }

  lemma {:induction false} FreshLease(c: Client, t: ThreadId, x: Conn, idle: bool)
    requires Inv(c) && x in c.pool
    ensures CheckedOut(c, x, idle) !in c.held
    ensures CheckedOut(c, x, idle).params in c.data
    ensures Checkout(c, t, x, idle).held == c.held[CheckedOut(c, x, idle) := Lease(t, c.pool[x])]
    ensures Checkout(c, t, x, idle).providers == c.providers
  {
  }

  lemma {:induction false} AcquireKeepsInv(s: System, a: Action, s': System)
    requires SystemInv(s) && a.Acquire? && Next(s, a, s')
    ensures SystemInv(s')
  {
    hide Inv, Accounted, Exclusive, OwnSemaphore;
    CheckoutKeepsInv(s.client, a.t, a.x, a.idle);
    FreshLease(s.client, a.t, a.x, a.idle);
    CounterOf(s, a.x.params);
    var conn, pc := CheckedOut(s.client, a.x, a.idle), s'.pcs[a.t];
    Leases(s.client.held, s.pcs, a.t, pc, Lease(a.t, s.client.pool[a.x]));
    StaysOutside(s.counters, s.pcs, a.t, pc);
    SameSemaphores(s.client.data, s.client.data, s.counters, s.counters, s.client.sems, s.client.sems, s.pcs, a.t, pc);
  }

  lemma {:induction false} CounterOf(s: System, p: Params)
    requires OwnSemaphore(s.client.data, s.counters, s.client.sems, s.pcs) && p in s.client.data
    ensures s.client.data[p].sem in s.counters
  {
  }

  lemma {:induction false} LoginKeepsInv(s: System, a: Action, s': System)
    requires SystemInv(s) && Next(s, a, s')
    requires a.TryLogin? || a.WakeWaiter? || a.KillWaiter? || a.LeaveWait? || a.FailLogin?
    ensures SystemInv(s')
  {
    hide Inv, Accounted, Exclusive, OwnSemaphore;
    var pc := s'.pcs[a.t];
    Moves(s.client.held, s.pcs, a.t, pc);
    LoginState(s, a.t);
    if a.LeaveWait? || a.FailLogin? {
      Leaves(s.counters, s.pcs, a.t, pc);
    } else if pc.LoginBlocked? || a.KillWaiter? {
      StaysOutside(s.counters, s.pcs, a.t, pc);
    } else {
      Enters(s.counters, s.pcs, a.t, pc);
    }
    SameSemaphores(s.client.data, s.client.data, s.counters, s'.counters, s.client.sems, s.client.sems, s.pcs, a.t, pc);
  }

  lemma {:induction false} LoginState(s: System, t: ThreadId)
    requires SystemInv(s) && t in s.pcs && Logging(s.pcs[t])
    ensures var pc := s.pcs[t];
            && pc.sem in s.counters && pc.conn.params in s.client.data
            && s.client.data[pc.conn.params].sem == pc.sem
  {
  }

  lemma {:induction false} CookieKeepsSystemInv(s: System, a: Action, s': System)
    requires SystemInv(s) && Next(s, a, s') && (a.FinishLogin? || a.Unauthorized?)
    ensures SystemInv(s')
  {
    hide Inv, Accounted, Exclusive, OwnSemaphore;
    var pc := s'.pcs[a.t];
    CookieKeepsInv(s.client, pc.conn.params, if a.FinishLogin? then a.cookie else None);
    Moves(s.client.held, s.pcs, a.t, pc);
    if a.FinishLogin? {
      Leaves(s.counters, s.pcs, a.t, pc);
    } else {
      if pc.LoggingIn? { LoginState(s, a.t); }
      assert s'.pcs == s.pcs[a.t := pc];
    }
    SameSemaphores(s.client.data, s'.client.data, s.counters, s'.counters, s.client.sems, s'.client.sems, s.pcs, a.t, pc);
  }

  lemma {:induction false} GiveBackKeepsInv(s: System, a: Action, s': System)
    requires SystemInv(s) && Next(s, a, s') && a.GiveBack?
    ensures SystemInv(s')
  {
    hide Inv, Accounted, Exclusive, OwnSemaphore, IsDrain, Released;
    var conn := s.pcs[a.t].conn;
    ReleaseKeepsInv(s.client, conn, a.bad, a.unavail, a.order, s'.client);
    ReleasedLeases(s.client, conn, a.bad, a.unavail, a.order, s'.client);
    Unleases(s.client.held, s.pcs, a.t);
    StaysOutside(s.counters, s.pcs, a.t, Idle);
    SameSemaphores(s.client.data, s.client.data, s.counters, s.counters, s.client.sems, s.client.sems, s.pcs, a.t, Idle);
  }

  /** What a redirect checkout adds to the client, by field. */
  lemma {:induction false} RedirectFields(c: Client, t: ThreadId, params: Params, pick: Option<Conn>)
    requires Inv(c) && c.concurrent > 0 && IsRedirectPick(c.pool, params, pick)
    ensures var d, conn := Redirect(c, t, params, pick), Redirected(c, params, pick);
            && conn !in c.held && conn.params == params && params in d.data
            && d.held == c.held[conn := Lease(t, if params in c.data && pick.Some? then c.pool[conn] else 0)]
            && d.data == (if params in c.data then c.data else c.data[params := ProviderData(c.sems, None)])
            && d.sems == (if params in c.data then c.sems else c.sems + 1)
  {
    hide Ranked, Conserved;
  }

  lemma {:induction false} RedirectKeepsSystemInv(s: System, a: Action, s': System)
    requires SystemInv(s) && Next(s, a, s') && a.FollowRedirect?
    ensures SystemInv(s')
  {
    hide Inv, Accounted, Exclusive, OwnSemaphore, IsRedirectPick, IsProbe;
    var c, d, conn := s.client, s'.client, Redirected(s.client, a.params, a.pick);
    var pc := s'.pcs[a.t];
    RedirectKeepsInv(c, a.t, a.params, a.pick);
    RedirectFields(c, a.t, a.params, a.pick);
    hide Redirect, Redirected;
    Leases(c.held, s.pcs, a.t, pc, d.held[conn]);
    if a.params in c.data {
      CounterOf(s, a.params);
    } else {
      NoSuchCounter(s);
      NewCounter(s.counters, s.pcs, c.sems);
    }
    StaysOutside(s'.counters, s.pcs, a.t, pc);
    SameSemaphores(c.data, d.data, s.counters, s'.counters, c.sems, d.sems, s.pcs, a.t, pc);
  }

  lemma {:induction false} NoSuchCounter(s: System)
    requires OwnSemaphore(s.client.data, s.counters, s.client.sems, s.pcs)
    ensures s.client.sems !in s.counters
  {
  }

  /** Every atomic step of every thread keeps the invariant. */
  lemma {:induction false} NextKeepsInv(s: System, a: Action, s': System)
    requires SystemInv(s) && Next(s, a, s')
    ensures SystemInv(s')
  {
    hide SystemInv, Next;
    match a
    case Acquire(_, _, _, _) => AcquireKeepsInv(s, a, s');
    case FinishLogin(_, _) => CookieKeepsSystemInv(s, a, s');
    case Unauthorized(_) => CookieKeepsSystemInv(s, a, s');
    case GiveBack(_, _, _, _) => GiveBackKeepsInv(s, a, s');
    case FollowRedirect(_, _, _, _) => RedirectKeepsSystemInv(s, a, s');
    case _ => LoginKeepsInv(s, a, s');
  }

  /** A provider's cookie changes only when a login to it ends, to what the login
      brought, and when an answer says that it has expired. */
  lemma {:induction false} CookieChanges(s: System, a: Action, s': System, p: Params)
    requires SystemInv(s) && Next(s, a, s') && p in s.client.data
    ensures p in s'.client.data
    ensures var mine := !s.pcs[a.t].Idle? && s.pcs[a.t].conn.params == p;
            s'.client.data[p].cookie ==
            if a.FinishLogin? && mine then a.cookie
            else if a.Unauthorized? && mine then None
            else s.client.data[p].cookie
  {
    hide Inv, Exclusive, OwnSemaphore, Accounted, IsDrain, IsFirst, IsProbe, IsRedirectPick, Released;
    if a.GiveBack? {
      ReleasedLeases(s.client, s.pcs[a.t].conn, a.bad, a.unavail, a.order, s'.client);
    }
  }

  /** An acquire makes its caller log in exactly if it is to and the provider has
      no cookie, with the provider's own semaphore; then the login is begun by
      whoever gets the semaphore, and the others wait for its end. */
  lemma {:induction false} AcquireLogsIn(s: System, a: Action, s': System)
    requires SystemInv(s) && Next(s, a, s')
    ensures a.Acquire? ==>
              if a.autoLogin && !HasCookie(s.client, a.x.params) then
                s'.pcs[a.t].LoginTry? && s'.pcs[a.t].conn.params == a.x.params && s'.pcs[a.t].sem == s.client.data[a.x.params].sem
              else s'.pcs[a.t].Holding?
    ensures a.TryLogin? ==>
              if s.counters[s.pcs[a.t].sem] > 0 then s'.pcs[a.t].LoggingIn? && s'.counters[s.pcs[a.t].sem] == s.counters[s.pcs[a.t].sem] - 1
              else s'.pcs[a.t].LoginBlocked? && s'.counters == s.counters
  {
    hide Ranked, Conserved, Exclusive, OwnSemaphore, Accounted, IsDrain, IsProbe, IsRedirectPick, Released;
    if a.Acquire? {
      FreshLease(s.client, a.t, a.x, a.idle);
      assert a.x.params in s.client.data;
    }
  }

  // ----------------------------------------------------------------- runs

  ghost predicate Run(states: seq<System>, actions: seq<Action>) {
    && |states| == |actions| + 1 && Init(states[0])
    && forall i :: 0 <= i < |actions| ==> Next(states[i], actions[i], states[i + 1])
  }

  lemma {:induction false} RunInv(states: seq<System>, actions: seq<Action>, i: nat)
    requires Run(states, actions) && i < |states|
    ensures SystemInv(states[i])
    decreases i
  {
    hide SystemInv, Next, Init;
    if i == 0 {
      InitInv(states[0]);
    } else {
      RunInv(states, actions, i - 1);
      NextKeepsInv(states[i - 1], actions[i - 1], states[i]);
    }
  }

  /** Once known, a provider keeps its semaphore object and its quota. */
  ghost predicate Extends(c: Client, d: Client) {
    forall p :: p in c.data ==>
      && p in d.data && d.data[p].sem == c.data[p].sem
      && (p in c.quota ==> p in d.quota && d.quota[p] == c.quota[p])
  }

  lemma {:induction false} NextExtends(s: System, a: Action, s': System)
    requires SystemInv(s) && Next(s, a, s')
    ensures Extends(s.client, s'.client) && s'.client.concurrent == s.client.concurrent
    ensures forall p :: p in s'.client.data && p !in s.client.data ==>
              p in s'.client.quota && s'.client.quota[p] == s.client.concurrent
  {
    hide Accounted, Exclusive, OwnSemaphore, Inv, Extends, IsDrain, IsFirst, IsProbe, Released;
    match a
    case GiveBack(_, bad, unavail, order) =>
      ReleasedLeases(s.client, s.pcs[a.t].conn, bad, unavail, order, s'.client);
      SameExtends(s.client, s'.client);
    case FollowRedirect(t, params, pick, _) => RedirectExtends(s.client, t, params, pick);
    case _ => SameExtends(s.client, s'.client);
  }

  lemma {:induction false} SameExtends(c: Client, d: Client)
    requires d.quota == c.quota && d.data.Keys == c.data.Keys
    requires forall p :: p in c.data ==> d.data[p].sem == c.data[p].sem
    ensures Extends(c, d)
  {
  }

  lemma {:induction false} RedirectExtends(c: Client, t: ThreadId, params: Params, pick: Option<Conn>)
    requires c.concurrent > 0 && (pick.Some? ==> pick.value in c.pool)
    ensures var d := Redirect(c, t, params, pick);
            && Extends(c, d) && d.concurrent == c.concurrent
            && forall p :: p in d.data && p !in c.data ==> p in d.quota && d.quota[p] == c.concurrent
  {
  }

  lemma {:induction false} RunExtends(states: seq<System>, actions: seq<Action>, i: nat, j: nat)
    requires Run(states, actions) && i <= j < |states|
    ensures Extends(states[i].client, states[j].client)
    ensures states[j].client.concurrent == states[i].client.concurrent
    decreases j
  {
    hide SystemInv, Next, Init;
    if i < j {
      RunExtends(states, actions, i, j - 1);
      RunInv(states, actions, j - 1);
      NextExtends(states[j - 1], actions[j - 1], states[j]);
    }
  }

  // ------------------------------------------------------------- theorems

  ghost function QuotaOf(c0: Client, p: Params): nat {
    if p in c0.data && p in c0.quota then c0.quota[p] else c0.concurrent
  }

  lemma {:induction false} RunQuota(states: seq<System>, actions: seq<Action>, i: nat, p: Params)
    requires Run(states, actions) && i < |states| && p in states[i].client.data
    ensures p in states[i].client.quota && states[i].client.quota[p] == QuotaOf(states[0].client, p)
    decreases i
  {
    hide SystemInv, Next, Init;
    RunInv(states, actions, i);
    KnownQuota(states[i], p);
    if i > 0 {
      RunInv(states, actions, i - 1);
      KnownQuota(states[i - 1], p);
      NextExtends(states[i - 1], actions[i - 1], states[i]);
      RunExtends(states, actions, 0, i - 1);
      if p in states[i - 1].client.data { RunQuota(states, actions, i - 1, p); }
    } else {
      KnownQuota(states[0], p);
    }
  }

  lemma {:induction false} KnownQuota(s: System, p: Params)
    requires SystemInv(s)
    ensures p in s.client.data <==> p in s.client.quota
    ensures p in s.client.data <==> p in s.client.providers
  {
  }

  /** Conservation: whatever the interleaving, every known provider has
      exactly its quota of releasable connections over queue and holders, and
      the queue holds no `no_release` connection and none that is leased. */
  lemma {:induction false} ConnectionsConserved(states: seq<System>, actions: seq<Action>, i: nat, p: Params)
    requires Run(states, actions) && i < |states| && p in states[i].client.providers
    ensures |For(Live(states[i].client), p)| == QuotaOf(states[0].client, p)
    ensures forall x :: x in states[i].client.pool ==> !x.noRelease && x !in states[i].client.held
  {
    RunInv(states, actions, i);
    KnownQuota(states[i], p);
    RunQuota(states, actions, i, p);
    hide Run, Accounted, Exclusive, OwnSemaphore, Ranked, OwnSemaphores, For, Live, QuotaOf;
  }

  /** At most one login to `p` is in flight. */
  ghost predicate SoleLogin(s: System, p: Params) {
    forall t, u | t in s.pcs && u in s.pcs && s.pcs[t].LoggingIn? && s.pcs[u].LoggingIn? ::
      s.pcs[t].conn.params == p == s.pcs[u].conn.params ==> t == u
  }

  /** Nobody is logging in to `p` or was just woken after such a login. */
  ghost predicate Quiet(s: System, p: Params) {
    forall t | t in s.pcs :: s.pcs[t].LoggingIn? || s.pcs[t].LoginWoken? ==> s.pcs[t].conn.params != p
  }

  /** Every thread blocked on the semaphore of `p` can take its next step. */
  ghost predicate WaitersCanGo(s: System, p: Params) {
    forall t | t in s.pcs && s.pcs[t].LoginBlocked? && s.pcs[t].conn.params == p ::
      exists s' :: Next(s, WakeWaiter(t), s') && s'.pcs[t].LoginWoken?
  }

  /** At most one login per provider is in flight; the semaphore it uses is
      the one the provider had from the start; and that semaphore is free, so
      that any waiter can go on, once nobody is logging in or just woken,
      whether logins returned or raised. */
  lemma {:induction false} LoginsExclusive(states: seq<System>, actions: seq<Action>, i: nat, p: Params)
    requires Run(states, actions) && i < |states| && p in states[i].client.data
    ensures SoleLogin(states[i], p)
    ensures p in states[0].client.data ==> states[i].client.data[p].sem == states[0].client.data[p].sem
    ensures Quiet(states[i], p) ==>
              && states[i].client.data[p].sem in states[i].counters
              && states[i].counters[states[i].client.data[p].sem] == 1
              && WaitersCanGo(states[i], p)
  {
    RunInv(states, actions, i);
    RunExtends(states, actions, 0, i);
    hide Run, SystemInv;
    LoginSafe(states[i], p);
  }

  lemma {:induction false} LoginSafe(s: System, p: Params)
    requires SystemInv(s) && p in s.client.data
    ensures SoleLogin(s, p)
    ensures Quiet(s, p) ==> s.client.data[p].sem in s.counters && s.counters[s.client.data[p].sem] == 1 && WaitersCanGo(s, p)
  {
    hide Inv, Accounted;
    var sem := s.client.data[p].sem;
    forall t | t in s.pcs && (s.pcs[t].LoggingIn? || s.pcs[t].LoginWoken?)
      ensures s.pcs[t].conn.params == p <==> Inside(s.pcs[t], sem)
    {
      SameProvider(s, t, p);
    }
    if Quiet(s, p) {
      forall t | t in s.pcs && s.pcs[t].LoginBlocked? && s.pcs[t].conn.params == p
        ensures exists s' :: Next(s, WakeWaiter(t), s') && s'.pcs[t].LoginWoken?
      {
        var s' := s.(counters := s.counters[sem := s.counters[sem] - 1], pcs := s.pcs[t := LoginWoken(s.pcs[t].conn, sem)]);
        assert Next(s, WakeWaiter(t), s');
      }
    }
  }

  /** Semaphores tell providers apart. */
  lemma {:induction false} SameProvider(s: System, t: ThreadId, p: Params)
    requires SystemInv(s) && p in s.client.data && t in s.pcs && Logging(s.pcs[t])
    ensures s.pcs[t].conn.params == p <==> s.pcs[t].sem == s.client.data[p].sem
  {
    hide Apart, Ranked, Conserved, Accounted, Exclusive;
  }

  /** The cookie test of a redirect checkout looks at the wrong connection if it
      picked one from the queue and others are there: at the last of those. So it
      leaves its caller with a cookie-less provider and no login exactly when
      that one's provider has a cookie, and it makes its caller log in to a
      provider with a cookie exactly when that one's has none. */
  lemma {:induction false} RedirectSkipsLogin(s: System, a: Action, s': System)
    requires SystemInv(s) && Next(s, a, s') && a.FollowRedirect?
    ensures var misled := a.params in s.client.data && a.pick.Some? && s.client.pool - {a.pick.value} != map[];
            && (misled ==> IsLast(a.probe, s.client.pool - {a.pick.value}))
            && (s'.pcs[a.t].Holding? && !HasCookie(s'.client, a.params) <==>
                  misled && !HasCookie(s.client, a.params) && HasCookie(s.client, a.probe.params))
            && (s'.pcs[a.t].LoginTry? && HasCookie(s'.client, a.params) <==>
                  misled && HasCookie(s.client, a.params) && !HasCookie(s.client, a.probe.params))
  {
    hide Accounted, Exclusive, OwnSemaphore, Inv, IsLast;
    assert IsProbe(s.client, a.params, a.pick, a.probe);
    RedirectFields(s.client, a.t, a.params, a.pick);
  }

  // A run in which that happens: while one thread holds the connection of
  // `TARGET`, another logs in to `OTHER`; both release, and a third is
  // redirected to `TARGET`.

  const TARGET := Params("a", 443, true)
  const OTHER := Params("b", 443, true)
  const FIRST := Conn(0, TARGET, false)
  const LAST := Conn(1, OTHER, false)

  function SkipAction(i: nat): Action
    requires i < 7
  {
    [Acquire(0, FIRST, false, false), Acquire(1, LAST, false, true), TryLogin(1), FinishLogin(1, Some("c")),
     GiveBack(1, false, false, []), GiveBack(0, false, false, []), FollowRedirect(2, TARGET, Some(FIRST), LAST)][i]
  }

  function SkipState(i: nat): System {
    var first := if 1 <= i < 6 then map[FIRST := Lease(0, 1)] else if i == 7 then map[FIRST := Lease(2, 1)] else map[];
    var last := if 2 <= i < 5 then map[LAST := Lease(1, 2)] else map[];
    var pool := (if FIRST in first then map[] else map[FIRST := 1]) + (if LAST in last then map[] else map[LAST := 2]);
    var data := map[TARGET := ProviderData(0, None), OTHER := ProviderData(1, if i < 4 then None else Some("c"))];
    System(Client(1, {TARGET, OTHER}, data, pool, first + last, 3, 2, 2, map[TARGET := 1, OTHER := 1]),
           map[0 := 1, 1 := if i == 3 then 0 else 1],
           map[0 := if 1 <= i < 6 then Holding(FIRST) else Idle,
               1 := if i == 2 then LoginTry(LAST, 1) else if i == 3 then LoggingIn(LAST, 1) else if i == 4 then Holding(LAST) else Idle,
               2 := if i == 7 then Holding(FIRST) else Idle])
  }

  lemma {:induction false} SkipPool()
    ensures var c := SkipState(0).client;
            && Apart(c.pool, c.held, c.providers, c.serials) && Ranked(c.pool, c.held, c.next)
            && OwnSemaphores(c.data, c.providers, c.quota, c.sems) && c.held == map[] && c.concurrent == 1
  {
    assert SkipState(0).client.pool == map[FIRST := 1, LAST := 2];
  }

  lemma {:induction false} SkipQuota()
    ensures var c := SkipState(0).client; Conserved(Live(c), c.quota)
  {
    var c := SkipState(0).client;
    assert Live(c) == {FIRST, LAST} by {
      assert c.pool == map[FIRST := 1, LAST := 2] && c.held == map[];
    }
    assert For({FIRST, LAST}, TARGET) == {FIRST} && For({FIRST, LAST}, OTHER) == {LAST};
  }

  lemma {:induction false} SkipCounters()
    ensures var s := SkipState(0);
            && (forall t :: t in s.pcs ==> s.pcs[t].Idle?)
            && (forall k :: k in s.counters <==> exists p :: p in s.client.data && s.client.data[p].sem == k)
            && (forall k :: k in s.counters ==> s.counters[k] == 1)
  {
    var s := SkipState(0);
    assert s.client.data[TARGET].sem == 0 && s.client.data[OTHER].sem == 1;
    assert s.counters == map[0 := 1, 1 := 1];
  }

  lemma {:induction false} SkipStart()
    ensures Init(SkipState(0))
  {
    hide Apart, Ranked, OwnSemaphores, Conserved, Live, SkipState;
    SkipPool();
    SkipQuota();
    SkipCounters();
  }

  lemma {:induction false} SkipStep0()
    ensures Next(SkipState(0), SkipAction(0), SkipState(1))
  {
  }

  lemma {:induction false} SkipStep1()
    ensures Next(SkipState(1), SkipAction(1), SkipState(2))
  {
  }

  lemma {:induction false} SkipStep2()
    ensures Next(SkipState(2), SkipAction(2), SkipState(3))
  {
  }

  lemma {:induction false} SkipStep3()
    ensures Next(SkipState(3), SkipAction(3), SkipState(4))
  {
  }

  lemma {:induction false} SkipStep4()
    ensures Next(SkipState(4), SkipAction(4), SkipState(5))
  {
  }

  lemma {:induction false} SkipStep5()
    ensures Next(SkipState(5), SkipAction(5), SkipState(6))
  {
  }

  lemma {:induction false} SkipProbe()
    ensures var c := SkipState(6).client; c.concurrent > 0 && IsRedirectPick(c.pool, TARGET, Some(FIRST)) && IsProbe(c, TARGET, Some(FIRST), LAST)
  {
    assert SkipState(6).client.pool - {FIRST} == map[LAST := 2];
  }

  lemma {:induction false} SkipMove()
    ensures var s, s' := SkipState(6), SkipState(7);
            && FIRST in s.client.pool && TARGET in s.client.data && 2 in s.pcs && s.pcs[2].Idle? && HasCookie(s.client, OTHER)
            && s'.client == Checkout(s.client, 2, FIRST, false)
            && s'.counters == s.counters && s'.pcs == s.pcs[2 := Holding(FIRST)]
  {
  }

  lemma {:induction false} SkipStep6()
    ensures Next(SkipState(6), SkipAction(6), SkipState(7))
  {
    hide IsRedirectPick, IsProbe, IsLast, SkipState, NewConns, WithNew;
    SkipProbe();
    SkipMove();
  }

  lemma {:induction false} SkipIsRun()
    ensures Run([SkipState(0), SkipState(1), SkipState(2), SkipState(3), SkipState(4), SkipState(5), SkipState(6), SkipState(7)],
                [SkipAction(0), SkipAction(1), SkipAction(2), SkipAction(3), SkipAction(4), SkipAction(5), SkipAction(6)])
  {
    hide SkipState, SkipAction, Next, Init;
    SkipStart();
    SkipStep0();
    SkipStep1();
    SkipStep2();
    SkipStep3();
    SkipStep4();
    SkipStep5();
    SkipStep6();
  }

  /** The third thread then uses a connection of a provider without cookie, and
      nobody has logged in to it. */
  lemma {:induction false} LoginIsSkipped()
    ensures Run([SkipState(0), SkipState(1), SkipState(2), SkipState(3), SkipState(4), SkipState(5), SkipState(6), SkipState(7)],
                [SkipAction(0), SkipAction(1), SkipAction(2), SkipAction(3), SkipAction(4), SkipAction(5), SkipAction(6)])
    ensures SkipState(7).pcs[2] == Holding(FIRST) && !HasCookie(SkipState(7).client, FIRST.params)
  {
    SkipIsRun();
    hide Run, Next;
  }

  // A run in which the connection picked is the last of the queue: a thread logs
  // in to `OTHER` and releases, and another is redirected to `TARGET`.

  const EARLY := Conn(0, OTHER, false)
  const LATE := Conn(1, TARGET, false)

  function LateAction(i: nat): Action
    requires i < 5
  {
    [Acquire(0, EARLY, false, true), TryLogin(0), FinishLogin(0, Some("c")), GiveBack(0, false, false, []),
     FollowRedirect(1, TARGET, Some(LATE), EARLY)][i]
  }

  function LateState(i: nat): System {
    var pool := (if 1 <= i < 4 then map[] else map[EARLY := 1]) + (if i == 5 then map[] else map[LATE := 2]);
    var held := if 1 <= i < 4 then map[EARLY := Lease(0, 1)] else if i == 5 then map[LATE := Lease(1, 2)] else map[];
    var data := map[TARGET := ProviderData(0, None), OTHER := ProviderData(1, if i < 3 then None else Some("c"))];
    System(Client(1, {TARGET, OTHER}, data, pool, held, 3, 2, 2, map[TARGET := 1, OTHER := 1]),
           map[0 := 1, 1 := if i == 2 then 0 else 1],
           map[0 := if i == 1 then LoginTry(EARLY, 1) else if i == 2 then LoggingIn(EARLY, 1) else if i == 3 then Holding(EARLY) else Idle,
               1 := if i == 5 then Holding(LATE) else Idle])
  }

  lemma {:induction false} LatePool()
    ensures var c := LateState(0).client;
            && Apart(c.pool, c.held, c.providers, c.serials) && Ranked(c.pool, c.held, c.next)
            && OwnSemaphores(c.data, c.providers, c.quota, c.sems) && c.held == map[] && c.concurrent == 1
  {
    assert LateState(0).client.pool == map[EARLY := 1, LATE := 2];
  }

  lemma {:induction false} LateQuota()
    ensures var c := LateState(0).client; Conserved(Live(c), c.quota)
  {
    var c := LateState(0).client;
    assert Live(c) == {EARLY, LATE} by {
      assert c.pool == map[EARLY := 1, LATE := 2] && c.held == map[];
    }
    assert For({EARLY, LATE}, TARGET) == {LATE} && For({EARLY, LATE}, OTHER) == {EARLY};
  }

  lemma {:induction false} LateCounters()
    ensures var s := LateState(0);
            && (forall t :: t in s.pcs ==> s.pcs[t].Idle?)
            && (forall k :: k in s.counters <==> exists p :: p in s.client.data && s.client.data[p].sem == k)
            && (forall k :: k in s.counters ==> s.counters[k] == 1)
  {
    var s := LateState(0);
    assert s.client.data[TARGET].sem == 0 && s.client.data[OTHER].sem == 1;
    assert s.counters == map[0 := 1, 1 := 1];
  }

  lemma {:induction false} LateStart()
    ensures Init(LateState(0))
  {
    hide Apart, Ranked, OwnSemaphores, Conserved, Live, LateState;
    LatePool();
    LateQuota();
    LateCounters();
  }

  lemma {:induction false} LateStep0()
    ensures Next(LateState(0), LateAction(0), LateState(1))
  {
  }

  lemma {:induction false} LateStep1()
    ensures Next(LateState(1), LateAction(1), LateState(2))
  {
  }

  lemma {:induction false} LateStep2()
    ensures Next(LateState(2), LateAction(2), LateState(3))
  {
  }

  lemma {:induction false} LateStep3()
    ensures Next(LateState(3), LateAction(3), LateState(4))
  {
  }

  lemma {:induction false} LateProbe()
    ensures var c := LateState(4).client; c.concurrent > 0 && IsRedirectPick(c.pool, TARGET, Some(LATE)) && IsProbe(c, TARGET, Some(LATE), EARLY)
  {
    assert LateState(4).client.pool - {LATE} == map[EARLY := 1];
  }

  lemma {:induction false} LateMove()
    ensures var s, s' := LateState(4), LateState(5);
            && LATE in s.client.pool && TARGET in s.client.data && 1 in s.pcs && s.pcs[1].Idle? && HasCookie(s.client, OTHER)
            && s'.client == Checkout(s.client, 1, LATE, false)
            && s'.counters == s.counters && s'.pcs == s.pcs[1 := Holding(LATE)]
  {
  }

  lemma {:induction false} LateStep4()
    ensures Next(LateState(4), LateAction(4), LateState(5))
  {
    hide IsRedirectPick, IsProbe, IsLast, LateState, NewConns, WithNew;
    LateProbe();
    LateMove();
  }

  lemma {:induction false} LateIsRun()
    ensures Run([LateState(0), LateState(1), LateState(2), LateState(3), LateState(4), LateState(5)],
                [LateAction(0), LateAction(1), LateAction(2), LateAction(3), LateAction(4)])
  {
    hide LateState, LateAction, Next, Init;
    LateStart();
    LateStep0();
    LateStep1();
    LateStep2();
    LateStep3();
    LateStep4();
  }

  /** The login is skipped although the connection picked came off the queue
      last: the one put back last belongs to the other provider. */
  lemma {:induction false} LoginIsSkippedForLast()
    ensures Run([LateState(0), LateState(1), LateState(2), LateState(3), LateState(4), LateState(5)],
                [LateAction(0), LateAction(1), LateAction(2), LateAction(3), LateAction(4)])
    ensures LateState(4).client.pool == map[EARLY := 1, LATE := 2]
    ensures LateState(5).pcs[1] == Holding(LATE) && !HasCookie(LateState(5).client, LATE.params)
  {
    LateIsRun();
    hide Run, Next;
  }

  /** The leases of one thread. */
  ghost function Mine(held: map<Conn, Lease>, t: ThreadId): map<Conn, Lease> {
    map h | h in held && held[h].owner == t :: held[h]
  }

  lemma {:induction false} MineLeased(held: map<Conn, Lease>, conn: Conn, lease: Lease, t: ThreadId)
    requires conn !in held
    ensures Mine(held[conn := lease], t) == if lease.owner == t then Mine(held, t)[conn := lease] else Mine(held, t)
    ensures conn !in Mine(held, t)
  {
  }

  lemma {:induction false} MineFreed(held: map<Conn, Lease>, conn: Conn, t: ThreadId)
    requires conn in held
    ensures Mine(held - {conn}, t) == Mine(held, t) - {conn}
    ensures held[conn].owner != t ==> Mine(held - {conn}, t) == Mine(held, t)
  {
  }

  /** What a thread may rely on while others run: its own leases stand, and
      providers are only ever added. */
  lemma {:induction false} OthersKeepMine(s: System, a: Action, s': System, t: ThreadId)
    requires SystemInv(s) && Next(s, a, s') && a.t != t
    ensures Inv(s'.client) && Mine(s'.client.held, t) == Mine(s.client.held, t)
    ensures s.client.data.Keys <= s'.client.data.Keys && s.client.providers <= s'.client.providers
    ensures s'.client.concurrent == s.client.concurrent
  {
    hide Inv, Exclusive, OwnSemaphore, IsDrain, Released, IsProbe, Mine;
    NextKeepsInv(s, a, s');
    NextExtends(s, a, s');
    match a
    case GiveBack(_, bad, unavail, order) =>
      ReleasedLeases(s.client, s.pcs[a.t].conn, bad, unavail, order, s'.client);
      MineFreed(s.client.held, s.pcs[a.t].conn, t);
    case FollowRedirect(_, params, pick, _) =>
      RedirectFields(s.client, a.t, params, pick);
      var conn := Redirected(s.client, params, pick);
      hide Redirect, Redirected;
      MineLeased(s.client.held, conn, s'.client.held[conn], t);
    case Acquire(_, x, idle, _) =>
      FreshLease(s.client, a.t, x, idle);
      MineLeased(s.client.held, CheckedOut(s.client, x, idle), Lease(a.t, s.client.pool[x]), t);
    case _ =>
  }
}
