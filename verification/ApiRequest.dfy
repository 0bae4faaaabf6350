/**
 * One API request: the redirect loop of `_issue_request` with its `finally`
 * release, and the retry loop of `_handle_request`, on top of the client.
 *
 * The world is an oracle: `net(k)` is what the k-th pass through the redirect
 * loop meets, and `login(k)` how the login ends that the checkout just before
 * that pass may need. Other green threads may run wherever `Yield` is called.
 */
module ApiRequests {
  import opened Options
  import opened ApiClientPool
  import ApiClientSystem
  import opened EventletApiClients

  /** A parsed location header; the empty string stands for an absent part. */
  datatype Url = Url(scheme: string, hostname: string, port: int, path: string, query: string)

  datatype Reply =
    | ConnectFailed(socket: bool)   // nothing was sent
    | ExchangeFailed(socket: bool)  // sending or reading raised
    | Interrupted(sent: bool)       // a timeout, which no handler here catches
    | Answer(status: nat, location: Option<Url>)

  /** A login inside a checkout: none was needed or it worked, it raised, or a
      timeout struck while it was in progress or waited for. */
  datatype Login = LoggedIn | LoginRaised(socket: bool) | LoginKilled

  datatype World = World(net: nat -> Reply, login: nat -> Login)

  datatype Outcome =
    | NoConnections
    | Waiting   // for the queue to be filled, or killed while it waits
    | Killed
    | Aborted   // the login of the first checkout raised, outside any handler
    | NoAnswer
    | Raised
    | Response(status: nat)

  const MOVED_PERMANENTLY := 301
  const TEMPORARY_REDIRECT := 307
  const UNAUTHORIZED := 401
  const FORBIDDEN := 403
  const INTERNAL_SERVER_ERROR := 500
  const SERVICE_UNAVAILABLE := 503

  predicate IsRedirect(status: nat) {
    status == MOVED_PERMANENTLY || status == TEMPORARY_REDIRECT
  }

  predicate WorthRetrying(status: nat) {
    status == UNAUTHORIZED || status == FORBIDDEN || status == SERVICE_UNAVAILABLE
  }

  datatype Target = Nowhere | SameNode | OtherNode(params: Params)

  /** `_redirect_params`: which server the location header points to. */
  function TargetOf(location: Option<Url>): Target {
    match location
    case None => Nowhere
    case Some(url) =>
      if url.scheme == "" && url.hostname == "" && url.path != "" then
        if url.path[0] == '/' then SameNode else Nowhere
      else if (url.scheme != "http" && url.scheme != "https") || url.hostname == "" then Nowhere
      else OtherNode(Params(url.hostname, url.port, url.scheme == "https"))
  }

  /** What an attempt comes to, the passes it takes, the servers it moves to, the
      HTTP messages it sends, and whether a checkout's login was cut short. */
  datatype Exchange = Exchange(outcome: Outcome, passes: nat, hops: nat, messages: nat, cut: bool)

  /** The redirect loop from pass `k` on, with `left` redirects to go. */
  function Follow(w: World, k: nat, left: nat): Exchange
    decreases left
  {
    match w.net(k)
    case ConnectFailed(socket) => Exchange(if socket then NoAnswer else Raised, 1, 0, 0, false)
    case ExchangeFailed(socket) => Exchange(if socket then NoAnswer else Raised, 1, 0, 1, false)
    case Interrupted(sent) => Exchange(Killed, 1, 0, if sent then 1 else 0, false)
    case Answer(status, location) =>
      if !IsRedirect(status) || left == 0 then Exchange(Response(status), 1, 0, 1, false)
      else match TargetOf(location)
        case Nowhere => Exchange(Response(INTERNAL_SERVER_ERROR), 1, 0, 1, false)
        case SameNode => Plus(Follow(w, k + 1, left - 1), 1, 0)
        case OtherNode(_) =>
          match w.login(k + 1)
          case LoggedIn => Plus(Follow(w, k + 1, left - 1), 1, 1)
          case LoginRaised(socket) => Exchange(if socket then NoAnswer else Raised, 1, 1, 1, true)
          case LoginKilled => Exchange(Killed, 1, 1, 1, true)
  }

  /** An exchange that comes after some passes, each with one message. */
  function Plus(e: Exchange, passes: nat, hops: nat): Exchange {
    Exchange(e.outcome, e.passes + passes, e.hops + hops, e.messages + passes, e.cut)
  }

  /** One attempt, with its checkout unless a connection was supplied. */
  function Attempt(w: World, k: nat, redirects: nat, supplied: bool): Exchange {
    if supplied then Follow(w, k, redirects)
    else match w.login(k)
      case LoggedIn => Follow(w, k, redirects)
      case LoginRaised(_) => Exchange(Aborted, 0, 0, 0, true)
      case LoginKilled => Exchange(Killed, 0, 0, 0, true)
  }

  /** The release of a connection at the end of an attempt. */
  datatype Release = Release(before: Client, conn: Conn, bad: bool, unavail: bool, order: seq<Conn>)

  ghost predicate IsRelease(r: Release, t: ThreadId, after: Client) {
    && Inv(r.before) && r.conn in r.before.held && r.before.held[r.conn].owner == t
    && (r.unavail && !r.bad && !r.conn.noRelease ==> IsDrain(r.order, r.before.pool))
    && Released(r.before, r.conn, r.bad, r.unavail, r.order, after)
  }

  /** Nobody will send an expired cookie to this server. */
  predicate NoCookie(data: map<Params, ProviderData>, p: Params) {
    p in data ==> data[p].cookie == None
  }

  function NotBegun(outcome: Outcome): Exchange {
    Exchange(outcome, 0, 0, 0, false)
  }

  /** A move to another server while a request uses a connection of its own:
      what the client is like before, the connection given back, the target, and
      the queued connection picked for it. */
  datatype Move = Move(before: Client, given: Conn, params: Params, pick: Option<Conn>)

  ghost predicate IsCheckout(m: Move, t: ThreadId) {
    && Inv(m.before) && m.before.concurrent > 0 && m.given in m.before.held && m.before.held[m.given].owner == t
    && IsRedirectPick(Returned(m.before, m.given).pool, m.params, m.pick)
  }

  /** The connection checked out. */
  function Taken(m: Move): Conn
    requires m.before.concurrent > 0 && m.given in m.before.held
  {
    Redirected(Returned(m.before, m.given), m.params, m.pick)
  }

  /** The move checks out the very connection it gave back. */
  ghost predicate Retakes(m: Move, t: ThreadId) {
    IsCheckout(m, t) && Taken(m) == m.given
  }

  ghost predicate Made(m: Move, t: ThreadId, given: Conn, params: Params, taken: Conn) {
    IsCheckout(m, t) && m.given == given && m.params == params && Taken(m) == taken
  }

  /** The move gave back one connection and checked out another, as the answer to
      the pass before asked. */
  ghost predicate Exchanged(m: Move, t: ThreadId, given: Conn, taken: Conn, w: World, k: nat, used: nat) {
    Made(m, t, given, m.params, taken) && used > 0 && TargetAt(w, k + used - 1) == OtherNode(m.params)
  }

  lemma {:induction false} MadeByAnswer(m: Option<Move>, t: ThreadId, given: Conn, params: Params, taken: Conn, w: World, k: nat, used: nat)
    requires m.Some? ==> Made(m.value, t, given, params, taken)
    requires used > 0 && TargetAt(w, k + used - 1) == OtherNode(params)
    ensures m.Some? ==> Exchanged(m.value, t, given, taken, w, k, used)
  {
    hide IsCheckout;
  }

  /** One attempt of a request: the pass it starts with, what it comes to, and
      the move whose login was cut short, if it used connections of its own. */
  datatype Turn = Turn(start: nat, done: Exchange, move: Option<Move>)

  /** The request still has a connection after this attempt: a checkout's login
      was cut short, and not that of a move that checked out the connection given
      back before, for which the `finally` block has a name. */
  ghost predicate Keeps(turn: Turn, t: ThreadId, supplied: bool) {
    !supplied && turn.done.cut && !(turn.move.Some? && Retakes(turn.move.value, t))
  }

  /** Where the answer to pass `k` redirects to. */
  function TargetAt(w: World, k: nat): Target {
    if w.net(k).Answer? then TargetOf(w.net(k).location) else Nowhere
  }

  /** An attempt is what the world makes of it. */
  ghost predicate IsTurn(w: World, redirects: nat, turn: Turn, t: ThreadId, supplied: bool) {
    && (|| turn.done == Attempt(w, turn.start, redirects, supplied)
        || (!supplied && (turn.done == NotBegun(NoConnections) || turn.done == NotBegun(Waiting))))
    && (turn.move.Some? <==> !supplied && turn.done.cut && turn.done.passes > 0)
    && (turn.move.Some? ==>
          IsCheckout(turn.move.value, t) && TargetAt(w, turn.start + turn.done.passes - 1) == OtherNode(turn.move.value.params))
  }

  ghost function Leases(client: EventletApiClient, t: ThreadId): map<Conn, Lease>
    reads client
  {
    ApiClientSystem.Mine(client.held, t)
  }

  /** Other threads run. Their steps keep exactly this; see
      `ApiClientSystem.OthersKeepMine`. */
  method Yield(client: EventletApiClient, t: ThreadId)
    requires Inv(client.View())
    modifies client
    ensures Inv(client.View()) && Leases(client, t) == old(Leases(client, t))
    ensures old(client.providers) <= client.providers
  {
  }

  class ApiRequest {
    const client: EventletApiClient
    const t: ThreadId
    const redirects: nat
    const retries: nat
    const clientConn: Option<Conn>
    ghost var sent: nat

    constructor (client: EventletApiClient, t: ThreadId, redirects: nat, retries: nat, clientConn: Option<Conn>)
      ensures this.client == client && this.t == t && this.redirects == redirects
      ensures this.retries == retries && this.clientConn == clientConn && sent == 0
    {
      this.client, this.t, this.redirects, this.retries, this.clientConn := client, t, redirects, retries, clientConn;
      sent := 0;
    }

    /** The second half of `_redirect_params`, for another server: the current
        connection goes back (unless the caller supplied it) and one to the
        target is checked out. If its login is cut short, the caller does not
        get to know the connection that was checked out. */
    method MoveTo(conn: Conn, params: Params, login: Login, ghost base: map<Conn, Lease>, ghost hops: nat)
      returns (moved: Option<Conn>, ghost taken: Conn, ghost move: Option<Move>)
      requires Inv(client.View()) && client.concurrent > 0
      requires Tally(base, Leases(client, t), conn, clientConn.Some?, hops)
      modifies client
      ensures Inv(client.View()) && old(client.providers) <= client.providers
      ensures Tally(base, Leases(client, t), taken, clientConn.Some?, hops + 1)
      ensures moved == if login == LoggedIn then Some(taken) else None
      ensures move.Some? <==> clientConn.None?
      ensures move.Some? ==>
                && Made(move.value, t, conn, params, taken) && move.value.before == old(client.View())
                && conn.params in client.providers && conn !in base
    {
      hide Inv, ApiClientSystem.Mine, IsRedirectPick, Redirected, Redirect, Returned;
      ghost var before := client.View();
      if clientConn.None? {
        ghost var release := GiveUp(conn, false, false);
      }
      ghost var pick;
      var c;
      c, pick := TakeFor(params);
      move := if clientConn.None? then Some(Move(before, conn, params, pick)) else None;
      Yield(client, t);  // its login
      taken := c;
      moved := if login == LoggedIn then Some(c) else None;
    }

    method TakeFor(params: Params) returns (conn: Conn, ghost pick: Option<Conn>)
      requires Inv(client.View()) && client.concurrent > 0
      modifies client
      ensures Inv(client.View()) && OneMore(old(Leases(client, t)), Leases(client, t), conn)
      ensures old(client.providers) <= client.providers
      ensures IsRedirectPick(old(client.pool), params, pick) && conn == Redirected(old(client.View()), params, pick)
    {
      hide Inv, ApiClientSystem.Mine, IsRedirectPick, Redirected;
      ghost var was := client.View();
      var probe;
      conn, probe, pick := client.AcquireRedirectConnection(t, params);
      ApiClientSystem.RedirectFields(was, t, params, pick);
      OneMoreLease(was.held, conn, client.held[conn], t);
    }

    /** `release_connection` of a connection this request holds. */
    method GiveUp(conn: Conn, bad: bool, unavail: bool) returns (ghost release: Release)
      requires Inv(client.View()) && conn in Leases(client, t)
      modifies client
      ensures Inv(client.View()) && Leases(client, t) == old(Leases(client, t)) - {conn}
      ensures client.providers == old(client.providers) && conn.params in client.providers
      ensures conn in old(client.held) && old(client.held)[conn].owner == t
      ensures !bad && !unavail ==> client.View() == Returned(old(client.View()), conn)
      ensures IsRelease(release, t, client.View()) && client.data == old(client.data)
      ensures release.before == old(client.View()) && release.conn == conn && release.bad == bad && release.unavail == unavail
    {
      assert conn in client.held && client.held[conn].owner == t;
      ghost var was := client.View();
      HolderKnown(was, conn);
      ghost var order := client.ReleaseConnection(conn, bad, unavail);
      assert !bad && !unavail ==> client.View() == Returned(was, conn);
      release := Release(was, conn, bad, unavail, order);
      hide Inv, IsDrain, Released, ApiClientSystem.Mine;
      ApiClientSystem.ReleasedLeases(was, conn, bad, unavail, order, client.View());
      ApiClientSystem.MineFreed(was.held, conn, t);
    }

    /** `acquire_connection` once the queue has something to hand out. */
    method Acquire(idle: bool) returns (conn: Conn)
      requires Inv(client.View()) && client.providers != {} && client.pool != map[]
      modifies client
      ensures Inv(client.View()) && OneMore(old(Leases(client, t)), Leases(client, t), conn)
      ensures old(client.providers) <= client.providers
    {
      ghost var was := client.View();
      hide Inv, ApiClientSystem.Mine, Checkout, CheckedOut, IsFirst, OneMore;
      var r;
      ghost var x;
      r, x := client.AcquireConnection(t, idle);
      conn := r.value;
      ApiClientSystem.FreshLease(was, t, x, idle);
      OneMoreLease(was.held, conn, Lease(t, was.pool[x]), t);
      Yield(client, t);  // its login
    }

    /** `_issue_request`, from pass `k` on. A request that acquires its own
        connection ends with the leases it began with unless it keeps the one
        whose login was cut short. If that was a redirect's login, the `finally`
        block gives back the connection that the move gave back before: either
        the move had checked out that very one again, and then this is its
        release, or this is a second release, of `again`; what that does to the
        queue is `ApiClientPool.SecondReleaseOverfills`. A request that was given
        a connection keeps one more for every other server it was redirected to. */
    method IssueRequest(w: World, k: nat, idle: bool)
      returns (outcome: Outcome, used: nat, again: Option<Conn>, ghost turn: Turn, ghost last: Conn, ghost release: Option<Release>)
      requires Inv(client.View()) && client.concurrent > 0
      modifies client, `sent
      ensures Inv(client.View()) && old(client.providers) <= client.providers
      ensures turn.start == k && IsTurn(w, redirects, turn, t, clientConn.Some?)
      ensures outcome == turn.done.outcome && used == turn.done.passes && sent == old(sent) + turn.done.messages
      ensures outcome.NoConnections? ==> clientConn.None? && client.providers == {}
      ensures outcome.Waiting? ==> clientConn.None? && client.pool == map[] && client.providers != {}
      ensures !outcome.NoConnections? && !outcome.Waiting? ==> turn.done == Attempt(w, k, redirects, clientConn.Some?)
      ensures !outcome.NoConnections? && !outcome.Waiting? ==>
                if clientConn.Some? || w.login(k) == LoggedIn then turn.done == Follow(w, k, redirects)
                else used == 0 && sent == old(sent) && outcome == if w.login(k) == LoginKilled then Killed else Aborted
      ensures clientConn.None? ==>
                if Keeps(turn, t, false) then
                  exists c :: OneMore(old(Leases(client, t)), Leases(client, t), c) && (turn.move.Some? ==> c == Taken(turn.move.value))
                else Leases(client, t) == old(Leases(client, t))
      ensures clientConn.Some? ==> Grown(old(Leases(client, t)), Leases(client, t), turn.done.hops)
      ensures again == if turn.move.Some? && Keeps(turn, t, clientConn.Some?) then Some(turn.move.value.given) else None
      ensures again.Some? ==> again.value.params in client.providers && again.value !in Leases(client, t)
      ensures release.Some? <==> clientConn.None? && turn.done.passes > 0 && again.None?
      ensures release.Some? ==>
                var r := release.value;
                && IsRelease(r, t, client.View()) && r.conn == last
                && (r.bad <==> outcome == Raised) && (r.unavail <==> outcome == NoAnswer || outcome == Response(503))
      ensures outcome == Response(401) ==> NoCookie(client.data, last.params)
      ensures clientConn.Some? && turn.done.hops == 0 ==> last == clientConn.value
    {
      hide Inv, ApiClientSystem.Mine, Follow, Tally, OneMore, Grown, IsCheckout, Taken, IsRelease;
      ghost var base := Leases(client, t);
      again, release, last := None, None, Conn(0, Params("", 0, false), false);
      var conn;
      if clientConn.Some? {
        conn := clientConn.value;
      } else {
        Yield(client, t);
        if client.providers == {} { return NoConnections, 0, None, Turn(k, NotBegun(NoConnections), None), last, None; }
        if client.pool == map[] { return Waiting, 0, None, Turn(k, NotBegun(Waiting), None), last, None; }
        conn := Acquire(idle);
        if w.login(k) != LoggedIn {
          outcome := if w.login(k) == LoginKilled then Killed else Aborted;
          return outcome, 0, None, Turn(k, Exchange(outcome, 0, 0, 0, true), None), last, None;
        }
      }
      FollowBounds(w, k, redirects);
      TallyStart(base, Leases(client, t), conn, clientConn.Some?);
      var bad, unavail, lost;
      ghost var held, done, move;
      outcome, conn, bad, unavail, used, lost, held, done, move := Redirecting(w, k, conn, base);
      turn, last := Turn(k, done, move), conn;
      TallyEnd(base, Leases(client, t), held, clientConn.Some?, done.hops);
      if clientConn.None? {
        InLeases(client.held, conn, t);
        if conn in client.held && client.held[conn].owner == t {
          ghost var given := GiveUp(conn, bad, unavail);
          release := Some(given);
        } else {
          again := Some(conn);
        }
      }
    }

    /** `_handle_request`: at most `retries + 1` attempts, one after the other,
        each but the last asking for another; the last one decides what the
        caller gets. `patience` is the number of attempts after which a timeout
        strikes in the pause before the next one. */
    method HandleRequest(w: World, idle: nat -> bool, patience: nat)
      returns (response: Option<nat>, ghost log: seq<Turn>)
      requires Inv(client.View()) && client.concurrent > 0
      modifies client, `sent
      ensures Inv(client.View())
      ensures IsLog(w, redirects, log, t, clientConn.Some?) && Ends(log, retries, patience, t, clientConn.Some?)
      ensures response == Reported(log, retries)
      ensures response.Some? <==>
                && log != [] && Last(log).done.outcome.Response?
                && (Last(log).done.outcome.status in {401, 403, 503} ==> |log| == retries + 1)
      ensures response.Some? ==> Last(log).done.outcome == Response(response.value)
      ensures forall i :: 0 <= i < |log| - 1 ==> MayRetry(log[i].done.outcome, {401, 403, 503})
      ensures log == [] || (|log| <= retries && MayRetry(Last(log).done.outcome, {401, 403, 503})) ==>
                |log| == patience || (log != [] && Keeps(Last(log), t, clientConn.Some?))
      ensures sent == old(sent) + Messages(log) <= old(sent) + (retries + 1) * (redirects + 1)
      ensures old(client.providers) != {} ==> forall turn :: turn in log ==> !turn.done.outcome.NoConnections?
      ensures log != [] && Last(log).done.outcome.Waiting? ==> client.pool == map[] && client.providers != {}
      ensures LeasesAfter(old(Leases(client, t)), Leases(client, t), log, t, clientConn.Some?)
    {
      hide Inv, ApiClientSystem.Mine, Retried, IsLog, IsTurn, Keeps, Messages, Reported, LeasesAfter;
      ghost var supplied := clientConn.Some?;
      var attempt, k: nat, over := 0, 0, false;
      response, log := None, [];
      LogStart(w, redirects, t, supplied, retries);
      LeasesStart(Leases(client, t), t, supplied);
      while !over && attempt <= retries
        invariant attempt == |log| && (over ==> log != []) && |log| <= retries + 1 && |log| <= patience
        invariant Inv(client.View()) && old(client.providers) <= client.providers
        invariant IsLog(w, redirects, log, t, supplied) && k == NextPass(log)
        invariant forall i :: 0 <= i < |log| && (over ==> i < |log| - 1) ==> Retried(log[i], t, supplied)
        invariant over ==> !Retried(Last(log), t, supplied) || |log| == retries + 1
        invariant response == if over then Reported(log, retries) else None
        invariant !over ==> Reported(log, retries) == None
        invariant sent == old(sent) + Messages(log) <= old(sent) + |log| * (redirects + 1)
        invariant old(client.providers) != {} ==> forall turn :: turn in log ==> !turn.done.outcome.NoConnections?
        invariant log != [] && Last(log).done.outcome.Waiting? ==> over && client.pool == map[] && client.providers != {}
        invariant !over && log != [] ==> !Keeps(Last(log), t, supplied)
        invariant LeasesAfter(old(Leases(client, t)), Leases(client, t), log, t, supplied)
        decreases retries + 1 - attempt, !over
      {
        if attempt == patience { break; }
        attempt := attempt + 1;
        var used;
        ghost var turn;
        over, response, used, turn := Try(w, k, attempt, idle(attempt), old(Leases(client, t)), log);
        log, k := log + [turn], k + used;
      }
      MulMono(|log|, retries + 1, redirects + 1);
      EndsMean(log, retries, patience, t, supplied);
    }

    /** One attempt of the retry loop: `over` says that no other follows because
        of what this one came to. */
    method Try(w: World, k: nat, attempt: nat, idle: bool, ghost base: map<Conn, Lease>, ghost log: seq<Turn>)
      returns (over: bool, response: Option<nat>, used: nat, ghost turn: Turn)
      requires Inv(client.View()) && client.concurrent > 0 && attempt == |log| + 1 <= retries + 1
      requires IsLog(w, redirects, log, t, clientConn.Some?) && k == NextPass(log)
      requires LeasesAfter(base, Leases(client, t), log, t, clientConn.Some?) && (log != [] ==> !Keeps(Last(log), t, clientConn.Some?))
      modifies client, `sent
      ensures Inv(client.View()) && old(client.providers) <= client.providers
      ensures IsLog(w, redirects, log + [turn], t, clientConn.Some?) && k + used == NextPass(log + [turn])
      ensures LeasesAfter(base, Leases(client, t), log + [turn], t, clientConn.Some?)
      ensures if over then !Retried(turn, t, clientConn.Some?) || |log| == retries else Retried(turn, t, clientConn.Some?)
      ensures response == if over then Reported(log + [turn], retries) else None
      ensures !over ==> Reported(log + [turn], retries) == None && !Keeps(turn, t, clientConn.Some?)
      ensures sent == old(sent) + turn.done.messages && turn.done.messages <= redirects + 1
      ensures Messages(log + [turn]) == Messages(log) + turn.done.messages
      ensures (|log| + 1) * (redirects + 1) == |log| * (redirects + 1) + redirects + 1
      ensures turn.done.outcome.NoConnections? ==> client.providers == {}
      ensures turn.done.outcome.Waiting? ==> over && client.pool == map[] && client.providers != {}
    {
      hide Inv, ApiClientSystem.Mine, OneMore, Grown, Retried, IsLog, IsTurn, Keeps, Messages, Reported, LeasesAfter, Taken, IsRelease;
      Yield(client, t);  // sleeping before the attempt
      ghost var now := Leases(client, t);
      var outcome, again;
      ghost var last, release;
      outcome, used, again, turn, last, release := IssueRequest(w, k, idle);
      LogStep(w, redirects, log, turn, t, clientConn.Some?, retries);
      ProductStep(|log|, redirects + 1);
      LeasesStep(base, now, Leases(client, t), log, turn, t, clientConn.Some?);
      response, over := None, true;
      match outcome {
        case Response(status) =>
          over := attempt > retries || !WorthRetrying(status);
          if over { response := Some(status); }
        case NoAnswer => over := again.Some?;
        case Raised => over := again.Some?;
        case NoConnections => over := false;
        case _ =>
      }
    }

    /** The body of the `try`: the redirect loop and its exception handlers,
        with the flags the `finally` block will read. `lost` says that the login
        of a move was cut short: then `conn` was given back already, and `held`
        is what the move checked out, which the code has no name for unless it
        is the same connection. */
    method Redirecting(w: World, k: nat, first: Conn, ghost base: map<Conn, Lease>)
      returns (outcome: Outcome, conn: Conn, bad: bool, unavail: bool, used: nat, lost: bool, ghost held: Conn, ghost done: Exchange, ghost move: Option<Move>)
      requires Inv(client.View()) && client.concurrent > 0
      requires Tally(base, Leases(client, t), first, clientConn.Some?, 0)
      modifies client, `sent
      ensures Inv(client.View()) && old(client.providers) <= client.providers
      ensures Tally(base, Leases(client, t), held, clientConn.Some?, done.hops)
      ensures done == Follow(w, k, redirects) && outcome == done.outcome && used == done.passes && lost == done.cut
      ensures !lost ==> held == conn
      ensures move.Some? <==> lost && clientConn.None?
      ensures move.Some? ==> Exchanged(move.value, t, conn, held, w, k, used) && conn.params in client.providers && conn !in base
      ensures sent == old(sent) + done.messages
      ensures bad <==> outcome == Raised
      ensures unavail <==> outcome == NoAnswer || outcome == Response(503)
      ensures outcome == Response(401) ==> NoCookie(client.data, conn.params)
      ensures done.hops == 0 ==> conn == first
    {
      hide Inv, ApiClientSystem.Mine, Follow, Tally, Made, Exchanged, Verdict, TargetAt, TargetOf, NoCookie, Plus;
      conn, bad, unavail, outcome, used, lost, held, move := first, false, false, NoAnswer, 0, false, first, None;
      var n := 0;
      ghost var hops := 0;
      done := Follow(w, k, redirects);
      PlusNone(done);
      while true
        invariant 0 <= n <= redirects && held == conn && !lost && move.None?
        invariant Inv(client.View()) && old(client.providers) <= client.providers
        invariant Tally(base, Leases(client, t), conn, clientConn.Some?, hops)
        invariant hops == 0 ==> conn == first
        invariant sent == old(sent) + n
        invariant done == Plus(Follow(w, k + n, redirects - n), n, hops)
        decreases redirects - n
      {
        Yield(client, t);  // connecting and waiting for the answer
        FollowFrom(w, k, redirects, n, hops);
        var next;
        outcome, bad, unavail, next := Pass(w.net(k + n), conn, n);
        used := n + 1;
        if next == Nowhere { return; }
        n := n + 1;
        if next.OtherNode? {
          var moved;
          ghost var m;
          moved, held, m := MoveTo(conn, next.params, w.login(k + n), base, hops);
          hops := hops + 1;
          if moved.None? {
            lost, move := true, m;
            MadeByAnswer(m, t, conn, next.params, held, w, k, n);
            outcome := CutOutcome(w.login(k + n));
            bad, unavail := outcome == Raised, outcome == NoAnswer;
            return;
          }
          conn := moved.value;
        }
      }
    }

    /** One pass: `next` is `Nowhere` when the loop is left with `outcome`. */
    method Pass(reply: Reply, conn: Conn, n: nat)
      returns (outcome: Outcome, bad: bool, unavail: bool, next: Target)
      requires Inv(client.View()) && n <= redirects
      modifies client, `sent
      ensures Inv(client.View()) && client.held == old(client.held) && client.providers == old(client.providers)
      ensures (outcome, next) == Verdict(reply, redirects - n)
      ensures outcome == Response(401) && next == Nowhere ==> NoCookie(client.data, conn.params)
      ensures client.data.Keys == old(client.data).Keys
      ensures forall p :: p in client.data ==>
                client.data[p] == if reply.Answer? && reply.status == 401 && p == conn.params then old(client.data)[p].(cookie := None)
                                  else old(client.data)[p]
      ensures sent == old(sent) + if Sends(reply) then 1 else 0
      ensures bad <==> outcome == Raised && next == Nowhere
      ensures unavail <==> next == Nowhere && (outcome == NoAnswer || outcome == Response(SERVICE_UNAVAILABLE))
    {
      hide Inv;
      bad, unavail, outcome, next := false, false, NoAnswer, Nowhere;
      match reply {
        case ConnectFailed(socket) =>
          bad, unavail, outcome := !socket, socket, if socket then NoAnswer else Raised;
        case ExchangeFailed(socket) =>
          sent := sent + 1;
          bad, unavail, outcome := !socket, socket, if socket then NoAnswer else Raised;
        case Interrupted(partly) =>
          sent := sent + if partly then 1 else 0;
          outcome := Killed;
        case Answer(status, location) =>
          sent := sent + 1;
          if status == UNAUTHORIZED {
            client.SetAuthCookie(conn.params, None);
          } else if status == SERVICE_UNAVAILABLE {
            unavail := true;
          }
          outcome := Response(status);
          if IsRedirect(status) && n < redirects {
            next := TargetOf(location);
            if next == Nowhere { outcome := Response(INTERNAL_SERVER_ERROR); }
          }
      }
    }
  }

  /** How the redirect loop ends when the login of a move is cut short. */
  function CutOutcome(login: Login): Outcome {
    match login
    case LoginRaised(socket) => if socket then NoAnswer else Raised
    case _ => Killed
  }

  /** What calls for another attempt: no answer, or one of these statuses. */
  predicate MayRetry(outcome: Outcome, statuses: set<nat>) {
    outcome.NoAnswer? || outcome.Raised? || outcome.NoConnections? || (outcome.Response? && outcome.status in statuses)
  }

  lemma {:induction false} EndsMean(log: seq<Turn>, retries: nat, patience: nat, t: ThreadId, supplied: bool)
    requires Ends(log, retries, patience, t, supplied)
    ensures forall i :: 0 <= i < |log| - 1 ==> MayRetry(log[i].done.outcome, {401, 403, 503})
    ensures Reported(log, retries).Some? <==>
              && log != [] && Last(log).done.outcome.Response?
              && (Last(log).done.outcome.status in {401, 403, 503} ==> |log| == retries + 1)
    ensures Reported(log, retries).Some? ==> Last(log).done.outcome == Response(Reported(log, retries).value)
    ensures log == [] || (|log| <= retries && MayRetry(Last(log).done.outcome, {401, 403, 503})) ==>
              |log| == patience || (log != [] && Keeps(Last(log), t, supplied))
  {
    hide Keeps;
  }

  predicate GoesOn(outcome: Outcome) {
    match outcome
    case Response(status) => WorthRetrying(status)
    case NoAnswer => true
    case Raised => true
    case NoConnections => true
    case _ => false
  }

  /** The retry loop goes on after this attempt, if attempts are left. It is not
      followed further after a second release. */
  ghost predicate Retried(turn: Turn, t: ThreadId, supplied: bool) {
    GoesOn(turn.done.outcome) && !Keeps(turn, t, supplied)
  }

  /** The attempts of one request follow each other through the passes, and each
      is what the world makes of it. */
  ghost predicate IsLog(w: World, redirects: nat, log: seq<Turn>, t: ThreadId, supplied: bool) {
    && (log != [] ==> log[0].start == 0)
    && (forall i :: 0 <= i < |log| - 1 ==> log[i + 1].start == log[i].start + log[i].done.passes)
    && forall i :: 0 <= i < |log| ==> IsTurn(w, redirects, log[i], t, supplied)
  }

  /** Why a request ends: its last attempt asks for no other, or all attempts
      are used up, or a timeout strikes in the pause after `patience` attempts. */
  ghost predicate Ends(log: seq<Turn>, retries: nat, patience: nat, t: ThreadId, supplied: bool) {
    && (forall i :: 0 <= i < |log| - 1 ==> Retried(log[i], t, supplied))
    && |log| <= patience && |log| <= retries + 1
    && (log == [] || Retried(log[|log| - 1], t, supplied) ==> |log| == retries + 1 || |log| == patience)
  }

  function Last(log: seq<Turn>): Turn
    requires log != []
  {
    log[|log| - 1]
  }

  function NextPass(log: seq<Turn>): nat {
    if log == [] then 0 else Last(log).start + Last(log).done.passes
  }

  /** What the caller gets: the status the last attempt brought, unless more
      attempts were due. */
  function Reported(log: seq<Turn>, retries: nat): Option<nat> {
    if log != [] && Last(log).done.outcome.Response? && (WorthRetrying(Last(log).done.outcome.status) ==> |log| == retries + 1)
    then Some(Last(log).done.outcome.status) else None
  }

  /** What is held after some attempts: as much as before, or one connection more
      if the last attempt kept one; with a connection supplied, all that was held
      before and one more for each move. */
  ghost predicate LeasesAfter(base: map<Conn, Lease>, now: map<Conn, Lease>, log: seq<Turn>, t: ThreadId, supplied: bool) {
    if supplied then Grown(base, now, Hops(log))
    else if log != [] && Keeps(Last(log), t, supplied) then exists c :: OneMore(base, now, c)
    else now == base
  }

  function Messages(log: seq<Turn>): nat {
    if log == [] then 0 else Messages(log[..|log| - 1]) + log[|log| - 1].done.messages
  }

  function Hops(log: seq<Turn>): nat {
    if log == [] then 0 else Hops(log[..|log| - 1]) + log[|log| - 1].done.hops
  }

  predicate Redirects(reply: Reply) {
    reply.Answer? && IsRedirect(reply.status)
  }

  /** A redirect answer whose location names a server that can be used. */
  predicate IsMove(w: World, k: nat) {
    Redirects(w.net(k)) &&
    match TargetOf(w.net(k).location)
    case Nowhere => false
    case SameNode => true
    case OtherNode(_) => w.login(k + 1) == LoggedIn
  }

  /** The next `n` passes are all moves. */
  ghost predicate AllMove(w: World, k: nat, n: nat) {
    forall j :: k <= j < k + n ==> IsMove(w, j)
  }

  /** The redirect limit bounds the messages of one attempt, an attempt moves
      only after a message, and a redirect status is what the caller sees
      exactly when the limit is spent on usable redirects. */
  lemma {:induction false} FollowBounds(w: World, k: nat, left: nat)
    ensures var e := Follow(w, k, left);
            && 1 <= e.passes <= left + 1 && e.messages <= e.passes <= e.messages + 1
            && e.hops <= e.passes && (e.hops == e.passes ==> e.cut)
            && ((e.outcome.Response? && IsRedirect(e.outcome.status)) <==>
                  AllMove(w, k, left) && Redirects(w.net(k + left)))
            && (e.outcome.Response? ==> !e.cut) && !e.outcome.NoConnections? && !e.outcome.Waiting? && !e.outcome.Aborted?
    decreases left
  {
    hide Follow, Redirects, IsMove, AllMove;
    var h := FollowCase(w, k, left);
    AllMoveStep(w, k, left);
    if left > 0 && IsMove(w, k) {
      FollowBounds(w, k + 1, left - 1);
    }
  }

  lemma {:induction false} AllMoveStep(w: World, k: nat, left: nat)
    ensures AllMove(w, k, left) <==> left == 0 || (IsMove(w, k) && AllMove(w, k + 1, left - 1))
  {
    hide IsMove;
  }

  /** The loop goes on exactly after a move, if redirects are left. */
  lemma {:induction false} FollowCase(w: World, k: nat, left: nat) returns (h: nat)
    ensures h <= 1
    ensures var e := Follow(w, k, left);
            if left > 0 && IsMove(w, k) then e == Plus(Follow(w, k + 1, left - 1), 1, h)
            else
              && e.passes == 1 && e.messages <= 1 && e.hops <= 1 && (e.hops == 1 ==> e.cut) && (e.outcome.Response? ==> !e.cut)
              && !e.outcome.NoConnections? && !e.outcome.Waiting? && !e.outcome.Aborted?
              && ((e.outcome.Response? && IsRedirect(e.outcome.status)) <==> left == 0 && Redirects(w.net(k)))
  {
    hide TargetOf, Follow;
    FollowStep(w, k, left);
    h := if left > 0 && IsMove(w, k) && TargetOf(w.net(k).location).OtherNode? then 1 else 0;
  }

  lemma {:induction false} AttemptBounds(w: World, k: nat, redirects: nat, supplied: bool)
    ensures var e := Attempt(w, k, redirects, supplied);
            && e.messages <= e.passes <= redirects + 1 && !e.outcome.NoConnections? && !e.outcome.Waiting?
            && (e.outcome.Response? ==> !e.cut) && (e.cut && !supplied && e.passes == 0 ==> e.outcome.Killed? || e.outcome.Aborted?)
            && (e.outcome.Aborted? ==> !supplied)
  {
    hide Follow, IsMove, Redirects;
    FollowBounds(w, k, redirects);
  }

  /** When a move checks out the connection it gave back: it is one to the
      target that goes back to the queue, and none queued for the target comes
      before it. Only priority 0 can be shared. */
  lemma {:induction false} RetakesIff(m: Move, t: ThreadId)
    requires IsCheckout(m, t)
    ensures var first := m.given.params == m.params && !m.given.noRelease &&
                         forall y :: y in m.before.pool && y.params == m.params ==> m.before.held[m.given].priority <= m.before.pool[y];
            (Retakes(m, t) ==> first) && (m.before.held[m.given].priority != 0 ==> (Retakes(m, t) <==> first))
  {
    hide Conserved;
    assert m.given !in m.before.pool && m.given.serial < m.before.serials && m.given.params in m.before.data;
  }

  /** With connections at hand and no second release, the attempts of a request
      and with them its result are what the world makes of them. */
  lemma {:induction false} LogIsDetermined(w: World, redirects: nat, retries: nat, patience: nat, t: ThreadId, supplied: bool,
                                           log: seq<Turn>, log': seq<Turn>)
    requires IsLog(w, redirects, log, t, supplied) && Ends(log, retries, patience, t, supplied)
    requires IsLog(w, redirects, log', t, supplied) && Ends(log', retries, patience, t, supplied)
    requires forall turn :: turn in log || turn in log' ==> AtHand(turn, t, supplied)
    ensures |log| == |log'| && forall i :: 0 <= i < |log| ==> log[i].start == log'[i].start && log[i].done == log'[i].done
    ensures Reported(log, retries) == Reported(log', retries)
  {
    hide IsTurn, Retried, AtHand;
    forall i | 0 <= i < |log| && i < |log'|
      ensures log[i].start == log'[i].start && log[i].done == log'[i].done && Retried(log[i], t, supplied) == Retried(log'[i], t, supplied)
    {
      SameAttempt(w, redirects, t, supplied, log, log', i);
      RetriedIff(w, redirects, log[i], t, supplied);
      RetriedIff(w, redirects, log'[i], t, supplied);
    }
    assert |log| == |log'|;
  }

  /** The attempt had a connection, and none was given back twice. */
  ghost predicate AtHand(turn: Turn, t: ThreadId, supplied: bool) {
    && !turn.done.outcome.NoConnections? && !turn.done.outcome.Waiting?
    && (Keeps(turn, t, supplied) ==> turn.done.passes == 0)
  }

  lemma {:induction false} RetriedIff(w: World, redirects: nat, turn: Turn, t: ThreadId, supplied: bool)
    requires IsTurn(w, redirects, turn, t, supplied) && AtHand(turn, t, supplied)
    ensures Retried(turn, t, supplied) <==> GoesOn(turn.done.outcome)
  {
    AttemptBounds(w, turn.start, redirects, supplied);
    hide Attempt;
  }

  lemma {:induction false} SameAttempt(w: World, redirects: nat, t: ThreadId, supplied: bool, log: seq<Turn>, log': seq<Turn>, i: nat)
    requires IsLog(w, redirects, log, t, supplied) && IsLog(w, redirects, log', t, supplied)
    requires forall turn :: turn in log || turn in log' ==> AtHand(turn, t, supplied)
    requires i < |log| && i < |log'|
    ensures log[i].start == log'[i].start && log[i].done == log'[i].done
  {
    hide Attempt, Keeps;
    if i > 0 {
      SameAttempt(w, redirects, t, supplied, log, log', i - 1);
    }
    assert log[i] in log && log'[i] in log';
  }

  lemma {:induction false} LogStart(w: World, redirects: nat, t: ThreadId, supplied: bool, retries: nat)
    ensures IsLog(w, redirects, [], t, supplied) && Messages([]) == 0 && Reported([], retries) == None
  {
  }

  /** One attempt more. */
  lemma {:induction false} LogStep(w: World, redirects: nat, log: seq<Turn>, turn: Turn, t: ThreadId, supplied: bool, retries: nat)
    requires IsLog(w, redirects, log, t, supplied) && turn.start == NextPass(log) && IsTurn(w, redirects, turn, t, supplied)
    ensures IsLog(w, redirects, log + [turn], t, supplied) && NextPass(log + [turn]) == turn.start + turn.done.passes
    ensures Messages(log + [turn]) == Messages(log) + turn.done.messages
    ensures turn.done.messages <= redirects + 1
    ensures Reported(log + [turn], retries) ==
            if turn.done.outcome.Response? && (WorthRetrying(turn.done.outcome.status) ==> |log| == retries)
            then Some(turn.done.outcome.status) else None
    ensures var kept := turn.move.Some? && Keeps(turn, t, supplied);
            Retried(turn, t, supplied) ==
            match turn.done.outcome
            case Response(status) => WorthRetrying(status)
            case NoAnswer => !kept
            case Raised => !kept
            case NoConnections => true
            case _ => false
    ensures Keeps(turn, t, supplied) ==> !turn.done.outcome.Response? && !turn.done.outcome.NoConnections?
    ensures Keeps(turn, t, supplied) && turn.move.None? ==> turn.done.outcome.Killed? || turn.done.outcome.Aborted?
  {
    hide Attempt, Retakes, IsCheckout;
    AttemptBounds(w, turn.start, redirects, supplied);
    assert (log + [turn])[..|log|] == log;
  }

  lemma {:induction false} ProductStep(n: nat, m: nat)
    ensures (n + 1) * m == n * m + m
  {
  }

  lemma {:induction false} LeasesStart(base: map<Conn, Lease>, t: ThreadId, supplied: bool)
    ensures LeasesAfter(base, base, [], t, supplied)
  {
  }

  lemma {:induction false} LeasesStep(base: map<Conn, Lease>, now: map<Conn, Lease>, next: map<Conn, Lease>, log: seq<Turn>,
                                      turn: Turn, t: ThreadId, supplied: bool)
    requires LeasesAfter(base, now, log, t, supplied) && (log != [] ==> !Keeps(Last(log), t, supplied))
    requires !supplied ==> if Keeps(turn, t, supplied) then exists c :: OneMore(now, next, c) else next == now
    requires supplied ==> Grown(now, next, turn.done.hops)
    ensures LeasesAfter(base, next, log + [turn], t, supplied)
  {
    hide OneMore;
    assert (log + [turn])[..|log|] == log;
  }

  lemma {:induction false} MulMono(a: nat, b: nat, c: nat)
    requires a <= b
    ensures a * c <= b * c
  {
  }

  /** What one pass decides with `left` redirects to go. */
  function Verdict(reply: Reply, left: nat): (Outcome, Target) {
    match reply
    case ConnectFailed(socket) => (if socket then NoAnswer else Raised, Nowhere)
    case ExchangeFailed(socket) => (if socket then NoAnswer else Raised, Nowhere)
    case Interrupted(_) => (Killed, Nowhere)
    case Answer(status, location) =>
      if !IsRedirect(status) || left == 0 then (Response(status), Nowhere)
      else if TargetOf(location) == Nowhere then (Response(INTERNAL_SERVER_ERROR), Nowhere)
      else (Response(status), TargetOf(location))
  }

  /** Failures of a socket count as no answer, others are raised; an answer is
      reported, but a redirect is followed while redirects are left, and reported
      as an internal error if its location cannot be used. */
  lemma {:induction false} VerdictMeans(reply: Reply, left: nat)
    ensures var (outcome, next) := Verdict(reply, left);
            match reply
            case ConnectFailed(socket) => next == Nowhere && outcome == (if socket then NoAnswer else Raised)
            case ExchangeFailed(socket) => next == Nowhere && outcome == (if socket then NoAnswer else Raised)
            case Interrupted(_) => next == Nowhere && outcome == Killed
            case Answer(status, location) =>
              var followed := (status == 301 || status == 307) && left > 0;
              && (!followed ==> next == Nowhere && outcome == Response(status))
              && (followed ==> next == TargetOf(location) && outcome == Response(if next == Nowhere then 500 else status))
  {
  }

  /** Where a location points to: a path alone to the same server, an http or
      https address with a host to that one, with SSL for https; no other can be
      used. */
  lemma {:induction false} TargetOfMeans(location: Option<Url>)
    ensures TargetOf(None) == Nowhere
    ensures location.Some? ==>
              var url := location.value;
              && (TargetOf(location) == SameNode <==>
                    url.scheme == "" && url.hostname == "" && url.path != "" && url.path[0] == '/')
              && (forall p: Params :: TargetOf(location) == OtherNode(p) <==>
                    && url.hostname != "" && p.host == url.hostname && p.port == url.port
                    && ((url.scheme == "http" && !p.isSsl) || (url.scheme == "https" && p.isSsl)))
  {
  }

  /** Pass `j` redirects to a server that the next pass can use. */
  ghost predicate Leads(w: World, j: nat) {
    && w.net(j).Answer? && (w.net(j).status == 301 || w.net(j).status == 307) && TargetOf(w.net(j).location) != Nowhere
    && (TargetOf(w.net(j).location).OtherNode? ==> w.login(j + 1) == LoggedIn)
  }

  /** The redirect loop in one piece: all passes but the last lead on, and the
      last decides, or the login after it if that was cut short. */
  lemma {:induction false} FollowEnds(w: World, k: nat, left: nat)
    ensures var e := Follow(w, k, left);
            && 1 <= e.passes <= left + 1 && (forall j: nat :: k <= j < k + e.passes - 1 ==> Leads(w, j))
            && var last := w.net(k + e.passes - 1);
            && e.messages == e.passes - (if last.ConnectFailed? || last == Interrupted(false) then 1 else 0)
            && (e.cut ==> TargetAt(w, k + e.passes - 1).OtherNode? && w.login(k + e.passes) != LoggedIn)
            && e.outcome ==
               if e.cut then
                 match w.login(k + e.passes) case LoginRaised(socket) => (if socket then NoAnswer else Raised) case _ => Killed
               else
                 match last
                 case ConnectFailed(socket) => if socket then NoAnswer else Raised
                 case ExchangeFailed(socket) => if socket then NoAnswer else Raised
                 case Interrupted(_) => Killed
                 case Answer(status, _) => Response(if (status == 301 || status == 307) && e.passes <= left then 500 else status)
    decreases left
  {
    hide Follow, Leads;
    FollowStep(w, k, left);
    var next := Verdict(w.net(k), left).1;
    if next != Nowhere && !(next.OtherNode? && w.login(k + 1) != LoggedIn) {
      FollowEnds(w, k + 1, left - 1);
      LeadsOn(w, k, left);
    }
  }

  lemma {:induction false} LeadsOn(w: World, k: nat, left: nat)
    requires var next := Verdict(w.net(k), left).1; next != Nowhere && !(next.OtherNode? && w.login(k + 1) != LoggedIn)
    ensures Leads(w, k)
  {
  }

  /** Whether a pass sends an HTTP message. */
  predicate Sends(reply: Reply) {
    reply.ExchangeFailed? || reply.Answer? || (reply.Interrupted? && reply.sent)
  }

  lemma {:induction false} FollowStep(w: World, k: nat, left: nat)
    ensures var (outcome, next) := Verdict(w.net(k), left);
            if next == Nowhere then Follow(w, k, left) == Exchange(outcome, 1, 0, if Sends(w.net(k)) then 1 else 0, false)
            else && left > 0 && Sends(w.net(k)) && TargetAt(w, k) == next
                 && Follow(w, k, left) ==
                    if next.OtherNode? && w.login(k + 1) != LoggedIn then Exchange(CutOutcome(w.login(k + 1)), 1, 1, 1, true)
                    else Plus(Follow(w, k + 1, left - 1), 1, if next.OtherNode? then 1 else 0)
  {
  }

  lemma {:induction false} PlusNone(e: Exchange)
    ensures Plus(e, 0, 0) == e
  {
  }

  /** What the pass that comes after `n` others makes of the exchange. */
  lemma {:induction false} FollowFrom(w: World, k: nat, redirects: nat, n: nat, hops: nat)
    requires n <= redirects
    ensures var (outcome, next) := Verdict(w.net(k + n), redirects - n);
            var done := Plus(Follow(w, k + n, redirects - n), n, hops);
            if next == Nowhere then done == Exchange(outcome, n + 1, hops, n + if Sends(w.net(k + n)) then 1 else 0, false)
            else n < redirects && Sends(w.net(k + n)) && TargetAt(w, k + n) == next
                 && done ==
                    if next.OtherNode? && w.login(k + n + 1) != LoggedIn then
                      Exchange(CutOutcome(w.login(k + n + 1)), n + 1, hops + 1, n + 1, true)
                    else Plus(Follow(w, k + n + 1, redirects - n - 1), n + 1, if next.OtherNode? then hops + 1 else hops)
  {
    hide Follow, Verdict, TargetAt;
    FollowStep(w, k + n, redirects - n);
  }

  /** `after` is `before` plus a lease of `conn`. */
  ghost predicate OneMore(before: map<Conn, Lease>, after: map<Conn, Lease>, conn: Conn) {
    conn !in before && conn in after && after == before[conn := after[conn]]
  }

  lemma {:induction false} OneMoreLease(held: map<Conn, Lease>, conn: Conn, lease: Lease, t: ThreadId)
    requires conn !in held && lease.owner == t
    ensures OneMore(ApiClientSystem.Mine(held, t), ApiClientSystem.Mine(held[conn := lease], t), conn)
  {
    ApiClientSystem.MineLeased(held, conn, lease, t);
  }

  /** `after` has all that `before` has, and `n` more. */
  ghost predicate Grown(before: map<Conn, Lease>, after: map<Conn, Lease>, n: nat) {
    && |after| == |before| + n
    && forall c :: c in before ==> c in after && after[c] == before[c]
  }

  /** What a request holds after `hops` moves, given what it held at first. */
  ghost predicate Tally(base: map<Conn, Lease>, now: map<Conn, Lease>, conn: Conn, supplied: bool, hops: nat) {
    if supplied then Grown(base, now, hops)
    else OneMore(base, now, conn)
  }

  lemma {:induction false} TallyStart(base: map<Conn, Lease>, now: map<Conn, Lease>, conn: Conn, supplied: bool)
    requires if supplied then now == base else OneMore(base, now, conn)
    ensures Tally(base, now, conn, supplied, 0)
  {
  }

  lemma {:induction false} TallyEnd(base: map<Conn, Lease>, now: map<Conn, Lease>, conn: Conn, supplied: bool, hops: nat)
    requires Tally(base, now, conn, supplied, hops)
    ensures if supplied then Grown(base, now, hops) else OneMore(base, now, conn) && conn in now && now - {conn} == base
    ensures !supplied ==> forall c :: c in now <==> c in base || c == conn
  {
  }

  lemma {:induction false} InLeases(held: map<Conn, Lease>, conn: Conn, t: ThreadId)
    ensures conn in ApiClientSystem.Mine(held, t) <==> conn in held && held[conn].owner == t
  {
  }
}
