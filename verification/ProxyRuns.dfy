/** Invariants of the proxy over every run of accepts, chunks, hang-ups and
    timer events, each one atomic step. */
module ProxyRuns {
  import opened Common
  import opened Proxy

  datatype Event =
    | Accept(now: int, client: Socket, forward: Option<Socket>)
    | Chunk(now: int, conn: Socket, hasMethod: bool, sendFails: bool)
    | HangUp(now: int, conn: Socket)
    | TimerFires(now: int)

  /** A socket the operating system hands out: neither it nor its descriptor
      belongs to an open connection; both may have belonged to a closed one. */
  ghost predicate Unused(k: Sockets, x: Socket)
  {
    x !in k.channel && x != k.server && forall y :: y in k.channel ==> y.fd != x.fd
  }

  ghost predicate Handed(k: Sockets, cfg: Config, client: Socket, forward: Socket)
  {
    && Unused(k, client) && client.peer != cfg.forwardTo
    && Unused(k, forward) && forward != client && forward.fd != client.fd
    && forward.peer == cfg.forwardTo && forward.local !in cfg.proxyList
  }

  ghost predicate Enabled(s: ProxyState, cfg: Config, e: Event)
  {
    match e
    case Accept(_, client, forward) => forward.Some? ==> Handed(s.sockets, cfg, client, forward.value)
    case Chunk(_, conn, _, _) => conn in s.sockets.channel
    case HangUp(_, conn) => conn in s.sockets.channel
    case TimerFires(now) => s.timer.Some? && s.timer.value <= now
  }

  /** One event; None when it raises. */
  ghost function Next(s: ProxyState, cfg: Config, e: Event): Option<ProxyState>
    requires Enabled(s, cfg, e)
  {
    match e
    case Accept(_, client, forward) => Some(AcceptStep(s, client, forward))
    case Chunk(now, conn, hasMethod, sendFails) => RecvStep(s, cfg, conn, hasMethod, sendFails, now)
    case HangUp(now, conn) => CloseStep(s, conn, now)
    case TimerFires(now) => Some(ScaleToZero(s).(timer := None))
  }

  /** A run: `states[k + 1]` follows `states[k]` by event k, and none raises. */
  ghost predicate IsRun(cfg: Config, states: seq<ProxyState>, events: seq<Event>)
  {
    && |states| == |events| + 1
    && forall k :: 0 <= k < |events| ==>
         Enabled(states[k], cfg, events[k]) && Next(states[k], cfg, events[k]) == Some(states[k + 1])
  }

  lemma RunStep(cfg: Config, states: seq<ProxyState>, events: seq<Event>, k: nat)
    requires IsRun(cfg, states, events) && k < |events|
    ensures Enabled(states[k], cfg, events[k]) && Next(states[k], cfg, events[k]) == Some(states[k + 1])
  {
  }

  // ---- Lists ---------------------------------------------------------------

  lemma {:induction false} RemoveFirstCounts<T>(xs: seq<T>, x: T)
    ensures multiset(RemoveFirst(xs, x)) == multiset(xs) - multiset{x}
    ensures |RemoveFirst(xs, x)| == if x in xs then |xs| - 1 else |xs|
  {
    if |xs| == 0 {
    } else {
      assert xs == [xs[0]] + xs[1..];
      RemoveFirstCounts(xs[1..], x);
    }
  }

  lemma {:induction false} RemoveFirstDistinct<T>(xs: seq<T>, x: T)
    requires NoDuplicates(xs)
    ensures NoDuplicates(RemoveFirst(xs, x))
    ensures forall y :: y in RemoveFirst(xs, x) <==> y in xs && y != x
  {
    if |xs| == 0 {
    } else {
      assert xs == [xs[0]] + xs[1..];
      var tail := xs[1..];
      assert xs[0] !in tail;
      assert forall i, j :: 0 <= i < j < |tail| ==> tail[i] == xs[i + 1] && tail[j] == xs[j + 1];
      RemoveFirstDistinct(tail, x);
    }
  }

  // ---- The socket map ------------------------------------------------------

  lemma OpenedDescriptors(channel: map<Socket, Socket>, clients: map<int, Address>, c: Socket, f: Socket)
    requires Descriptors(channel, clients) && c.fd != f.fd
    requires forall y :: y in channel ==> y.fd != c.fd && y.fd != f.fd
    ensures Descriptors(channel[c := f][f := c], clients[c.fd := c.peer])
    ensures c.fd !in clients && f.fd !in clients
  {
    var channel', clients' := channel[c := f][f := c], clients[c.fd := c.peer];
    forall fd | fd in clients'
      ensures exists x :: x in channel' && x.fd == fd
    {
      if fd == c.fd {
        assert c in channel';
      } else {
        var x :| x in channel && x.fd == fd;
        assert x in channel';
      }
    }
  }

  lemma OpenedInvolution(channel: map<Socket, Socket>, c: Socket, f: Socket)
    requires Involution(channel) && c !in channel && f !in channel && c != f
    ensures Involution(channel[c := f][f := c])
    ensures forall x :: x in channel ==> channel[x] != c && channel[x] != f
  {
  }

  /** A pair keeps its roles while other descriptors come and go. */
  lemma SameRole(channel: map<Socket, Socket>, clients: map<int, Address>,
                 channel': map<Socket, Socket>, clients': map<int, Address>, cfg: Config, x: Socket)
    requires x in channel && channel[x] in channel && channel[channel[x]] == x
    requires x in channel' && channel'[x] == channel[x] && channel[x] in channel' && channel'[channel[x]] == x
    requires forall y :: y == x || y == channel[x] ==>
               && (y.fd in clients <==> y.fd in clients')
               && (y.fd in clients ==> clients[y.fd] == clients'[y.fd])
    requires IsClient(channel, clients, cfg, x) || IsClient(channel, clients, cfg, channel[x])
    ensures IsClient(channel', clients', cfg, x) || IsClient(channel', clients', cfg, channel'[x])
  {
  }

  lemma Opened(channel: map<Socket, Socket>, clients: map<int, Address>, cfg: Config, c: Socket, f: Socket)
    requires Involution(channel) && Roles(channel, clients, cfg) && Descriptors(channel, clients)
    requires c !in channel && f !in channel && c != f && c.fd != f.fd
    requires forall y :: y in channel ==> y.fd != c.fd && y.fd != f.fd
    requires c.peer != cfg.forwardTo && f.peer == cfg.forwardTo && f.local !in cfg.proxyList
    ensures var channel', clients' := channel[c := f][f := c], clients[c.fd := c.peer];
            Involution(channel') && Roles(channel', clients', cfg) && Descriptors(channel', clients')
  {
    var channel', clients' := channel[c := f][f := c], clients[c.fd := c.peer];
    OpenedDescriptors(channel, clients, c, f);
    OpenedInvolution(channel, c, f);
    assert IsClient(channel', clients', cfg, c);
    forall x | x in channel
      ensures IsClient(channel', clients', cfg, x) || IsClient(channel', clients', cfg, channel'[x])
    {
      SameRole(channel, clients, channel', clients', cfg, x);
    }
  }

  lemma OpenedListing(inputList: seq<Socket>, channel: map<Socket, Socket>, server: Socket, c: Socket, f: Socket)
    requires Listing(inputList, channel, server)
    requires c !in channel && f !in channel && c != f && c != server && f != server
    ensures Listing(inputList + [c, f], channel[c := f][f := c], server)
  {
    var longer, channel' := inputList + [c, f], channel[c := f][f := c];
    forall x ensures x in longer <==> x == server || x in channel' {
      assert x in longer <==> x in inputList || x == c || x == f;
    }
    assert c !in inputList && f !in inputList;
    assert NoDuplicates(longer);
  }

  /** The descriptor dropped when the pair of `conn` is closed. */
  function ClientFd(channel: map<Socket, Socket>, clients: map<int, Address>, conn: Socket): int
    requires conn in channel
  {
    if conn.fd in clients then conn.fd else channel[conn].fd
  }

  lemma ClosedInvolution(channel: map<Socket, Socket>, conn: Socket)
    requires Involution(channel) && conn in channel
    ensures Involution(channel - {conn, channel[conn]})
  {
    var channel' := channel - {conn, channel[conn]};
    forall x | x in channel' ensures channel[x] in channel' {
      assert channel[channel[x]] == x;
    }
  }

  lemma ClosedRoles(channel: map<Socket, Socket>, clients: map<int, Address>, cfg: Config, conn: Socket)
    requires Involution(channel) && Roles(channel, clients, cfg) && Descriptors(channel, clients)
    requires conn in channel && Involution(channel - {conn, channel[conn]})
    ensures Roles(channel - {conn, channel[conn]}, clients - {conn.fd, channel[conn].fd}, cfg)
  {
    var channel', clients' := channel - {conn, channel[conn]}, clients - {conn.fd, channel[conn].fd};
    forall x | x in channel'
      ensures IsClient(channel', clients', cfg, x) || IsClient(channel', clients', cfg, channel'[x])
    {
      assert channel'[x] in channel';
      SameRole(channel, clients, channel', clients', cfg, x);
    }
  }

  lemma ClosedDescriptors(channel: map<Socket, Socket>, clients: map<int, Address>, conn: Socket)
    requires Descriptors(channel, clients) && conn in channel
    ensures Descriptors(channel - {conn, channel[conn]}, clients - {conn.fd, channel[conn].fd})
  {
    var channel', clients' := channel - {conn, channel[conn]}, clients - {conn.fd, channel[conn].fd};
    forall fd | fd in clients'
      ensures exists x :: x in channel' && x.fd == fd
    {
      var x :| x in channel && x.fd == fd;
      assert x in channel';
    }
  }

  lemma Closed(channel: map<Socket, Socket>, clients: map<int, Address>, cfg: Config, conn: Socket)
    requires Involution(channel) && Roles(channel, clients, cfg) && Descriptors(channel, clients)
    requires conn in channel
    ensures var channel', clients' := channel - {conn, channel[conn]}, clients - {ClientFd(channel, clients, conn)};
            Involution(channel') && Roles(channel', clients', cfg) && Descriptors(channel', clients')
  {
    assert clients - {ClientFd(channel, clients, conn)} == clients - {conn.fd, channel[conn].fd} by {
      assert IsClient(channel, clients, cfg, conn) || IsClient(channel, clients, cfg, channel[conn]);
    }
    ClosedInvolution(channel, conn);
    ClosedRoles(channel, clients, cfg, conn);
    ClosedDescriptors(channel, clients, conn);
  }

  lemma ClosedListing(inputList: seq<Socket>, channel: map<Socket, Socket>, server: Socket, x: Socket, y: Socket)
    requires Listing(inputList, channel, server) && x in channel && y in channel
    ensures Listing(RemoveFirst(RemoveFirst(inputList, x), y), channel - {x, y}, server)
  {
    RemoveFirstDistinct(inputList, x);
    RemoveFirstDistinct(RemoveFirst(inputList, x), y);
  }

  /** What an event does to the connections alone. */
  ghost function SocketsAfter(k: Sockets, e: Event): Sockets
    requires e.Chunk? || e.HangUp? ==> e.conn in k.channel
  {
    match e
    case Accept(_, client, forward) => if forward.Some? then Connected(k, client, forward.value) else k
    case Chunk(_, conn, _, sendFails) => if sendFails then Disconnected(k, conn) else k
    case HangUp(_, conn) => Disconnected(k, conn)
    case TimerFires(_) => k
  }

  lemma NextSockets(s: ProxyState, cfg: Config, e: Event)
    requires Enabled(s, cfg, e) && Next(s, cfg, e).Some?
    ensures Next(s, cfg, e).value.sockets == SocketsAfter(s.sockets, e)
  {
  }

  lemma SocketsKeepInv(k: Sockets, cfg: Config, e: Event)
    requires SocketInv(k, cfg)
    requires e.Chunk? || e.HangUp? ==> e.conn in k.channel
    requires e.Accept? && e.forward.Some? ==> Handed(k, cfg, e.client, e.forward.value)
    ensures SocketInv(SocketsAfter(k, e), cfg)
  {
    if e.Accept? && e.forward.Some? {
      Opened(k.channel, k.clients, cfg, e.client, e.forward.value);
      OpenedListing(k.inputList, k.channel, k.server, e.client, e.forward.value);
    }
    if e.Chunk? || e.HangUp? {
      Closed(k.channel, k.clients, cfg, e.conn);
      ClosedListing(k.inputList, k.channel, k.server, e.conn, k.channel[e.conn]);
    }
  }

  lemma OneClientPerPair(k: Sockets, cfg: Config)
    requires SocketInv(k, cfg)
    ensures forall x :: x in k.channel ==> (x.fd in k.clients) != (k.channel[x].fd in k.clients)
  {
    forall x | x in k.channel
      ensures (x.fd in k.clients) != (k.channel[x].fd in k.clients)
    {
      assert IsClient(k.channel, k.clients, cfg, x) || IsClient(k.channel, k.clients, cfg, k.channel[x]);
    }
  }

  /** Socket map: in every state of every run the channel is an involution that
      the input list and the descriptor dictionary describe exactly. */
  lemma {:induction false} SocketMapInvariant(cfg: Config, states: seq<ProxyState>, events: seq<Event>, k: nat)
    requires IsRun(cfg, states, events) && SocketInv(states[0].sockets, cfg) && k <= |events|
    ensures var now := states[k].sockets;
            && SocketInv(now, cfg)
            && forall x :: x in now.channel ==> (x.fd in now.clients) != (now.channel[x].fd in now.clients)
  {
    if k == 0 {
    } else {
      SocketMapInvariant(cfg, states, events, k - 1);
      RunStep(cfg, states, events, k - 1);
      NextSockets(states[k - 1], cfg, events[k - 1]);
      SocketsKeepInv(states[k - 1].sockets, cfg, events[k - 1]);
    }
    OneClientPerPair(states[k].sockets, cfg);
  }

  // ---- Request accounting --------------------------------------------------

  ghost function SumValues(m: map<Address, int>): int
  {
    if m == map[] then 0
    else
      var a :| a in m;
      m[a] + SumValues(m - {a})
  }

  lemma {:induction false} SumValuesRemove(m: map<Address, int>, a: Address)
    requires a in m
    ensures SumValues(m) == m[a] + SumValues(m - {a})
  {
    var b :| b in m && SumValues(m) == m[b] + SumValues(m - {b});
    if a != b {
      SumValuesRemove(m - {b}, a);
      SumValuesRemove(m - {a}, b);
      assert m - {a} - {b} == m - {b} - {a};
    }
  }

  lemma SumValuesPut(m: map<Address, int>, a: Address, v: int)
    ensures SumValues(m[a := v]) == SumValues(m) - CountOf(m, a) + v
  {
    SumValuesRemove(m[a := v], a);
    assert m[a := v] - {a} == m - {a};
    if a in m {
      SumValuesRemove(m, a);
    } else {
      assert m - {a} == m;
    }
  }

  /** The counter is the sum of the per-client counts. */
  ghost predicate CounterIsSum(b: Books)
  {
    b.reqs == SumValues(b.perClient)
  }

  /** All three structures describe the same multiset of pending requests. */
  ghost predicate Accounted(b: Books)
  {
    && CounterIsSum(b)
    && b.reqs == |b.pending|
    && forall a :: multiset(b.pending)[a] == CountOf(b.perClient, a)
  }

  lemma RequestedKeepsSum(b: Books, client: Address)
    requires CounterIsSum(b)
    ensures CounterIsSum(Requested(b, client))
  {
    SumValuesPut(b.perClient, client, CountOf(b.perClient, client) + 1);
  }

  lemma AnsweredKeepsSum(b: Books, client: Address)
    requires CounterIsSum(b) && client in b.perClient
    ensures CounterIsSum(Answered(b, client))
  {
    SumValuesPut(b.perClient, client, b.perClient[client] - 1);
  }

  lemma ForgetKeepsSum(b: Books, client: Address)
    requires CounterIsSum(b) && Forget(b, client).Some?
    ensures CounterIsSum(Forget(b, client).value)
  {
    if client in b.pending {
      SumValuesRemove(b.perClient, client);
    }
  }

  lemma NotedKeepsSum(b: Books, cfg: Config, conn: Socket, dst: Socket, hasMethod: bool)
    requires CounterIsSum(b) && Noted(b, cfg, conn, dst, hasMethod).Some?
    ensures CounterIsSum(Noted(b, cfg, conn, dst, hasMethod).value)
  {
    RequestedKeepsSum(b, conn.peer);
    var b1 := if dst.peer == cfg.forwardTo && hasMethod then Requested(b, conn.peer) else b;
    if dst.peer in b1.perClient {
      AnsweredKeepsSum(b1, dst.peer);
    }
  }

  /** What an event does to the books alone. */
  ghost function BooksAfter(s: ProxyState, cfg: Config, e: Event): Option<Books>
    requires Enabled(s, cfg, e)
  {
    match e
    case Accept(_, _, _) => Some(s.books)
    case TimerFires(_) => Some(s.books)
    case HangUp(_, conn) => Forget(s.books, ClientSide(s.sockets, conn).peer)
    case Chunk(_, conn, hasMethod, sendFails) =>
      var noted := Noted(s.books, cfg, conn, s.sockets.channel[conn], hasMethod);
      if noted.Some? && sendFails then Forget(noted.value, ClientSide(s.sockets, conn).peer) else noted
  }

  lemma NextBooks(s: ProxyState, cfg: Config, e: Event)
    requires Enabled(s, cfg, e)
    ensures Next(s, cfg, e).Some? == BooksAfter(s, cfg, e).Some?
    ensures Next(s, cfg, e).Some? ==> Next(s, cfg, e).value.books == BooksAfter(s, cfg, e).value
  {
  }

  lemma BooksKeepSum(s: ProxyState, cfg: Config, e: Event)
    requires Enabled(s, cfg, e) && CounterIsSum(s.books) && BooksAfter(s, cfg, e).Some?
    ensures CounterIsSum(BooksAfter(s, cfg, e).value)
  {
    match e
    case Accept(_, _, _) =>
    case TimerFires(_) =>
    case HangUp(_, conn) => ForgetKeepsSum(s.books, ClientSide(s.sockets, conn).peer);
    case Chunk(_, conn, hasMethod, sendFails) =>
      var dst := s.sockets.channel[conn];
      NotedKeepsSum(s.books, cfg, conn, dst, hasMethod);
      if sendFails {
        ForgetKeepsSum(Noted(s.books, cfg, conn, dst, hasMethod).value, ClientSide(s.sockets, conn).peer);
      }
  }

  /** Without any proviso, the counter stays the sum of the counts for as long
      as no step raises. */
  lemma {:induction false} CounterIsAlwaysSum(cfg: Config, states: seq<ProxyState>, events: seq<Event>, k: nat)
    requires IsRun(cfg, states, events) && CounterIsSum(states[0].books) && k <= |events|
    ensures CounterIsSum(states[k].books)
  {
    if k == 0 {
    } else {
      CounterIsAlwaysSum(cfg, states, events, k - 1);
      RunStep(cfg, states, events, k - 1);
      NextBooks(states[k - 1], cfg, events[k - 1]);
      BooksKeepSum(states[k - 1], cfg, events[k - 1]);
    }
  }

  lemma RequestedKeepsAccounts(b: Books, client: Address)
    requires Accounted(b)
    ensures Accounted(Requested(b, client))
  {
    RequestedKeepsSum(b, client);
    var b' := Requested(b, client);
    forall a ensures multiset(b'.pending)[a] == CountOf(b'.perClient, a) {
      assert multiset(b.pending)[a] == CountOf(b.perClient, a);
    }
  }

  lemma AnsweredKeepsAccounts(b: Books, client: Address)
    requires Accounted(b) && client in b.pending
    ensures client in b.perClient && Accounted(Answered(b, client))
  {
    assert multiset(b.pending)[client] == CountOf(b.perClient, client);
    assert client in b.perClient;
    AnsweredKeepsSum(b, client);
    RemoveFirstCounts(b.pending, client);
    var b' := Answered(b, client);
    forall a ensures multiset(b'.pending)[a] == CountOf(b'.perClient, a) {
      assert multiset(b.pending)[a] == CountOf(b.perClient, a);
    }
  }

  /** Under accounting a chunk never raises, and keeps the accounts. */
  lemma NotedKeepsAccounts(b: Books, cfg: Config, conn: Socket, dst: Socket, hasMethod: bool)
    requires Accounted(b)
    ensures Noted(b, cfg, conn, dst, hasMethod).Some?
    ensures Accounted(Noted(b, cfg, conn, dst, hasMethod).value)
  {
    RequestedKeepsAccounts(b, conn.peer);
    var b1 := if dst.peer == cfg.forwardTo && hasMethod then Requested(b, conn.peer) else b;
    if dst.peer in b1.pending {
      AnsweredKeepsAccounts(b1, dst.peer);
    }
  }

  /** Closing keeps the accounts exactly when the client has at most one
      outstanding request: with more, the counter drops by all of them and the
      list by one. It never raises on sound accounts. */
  lemma ForgetKeepsAccounts(b: Books, client: Address)
    requires Accounted(b)
    ensures Forget(b, client).Some?
    ensures Accounted(Forget(b, client).value) <==> CountOf(b.perClient, client) <= 1
  {
    assert multiset(b.pending)[client] == CountOf(b.perClient, client);
    if client in b.pending {
      var b' := Forget(b, client).value;
      RemoveFirstCounts(b.pending, client);
      SumValuesRemove(b.perClient, client);
      if b.perClient[client] == 1 {
        forall a ensures multiset(b'.pending)[a] == CountOf(b'.perClient, a) {
          assert multiset(b.pending)[a] == CountOf(b.perClient, a);
        }
      }
    }
  }

  /** No connection of this event closes with two or more requests open. */
  ghost predicate ClosesClean(s: ProxyState, cfg: Config, e: Event)
    requires Enabled(s, cfg, e)
  {
    match e
    case HangUp(_, conn) => CountOf(s.books.perClient, ClientSide(s.sockets, conn).peer) <= 1
    case Chunk(_, conn, hasMethod, sendFails) =>
      var noted := Noted(s.books, cfg, conn, s.sockets.channel[conn], hasMethod);
      sendFails && noted.Some? ==> CountOf(noted.value.perClient, ClientSide(s.sockets, conn).peer) <= 1
    case _ => true
  }

  ghost predicate AlwaysClosesClean(cfg: Config, states: seq<ProxyState>, events: seq<Event>)
    requires IsRun(cfg, states, events)
  {
    forall k :: 0 <= k < |events| ==> ClosesClean(states[k], cfg, events[k])
  }

  lemma BooksKeepAccounts(s: ProxyState, cfg: Config, e: Event)
    requires Accounted(s.books) && Enabled(s, cfg, e)
    ensures BooksAfter(s, cfg, e).Some?
    ensures Accounted(BooksAfter(s, cfg, e).value) <==> ClosesClean(s, cfg, e)
  {
    match e
    case Accept(_, _, _) =>
    case TimerFires(_) =>
    case HangUp(_, conn) => ForgetKeepsAccounts(s.books, ClientSide(s.sockets, conn).peer);
    case Chunk(_, conn, hasMethod, sendFails) =>
      var dst := s.sockets.channel[conn];
      NotedKeepsAccounts(s.books, cfg, conn, dst, hasMethod);
      ForgetKeepsAccounts(Noted(s.books, cfg, conn, dst, hasMethod).value, ClientSide(s.sockets, conn).peer);
  }

  /** An event raises no KeyError on sound accounts, and keeps them sound if and
      only if every connection it closes has at most one open request. */
  lemma EventKeepsAccounts(s: ProxyState, cfg: Config, e: Event)
    requires Accounted(s.books) && Enabled(s, cfg, e)
    ensures Next(s, cfg, e).Some?
    ensures Accounted(Next(s, cfg, e).value.books) <==> ClosesClean(s, cfg, e)
  {
    BooksKeepAccounts(s, cfg, e);
    NextBooks(s, cfg, e);
  }

  /** Request accounting: under the proviso the three structures agree, and no
      count is negative, in every state of every run, and no event raises. */
  lemma {:induction false} AccountsAgree(cfg: Config, states: seq<ProxyState>, events: seq<Event>, k: nat)
    requires IsRun(cfg, states, events) && AlwaysClosesClean(cfg, states, events)
    requires Accounted(states[0].books) && k <= |events|
    ensures Accounted(states[k].books)
    ensures forall a :: 0 <= CountOf(states[k].books.perClient, a)
    ensures forall e :: Enabled(states[k], cfg, e) ==> Next(states[k], cfg, e).Some?
  {
    if k == 0 {
    } else {
      AccountsAgree(cfg, states, events, k - 1);
      EventKeepsAccounts(states[k - 1], cfg, events[k - 1]);
    }
    var b := states[k].books;
    forall a ensures 0 <= CountOf(b.perClient, a) {
      assert multiset(b.pending)[a] == CountOf(b.perClient, a);
    }
    forall e | Enabled(states[k], cfg, e) ensures Next(states[k], cfg, e).Some? {
      EventKeepsAccounts(states[k], cfg, e);
    }
  }

  // ---- What each chunk does to the accounts --------------------------------

  /** How many requests of that client wait for a response. */
  function Open(b: Books, client: Address): int
  {
    if client in b.perClient then b.perClient[client] else 0
  }

  /** `after` has `change` more requests of that client, in all three structures,
      and those of every other client as before. */
  ghost predicate ClientMoves(before: Books, after: Books, client: Address, change: int)
  {
    && after.reqs == before.reqs + change
    && Open(after, client) == Open(before, client) + change
    && |after.pending| == |before.pending| + change
    && (forall other :: other != client ==> Open(after, other) == Open(before, other))
    && (forall other :: other != client ==> multiset(after.pending)[other] == multiset(before.pending)[other])
  }

  /** The chunk comes from a client and names an HTTP method. */
  ghost predicate IsRequest(s: ProxyState, cfg: Config, e: Event)
  {
    && e.Chunk? && e.hasMethod && e.conn in s.sockets.channel
    && IsClient(s.sockets.channel, s.sockets.clients, cfg, e.conn)
  }

  /** The chunk comes from the application, and its client, who came in through
      the proxy's own address, waits for a response. */
  ghost predicate IsResponse(s: ProxyState, cfg: Config, e: Event)
  {
    && e.Chunk? && e.conn in s.sockets.channel && s.sockets.channel[e.conn] in s.sockets.channel
    && var client := s.sockets.channel[e.conn];
       && IsClient(s.sockets.channel, s.sockets.clients, cfg, client)
       && client.local in cfg.proxyList && 0 < Open(s.books, client.peer)
  }

  /** The client whose connection the event is about. */
  ghost function ClientOf(s: ProxyState, e: Event): Address
    requires (e.Chunk? || e.HangUp?) && e.conn in s.sockets.channel
  {
    ClientSide(s.sockets, e.conn).peer
  }

  lemma OneRole(s: ProxyState, cfg: Config, conn: Socket)
    requires SocketInv(s.sockets, cfg) && conn in s.sockets.channel
    ensures var other := s.sockets.channel[conn];
            && other in s.sockets.channel && s.sockets.channel[other] == conn
            && (IsClient(s.sockets.channel, s.sockets.clients, cfg, conn) ==>
                  ClientSide(s.sockets, conn) == conn
                  && !IsClient(s.sockets.channel, s.sockets.clients, cfg, other))
            && (!IsClient(s.sockets.channel, s.sockets.clients, cfg, conn) ==>
                  ClientSide(s.sockets, conn) == other
                  && IsClient(s.sockets.channel, s.sockets.clients, cfg, other))
  {
    assert IsClient(s.sockets.channel, s.sockets.clients, cfg, conn)
           || IsClient(s.sockets.channel, s.sockets.clients, cfg, s.sockets.channel[conn]);
  }

  lemma PendingIsOpen(b: Books, client: Address)
    requires Accounted(b)
    ensures multiset(b.pending)[client] == Open(b, client)
    ensures client in b.pending <==> 0 < Open(b, client)
  {
    assert multiset(b.pending)[client] == CountOf(b.perClient, client);
  }

  /** One request more. */
  lemma RequestMoves(b: Books, client: Address)
    requires Accounted(b)
    ensures ClientMoves(b, Requested(b, client), client, 1)
  {
  }

  /** One request less. */
  lemma ResponseMoves(b: Books, client: Address)
    requires Accounted(b) && 0 < Open(b, client)
    ensures client in b.perClient && ClientMoves(b, Answered(b, client), client, -1)
  {
    PendingIsOpen(b, client);
    RemoveFirstCounts(b.pending, client);
  }

  /** What a chunk does before it is sent on, or its connection closed. */
  lemma ChunkMoves(s: ProxyState, cfg: Config, e: Event)
    requires SocketInv(s.sockets, cfg) && Accounted(s.books) && e.Chunk? && e.conn in s.sockets.channel
    ensures var noted := Noted(s.books, cfg, e.conn, s.sockets.channel[e.conn], e.hasMethod);
            && noted.Some? && Accounted(noted.value)
            && !(IsRequest(s, cfg, e) && IsResponse(s, cfg, e))
            && ClientMoves(s.books, noted.value, ClientOf(s, e),
                           if IsRequest(s, cfg, e) then 1 else if IsResponse(s, cfg, e) then -1 else 0)
  {
    var dst := s.sockets.channel[e.conn];
    NotedKeepsAccounts(s.books, cfg, e.conn, dst, e.hasMethod);
    OneRole(s, cfg, e.conn);
    hide Accounted;
    if IsClient(s.sockets.channel, s.sockets.clients, cfg, e.conn) {
      if e.hasMethod {
        RequestMoves(s.books, e.conn.peer);
      }
    } else {
      PendingIsOpen(s.books, dst.peer);
      if dst.peer in s.books.pending {
        ResponseMoves(s.books, dst.peer);
      }
    }
  }

  /** On sound accounts a chunk that is sent on adds a request of its client,
      takes one off, or leaves all accounts alone: with it the last request of all
      the timer is armed, and as long as one is open it is not. */
  lemma ChunkAccounts(s: ProxyState, cfg: Config, e: Event)
    requires SocketInv(s.sockets, cfg) && Accounted(s.books)
    requires e.Chunk? && !e.sendFails && e.conn in s.sockets.channel
    ensures Next(s, cfg, e).Some?
    ensures var after := Next(s, cfg, e).value;
            && ClientMoves(s.books, after.books, ClientOf(s, e),
                           if IsRequest(s, cfg, e) then 1 else if IsResponse(s, cfg, e) then -1 else 0)
            && (after.books.reqs == 0 ==> after.timer == if s.timer.Some? then s.timer else Some(e.now + 30000))
            && (after.books.reqs != 0 ==> after.timer == None)
            && after.sockets == s.sockets && !after.toZero
            && after.effects ==
               s.effects + (if s.toZero then [FromZero] else []) + [Forwarded(s.sockets.channel[e.conn])]
  {
    ChunkMoves(s, cfg, e);
  }

  lemma ForgetTakesAll(b: Books, client: Address)
    requires Accounted(b)
    ensures Forget(b, client).Some?
    ensures var b' := Forget(b, client).value;
            && b'.reqs == b.reqs - Open(b, client) && Open(b', client) == 0
            && forall other :: other != client ==> Open(b', other) == Open(b, other)
  {
    PendingIsOpen(b, client);
  }

  lemma CloseEndsPair(s: ProxyState, conn: Socket, now: int)
    requires conn in s.sockets.channel
    requires Forget(s.books, ClientSide(s.sockets, conn).peer).Some?
    ensures CloseStep(s, conn, now).Some?
    ensures var after, channel := CloseStep(s, conn, now).value, s.sockets.channel;
            && after.books == Forget(s.books, ClientSide(s.sockets, conn).peer).value
            && (forall x :: x in after.sockets.channel <==> x in channel && x != conn && x != channel[conn])
            && (forall x :: x in after.sockets.channel ==> after.sockets.channel[x] == channel[x])
            && after.toZero == s.toZero && after.effects == s.effects
  {
  }

  /** Closing a connection takes all requests of its client off the counter and
      the counts, and closes exactly its two sockets. */
  lemma HangUpAccounts(s: ProxyState, cfg: Config, e: Event)
    requires SocketInv(s.sockets, cfg) && Accounted(s.books) && e.HangUp? && e.conn in s.sockets.channel
    ensures Next(s, cfg, e).Some?
    ensures var after, client := Next(s, cfg, e).value, ClientOf(s, e);
            && after.books.reqs == s.books.reqs - Open(s.books, client) && Open(after.books, client) == 0
            && (forall other :: other != client ==> Open(after.books, other) == Open(s.books, other))
            && (forall x :: x in after.sockets.channel <==>
                  x in s.sockets.channel && x != e.conn && x != s.sockets.channel[e.conn])
            && (forall x :: x in after.sockets.channel ==> after.sockets.channel[x] == s.sockets.channel[x])
            && after.toZero == s.toZero && after.effects == s.effects
  {
    ForgetTakesAll(s.books, ClientOf(s, e));
    CloseEndsPair(s, e.conn, e.now);
  }

  /** A chunk that cannot be sent on closes its connection: the requests its
      client had, with the one it may bring, are all forgotten. */
  lemma FailedChunkAccounts(s: ProxyState, cfg: Config, e: Event)
    requires SocketInv(s.sockets, cfg) && Accounted(s.books)
    requires e.Chunk? && e.sendFails && e.conn in s.sockets.channel
    ensures Next(s, cfg, e).Some?
    ensures var after, client := Next(s, cfg, e).value, ClientOf(s, e);
            && after.books.reqs == s.books.reqs - Open(s.books, client) && Open(after.books, client) == 0
            && (forall other :: other != client ==> Open(after.books, other) == Open(s.books, other))
            && (forall x :: x in after.sockets.channel <==>
                  x in s.sockets.channel && x != e.conn && x != s.sockets.channel[e.conn])
            && (forall x :: x in after.sockets.channel ==> after.sockets.channel[x] == s.sockets.channel[x])
            && !after.toZero && after.effects == s.effects + (if s.toZero then [FromZero] else [])
  {
    ChunkMoves(s, cfg, e);
    var noted := Noted(s.books, cfg, e.conn, s.sockets.channel[e.conn], e.hasMethod).value;
    ForgetTakesAll(noted, ClientOf(s, e));
    CloseEndsPair(Woken(s).(books := noted, timer := Control(s.timer, noted.reqs, e.now)), e.conn, e.now);
    hide Noted, Forget, Accounted, SocketInv, CloseStep, IsRequest, IsResponse;
  }

  /** An accept that reaches the application opens exactly one pair; it wakes the
      pod, and touches no account, in either case. */
  lemma AcceptOpens(s: ProxyState, cfg: Config, e: Event)
    requires SocketInv(s.sockets, cfg) && Enabled(s, cfg, e) && e.Accept?
    ensures Next(s, cfg, e).Some?
    ensures var after := Next(s, cfg, e).value;
            && after.books == s.books && after.timer == s.timer && !after.toZero
            && after.effects == s.effects + (if s.toZero then [FromZero] else [])
            && (if e.forward.None? then after.sockets == s.sockets
                else
                  && e.client in after.sockets.channel && after.sockets.channel[e.client] == e.forward.value
                  && (forall x :: x in after.sockets.channel <==>
                        x in s.sockets.channel || x == e.client || x == e.forward.value)
                  && (forall x :: x in s.sockets.channel ==> after.sockets.channel[x] == s.sockets.channel[x]))
  {
  }

  // ---- The ledger of a run -------------------------------------------------

  /** What an event forgets: the requests its closed client has open by then. */
  ghost function ForgottenBy(s: ProxyState, cfg: Config, e: Event): int
    requires e.Chunk? || e.HangUp? ==> e.conn in s.sockets.channel
  {
    if e.HangUp? then Open(s.books, ClientOf(s, e))
    else if e.Chunk? && e.sendFails then
      Open(s.books, ClientOf(s, e)) + (if IsRequest(s, cfg, e) then 1 else if IsResponse(s, cfg, e) then -1 else 0)
    else 0
  }

  ghost function Requests(cfg: Config, states: seq<ProxyState>, events: seq<Event>, k: nat): nat
    requires IsRun(cfg, states, events) && k <= |events|
  {
    if k == 0 then 0
    else Requests(cfg, states, events, k - 1) + if IsRequest(states[k - 1], cfg, events[k - 1]) then 1 else 0
  }

  ghost function Responses(cfg: Config, states: seq<ProxyState>, events: seq<Event>, k: nat): nat
    requires IsRun(cfg, states, events) && k <= |events|
  {
    if k == 0 then 0
    else Responses(cfg, states, events, k - 1) + if IsResponse(states[k - 1], cfg, events[k - 1]) then 1 else 0
  }

  ghost function Forgotten(cfg: Config, states: seq<ProxyState>, events: seq<Event>, k: nat): int
    requires IsRun(cfg, states, events) && k <= |events|
  {
    if k == 0 then 0
    else
      RunStep(cfg, states, events, k - 1);
      Forgotten(cfg, states, events, k - 1) + ForgottenBy(states[k - 1], cfg, events[k - 1])
  }

  lemma LedgerStep(s: ProxyState, cfg: Config, e: Event)
    requires SocketInv(s.sockets, cfg) && Accounted(s.books) && Enabled(s, cfg, e) && Next(s, cfg, e).Some?
    ensures Next(s, cfg, e).value.books.reqs ==
            s.books.reqs + (if IsRequest(s, cfg, e) then 1 else if IsResponse(s, cfg, e) then -1 else 0)
            - ForgottenBy(s, cfg, e)
    ensures !(IsRequest(s, cfg, e) && IsResponse(s, cfg, e))
  {
    NextBooks(s, cfg, e);
    match e
    case Accept(_, _, _) =>
    case TimerFires(_) =>
    case HangUp(_, conn) => ForgetTakesAll(s.books, ClientOf(s, e));
    case Chunk(_, conn, hasMethod, sendFails) =>
      ChunkMoves(s, cfg, e);
      if sendFails {
        ForgetTakesAll(Noted(s.books, cfg, conn, s.sockets.channel[conn], hasMethod).value, ClientOf(s, e));
      }
  }

  /** In every state of every run under the proviso the counter is the requests
      that came, less the responses to them and those forgotten with their client. */
  lemma {:induction false} CounterIsLedger(cfg: Config, states: seq<ProxyState>, events: seq<Event>, k: nat)
    requires IsRun(cfg, states, events) && AlwaysClosesClean(cfg, states, events) && k <= |events|
    requires SocketInv(states[0].sockets, cfg) && Accounted(states[0].books)
    ensures states[k].books.reqs ==
            states[0].books.reqs + Requests(cfg, states, events, k) - Responses(cfg, states, events, k)
            - Forgotten(cfg, states, events, k)
  {
    hide SocketInv, Accounted, AlwaysClosesClean, Next, Enabled, IsRequest, IsResponse, ForgottenBy;
    if k == 0 {
    } else {
      CounterIsLedger(cfg, states, events, k - 1);
      AccountsAgree(cfg, states, events, k - 1);
      SocketMapInvariant(cfg, states, events, k - 1);
      RunStep(cfg, states, events, k - 1);
      LedgerStep(states[k - 1], cfg, events[k - 1]);
    }
  }

  // ---- The idle timer ------------------------------------------------------

  /** The timer runs only while nothing is pending, and so does the zero state. */
  ghost predicate IdleInv(reqs: int, timer: Option<int>, toZero: bool)
  {
    (timer.Some? || toZero) ==> reqs == 0
  }

  ghost predicate Idle(s: ProxyState)
  {
    IdleInv(s.books.reqs, s.timer, s.toZero)
  }

  lemma ForgetIdle(b: Books, client: Address)
    requires Accounted(b) && CountOf(b.perClient, client) <= 1
    ensures Forget(b, client).Some?
    ensures b.reqs == 0 ==> Forget(b, client).value == b
  {
    assert multiset(b.pending)[client] == CountOf(b.perClient, client);
  }

  lemma CloseKeepsIdle(s: ProxyState, conn: Socket, now: int)
    requires conn in s.sockets.channel && Accounted(s.books) && Idle(s)
    requires CountOf(s.books.perClient, ClientSide(s.sockets, conn).peer) <= 1
    ensures CloseStep(s, conn, now).Some? && Idle(CloseStep(s, conn, now).value)
  {
    ForgetIdle(s.books, ClientSide(s.sockets, conn).peer);
  }

  lemma EventKeepsIdle(s: ProxyState, cfg: Config, e: Event)
    requires Accounted(s.books) && Idle(s) && Enabled(s, cfg, e) && ClosesClean(s, cfg, e)
    ensures Next(s, cfg, e).Some? && Idle(Next(s, cfg, e).value)
  {
    match e
    case Accept(_, _, _) =>
    case TimerFires(_) =>
    case HangUp(now, conn) => CloseKeepsIdle(s, conn, now);
    case Chunk(now, conn, hasMethod, sendFails) =>
      var dst := s.sockets.channel[conn];
      NotedKeepsAccounts(s.books, cfg, conn, dst, hasMethod);
      var noted := Noted(s.books, cfg, conn, dst, hasMethod).value;
      if sendFails {
        CloseKeepsIdle(Woken(s).(books := noted, timer := Control(s.timer, noted.reqs, now)), conn, now);
      }
  }

  /** Idle safety: in every state of every run under the proviso, the zero state
      means that no request is pending in any of the three structures. */
  lemma {:induction false} ZeroMeansIdle(cfg: Config, states: seq<ProxyState>, events: seq<Event>, k: nat)
    requires IsRun(cfg, states, events) && AlwaysClosesClean(cfg, states, events)
    requires Accounted(states[0].books) && Idle(states[0]) && k <= |events|
    ensures Idle(states[k])
    ensures states[k].toZero ==>
              && states[k].books.reqs == 0 && states[k].books.pending == []
              && forall a :: CountOf(states[k].books.perClient, a) == 0
  {
    if k == 0 {
    } else {
      ZeroMeansIdle(cfg, states, events, k - 1);
      AccountsAgree(cfg, states, events, k - 1);
      EventKeepsIdle(states[k - 1], cfg, events[k - 1]);
    }
    AccountsAgree(cfg, states, events, k);
    NothingPending(states[k].books);
  }

  lemma NothingPending(b: Books)
    requires Accounted(b)
    ensures b.reqs == 0 ==> b.pending == [] && forall a :: CountOf(b.perClient, a) == 0
  {
    if b.reqs == 0 {
      assert b.pending == [];
      forall a ensures CountOf(b.perClient, a) == 0 {
        assert multiset(b.pending)[a] == CountOf(b.perClient, a);
      }
    }
  }

  /** A pod that is awake and idle is on its way to zero. */
  ghost predicate IdleIsTimed(s: ProxyState)
  {
    s.books.reqs == 0 && !s.toZero ==> s.timer.Some?
  }

  lemma CloseStaysTimed(s: ProxyState, conn: Socket, now: int)
    requires conn in s.sockets.channel && IdleIsTimed(s) && CloseStep(s, conn, now).Some?
    ensures IdleIsTimed(CloseStep(s, conn, now).value)
  {
  }

  lemma ChunkLeavesTimed(s: ProxyState, cfg: Config, conn: Socket, hasMethod: bool, sendFails: bool, now: int)
    requires conn in s.sockets.channel && RecvStep(s, cfg, conn, hasMethod, sendFails, now).Some?
    ensures IdleIsTimed(RecvStep(s, cfg, conn, hasMethod, sendFails, now).value)
  {
    var noted := Noted(s.books, cfg, conn, s.sockets.channel[conn], hasMethod).value;
    var t := Woken(s).(books := noted, timer := Control(s.timer, noted.reqs, now));
    assert IdleIsTimed(t);
    if sendFails {
      CloseStaysTimed(t, conn, now);
    }
  }

  /** An accept that wakes the idle pod while no timer is alive, and arms none. */
  ghost predicate WakesUntimed(s: ProxyState, e: Event)
  {
    e.Accept? && s.toZero && s.timer.None? && s.books.reqs == 0
  }

  /** The event lets the pending requests control the timer. */
  ghost predicate Controls(s: ProxyState, cfg: Config, e: Event)
    requires Enabled(s, cfg, e)
  {
    e.Chunk? || (e.HangUp? && ClientSide(s.sockets, e.conn).peer in s.books.pending)
  }

  /** One event: only such an accept leaves an idle pod without a timer, and
      what controls the timer, and nothing else, ends it. */
  lemma UntimedStep(s: ProxyState, cfg: Config, e: Event)
    requires Enabled(s, cfg, e) && Next(s, cfg, e).Some?
    ensures !IdleIsTimed(Next(s, cfg, e).value) <==>
              WakesUntimed(s, e) || (!IdleIsTimed(s) && !Controls(s, cfg, e))
  {
    match e
    case Accept(_, _, _) =>
    case TimerFires(_) =>
    case HangUp(_, _) =>
    case Chunk(now, conn, hasMethod, sendFails) => ChunkLeavesTimed(s, cfg, conn, hasMethod, sendFails, now);
  }

  /** Event `j` woke the pod without a timer, and nothing controlled it since. */
  ghost predicate UntimedSince(cfg: Config, states: seq<ProxyState>, events: seq<Event>, j: nat, k: nat)
    requires IsRun(cfg, states, events) && j < k <= |events|
  {
    WakesUntimed(states[j], events[j]) && forall m :: j < m < k ==> !Controls(states[m], cfg, events[m])
  }

  /** Over every run that starts with its timer: a pod is awake and idle without
      a timer exactly since an accept that woke it while no timer was alive. */
  lemma {:induction false} OnlyAcceptLeavesIdleUntimed(
    cfg: Config, states: seq<ProxyState>, events: seq<Event>, k: nat)
    requires IsRun(cfg, states, events) && IdleIsTimed(states[0]) && k <= |events|
    ensures !IdleIsTimed(states[k]) <==> exists j :: 0 <= j < k && UntimedSince(cfg, states, events, j, k)
  {
    hide IdleIsTimed, Next, WakesUntimed, Controls;
    if k == 0 {
    } else {
      OnlyAcceptLeavesIdleUntimed(cfg, states, events, k - 1);
      RunStep(cfg, states, events, k - 1);
      UntimedStep(states[k - 1], cfg, events[k - 1]);
      if !IdleIsTimed(states[k]) {
        if WakesUntimed(states[k - 1], events[k - 1]) {
          assert UntimedSince(cfg, states, events, k - 1, k);
        } else {
          var j :| 0 <= j < k - 1 && UntimedSince(cfg, states, events, j, k - 1);
          assert UntimedSince(cfg, states, events, j, k);
        }
      }
      forall j | 0 <= j < k - 1 && UntimedSince(cfg, states, events, j, k)
        ensures UntimedSince(cfg, states, events, j, k - 1)
      {
      }
    }
  }

  lemma SoundHangUpControlsNothing(s: ProxyState, cfg: Config, e: Event)
    requires Accounted(s.books) && !IdleIsTimed(s) && Enabled(s, cfg, e)
    ensures Controls(s, cfg, e) <==> e.Chunk?
  {
    NothingPending(s.books);
  }

  /** Event `j` woke the pod without a timer, and no chunk came since. */
  ghost predicate SilentSince(states: seq<ProxyState>, events: seq<Event>, j: nat, k: nat)
    requires j < k <= |events| && |states| == |events| + 1
  {
    WakesUntimed(states[j], events[j]) && forall m :: j < m < k ==> !events[m].Chunk?
  }

  /** On sound accounts only a chunk controls the timer of an idle pod, so the
      pod waits without a timer until the next chunk. */
  lemma {:induction false} UntimedUntilChunk(cfg: Config, states: seq<ProxyState>, events: seq<Event>, k: nat)
    requires IsRun(cfg, states, events) && AlwaysClosesClean(cfg, states, events)
    requires Accounted(states[0].books) && IdleIsTimed(states[0]) && k <= |events|
    ensures !IdleIsTimed(states[k]) <==> exists j :: 0 <= j < k && SilentSince(states, events, j, k)
  {
    hide AlwaysClosesClean, IdleIsTimed, Next, WakesUntimed, Controls, Accounted;
    if k == 0 {
    } else {
      UntimedUntilChunk(cfg, states, events, k - 1);
      RunStep(cfg, states, events, k - 1);
      UntimedStep(states[k - 1], cfg, events[k - 1]);
      AccountsAgree(cfg, states, events, k - 1);
      if !IdleIsTimed(states[k - 1]) {
        SoundHangUpControlsNothing(states[k - 1], cfg, events[k - 1]);
      }
      if !IdleIsTimed(states[k]) {
        if WakesUntimed(states[k - 1], events[k - 1]) {
          assert SilentSince(states, events, k - 1, k);
        } else {
          var j :| 0 <= j < k - 1 && SilentSince(states, events, j, k - 1);
          ChunkControls(states[k - 1], cfg, events[k - 1]);
          assert SilentSince(states, events, j, k);
        }
      }
      forall j | 0 <= j < k - 1 && SilentSince(states, events, j, k)
        ensures SilentSince(states, events, j, k - 1)
      {
      }
    }
  }

  lemma ChunkControls(s: ProxyState, cfg: Config, e: Event)
    requires Enabled(s, cfg, e)
    ensures e.Chunk? ==> Controls(s, cfg, e)
  {
  }

  /** The timer of state `k` was armed by event `i - 1`, or before the run when
      `i` is zero, and nothing was pending in any state since. */
  ghost predicate ArmedSince(states: seq<ProxyState>, events: seq<Event>, t0: int, i: nat, k: nat)
    requires i <= k < |states| == |events| + 1
  {
    && states[k].timer == Some((if i == 0 then t0 else events[i - 1].now) + TIME_SHORT)
    && forall m :: i <= m <= k ==> states[m].books.reqs == 0
  }

  lemma TimerKeptOrArmed(s: ProxyState, cfg: Config, e: Event)
    requires Enabled(s, cfg, e) && Next(s, cfg, e).Some? && Next(s, cfg, e).value.timer.Some?
    ensures Next(s, cfg, e).value.timer == s.timer || Next(s, cfg, e).value.timer == Some(e.now + TIME_SHORT)
  {
  }

  lemma TimedStep(s: ProxyState, cfg: Config, e: Event)
    requires Enabled(s, cfg, e) && Next(s, cfg, e).Some?
    requires s.timer.Some? ==> s.books.reqs == 0
    ensures Next(s, cfg, e).value.timer.Some? ==> Next(s, cfg, e).value.books.reqs == 0
  {
  }

  /** Whatever closes how, the timer is alive only while the counter is zero. */
  lemma {:induction false} TimedIsIdle(cfg: Config, states: seq<ProxyState>, events: seq<Event>, k: nat)
    requires IsRun(cfg, states, events) && k <= |events|
    requires states[0].timer.Some? ==> states[0].books.reqs == 0
    ensures states[k].timer.Some? ==> states[k].books.reqs == 0
  {
    if k == 0 {
    } else {
      hide Next, Enabled;
      TimedIsIdle(cfg, states, events, k - 1);
      RunStep(cfg, states, events, k - 1);
      TimedStep(states[k - 1], cfg, events[k - 1]);
    }
  }

  lemma {:induction false} TimerHasOrigin(
    cfg: Config, states: seq<ProxyState>, events: seq<Event>, t0: int, k: nat) returns (i: nat)
    requires IsRun(cfg, states, events) && states[0].books.reqs == 0 && states[0].timer == Some(t0 + TIME_SHORT)
    requires k <= |events| && states[k].timer.Some?
    ensures i <= k && ArmedSince(states, events, t0, i, k)
  {
    TimedIsIdle(cfg, states, events, k);
    if k == 0 {
      i := 0;
    } else {
      TimerKeptOrArmed(states[k - 1], cfg, events[k - 1]);
      if states[k].timer == Some(events[k - 1].now + TIME_SHORT) {
        i := k;
      } else {
        i := TimerHasOrigin(cfg, states, events, t0, k - 1);
      }
    }
  }

  /** Timed idleness: when the idle timer fires, at least 30 seconds have passed
      since a moment from which on the counter was zero in every state, also in
      runs whose accounts a hang-up has broken. */
  lemma TimerFiresAfterIdleness(
    cfg: Config, states: seq<ProxyState>, events: seq<Event>, t0: int, k: nat) returns (i: nat)
    requires IsRun(cfg, states, events) && states[0].books.reqs == 0 && states[0].timer == Some(t0 + TIME_SHORT)
    requires k < |events| && events[k].TimerFires?
    ensures i <= k
    ensures (if i == 0 then t0 else events[i - 1].now) + 30000 <= events[k].now
    ensures forall m :: i <= m <= k ==> states[m].books.reqs == 0
  {
    assert Enabled(states[k], cfg, events[k]);
    i := TimerHasOrigin(cfg, states, events, t0, k);
  }

  lemma IdleStep(s: ProxyState, cfg: Config, e: Event)
    requires Enabled(s, cfg, e) && Next(s, cfg, e).Some? && Next(s, cfg, e).value.books.reqs == 0
    requires s.timer.Some? && !e.TimerFires? && !(e.Chunk? && e.sendFails)
    ensures Next(s, cfg, e).value.timer == s.timer
  {
  }

  /** The converse: while the counter stays zero nothing moves a live timer, so
      from its deadline on it may fire, and then the pod goes to zero. A request
      whose chunk fails to be sent on comes and goes within one event. */
  lemma {:induction false} IdlePodGoesToZero(
    cfg: Config, states: seq<ProxyState>, events: seq<Event>, i: nat, k: nat, now: int)
    requires IsRun(cfg, states, events) && i <= k <= |events| && states[i].timer.Some?
    requires forall m :: i <= m <= k ==> states[m].books.reqs == 0
    requires forall m :: i <= m < k ==> !events[m].TimerFires? && !(events[m].Chunk? && events[m].sendFails)
    requires states[i].timer.value <= now
    ensures states[k].timer == states[i].timer && Enabled(states[k], cfg, TimerFires(now))
    ensures var after := Next(states[k], cfg, TimerFires(now));
            && after.Some? && after.value.toZero && after.value.timer.None?
            && after.value.effects == states[k].effects + [ToZero]
            && after.value.sockets == states[k].sockets && after.value.books == states[k].books
    decreases k
  {
    if k == i {
    } else {
      IdlePodGoesToZero(cfg, states, events, i, k - 1, now);
      RunStep(cfg, states, events, k - 1);
      IdleStep(states[k - 1], cfg, events[k - 1]);
    }
  }

  // ---- No chunk goes out in the zero state ---------------------------------

  /** Whether the pod is at zero after these effects. */
  function AtZero(initially: bool, effects: seq<Effect>): bool
  {
    if |effects| == 0 then initially
    else
      match effects[|effects| - 1]
      case ToZero => true
      case FromZero => false
      case Forwarded(_) => AtZero(initially, effects[..|effects| - 1])
  }

  ghost predicate ForwardsAwake(initially: bool, effects: seq<Effect>)
  {
    forall i :: 0 <= i < |effects| && effects[i].Forwarded? ==> !AtZero(initially, effects[..i])
  }

  lemma OneMoreEffect(initially: bool, effects: seq<Effect>, e: Effect)
    requires ForwardsAwake(initially, effects)
    requires e.Forwarded? ==> !AtZero(initially, effects)
    ensures ForwardsAwake(initially, effects + [e])
    ensures AtZero(initially, effects + [e]) ==
            (if e.ToZero? then true else if e.FromZero? then false else AtZero(initially, effects))
  {
    var longer := effects + [e];
    assert longer[..|effects|] == effects;
    forall i | 0 <= i < |longer| && longer[i].Forwarded?
      ensures !AtZero(initially, longer[..i])
    {
      if i < |effects| {
        assert longer[..i] == effects[..i];
      }
    }
  }

  ghost predicate FlagTellsTruth(initially: bool, s: ProxyState)
  {
    s.toZero == AtZero(initially, s.effects) && ForwardsAwake(initially, s.effects)
  }

  lemma EventKeepsTruth(initially: bool, s: ProxyState, cfg: Config, e: Event)
    requires FlagTellsTruth(initially, s) && Enabled(s, cfg, e) && Next(s, cfg, e).Some?
    ensures FlagTellsTruth(initially, Next(s, cfg, e).value)
  {
    OneMoreEffect(initially, s.effects, FromZero);
    match e
    case Accept(_, _, _) =>
    case TimerFires(_) => OneMoreEffect(initially, s.effects, ToZero);
    case HangUp(_, _) =>
    case Chunk(_, conn, _, sendFails) =>
      if !sendFails {
        OneMoreEffect(initially, Woken(s).effects, Forwarded(s.sockets.channel[conn]));
      }
  }

  /** In every run, whatever closes how, the flag tells the state of the pod and
      no chunk is ever forwarded to a pod at zero. */
  lemma {:induction false} NothingForwardedAtZero(cfg: Config, states: seq<ProxyState>, events: seq<Event>, k: nat)
    requires IsRun(cfg, states, events) && states[0].effects == [] && k <= |events|
    ensures FlagTellsTruth(states[0].toZero, states[k])
  {
    if k == 0 {
    } else {
      NothingForwardedAtZero(cfg, states, events, k - 1);
      RunStep(cfg, states, events, k - 1);
      EventKeepsTruth(states[0].toZero, states[k - 1], cfg, events[k - 1]);
    }
  }

  // ---- The start -----------------------------------------------------------

  /** The start of the main loop meets the assumptions of all of the above. */
  lemma InitialState(cfg: Config, server: Socket, inZeroState: bool, t0: int)
    ensures var s := Initial(server, inZeroState, t0);
            && SocketInv(s.sockets, cfg) && Accounted(s.books) && Idle(s)
            && s.timer == Some(t0 + TIME_SHORT) && s.effects == []
  {
  }

  // ---- Runs in which a promise fails ---------------------------------------

  /** A client and the proxy's socket to the application. */
  function ExampleClient(): Socket
  {
    Socket(1, 4, Address(10, 5000), Address(1, 8080))
  }

  function ExampleForward(): Socket
  {
    Socket(2, 5, Address(2, 80), Address(1, 6000))
  }

  function ExampleServer(): Socket
  {
    Socket(0, 3, Address(0, 0), Address(1, 8080))
  }

  function ExampleConfig(): Config
  {
    Config(Address(2, 80), {Address(1, 8080)})
  }

  /** The client is connected, and the pod awake. */
  function ExampleState(books: Books, timer: Option<int>, effects: seq<Effect>): ProxyState
  {
    ProxyState(Connected(Initial(ExampleServer(), false, 0).sockets, ExampleClient(), ExampleForward()),
               books, false, timer, effects)
  }

  lemma ExampleRequest(books: Books, timer: Option<int>, effects: seq<Effect>, now: int)
    requires Requested(books, ExampleClient().peer).reqs != 0
    ensures var s, e := ExampleState(books, timer, effects), Chunk(now, ExampleClient(), true, false);
            && Enabled(s, ExampleConfig(), e)
            && Next(s, ExampleConfig(), e) ==
               Some(ExampleState(Requested(books, ExampleClient().peer), None, effects + [Forwarded(ExampleForward())]))
  {
  }

  lemma ExampleHangUp(books: Books, timer: Option<int>, effects: seq<Effect>, now: int)
    requires books == Books(2, map[ExampleClient().peer := 2], [ExampleClient().peer, ExampleClient().peer])
    ensures var s, e := ExampleState(books, timer, effects), HangUp(now, ExampleClient());
            && Enabled(s, ExampleConfig(), e) && Next(s, ExampleConfig(), e).Some?
            && Next(s, ExampleConfig(), e).value.books == Books(0, map[], [ExampleClient().peer])
  {
    assert books.perClient - {ExampleClient().peer} == map[];
    assert books.pending[1..] == [ExampleClient().peer];
  }

  lemma ExampleAccept(now: int)
    ensures var s, e := Initial(ExampleServer(), false, 0), Accept(now, ExampleClient(), Some(ExampleForward()));
            && Enabled(s, ExampleConfig(), e)
            && Next(s, ExampleConfig(), e) == Some(ExampleState(Books(0, map[], []), Some(TIME_SHORT), []))
  {
  }

  /** One client sends two requests and hangs up: one of them stays in the list
      of pending clients, though counter and counts know of none. */
  lemma HangUpLosesAccounts() returns (states: seq<ProxyState>, events: seq<Event>)
    ensures IsRun(ExampleConfig(), states, events) && states[0] == Initial(ExampleServer(), false, 0)
    ensures var b := states[|events|].books;
            !Accounted(b) && b.reqs == 0 && b.perClient == map[] && b.pending == [ExampleClient().peer]
  {
    hide Next, Enabled, ExampleState;
    var cfg, c, f := ExampleConfig(), ExampleClient(), ExampleForward();
    var a := c.peer;
    events := [Accept(1, c, Some(f)), Chunk(2, c, true, false), Chunk(3, c, true, false), HangUp(4, c)];
    var b0, b1, b2 := Books(0, map[], []), Books(1, map[a := 1], [a]), Books(2, map[a := 2], [a, a]);
    assert Requested(b0, a) == b1 && Requested(b1, a) == b2;
    ExampleAccept(1);
    ExampleRequest(b0, Some(TIME_SHORT), [], 2);
    ExampleRequest(b1, None, [Forwarded(f)], 3);
    ExampleHangUp(b2, None, [Forwarded(f), Forwarded(f)], 4);
    assert [] + [Forwarded(f)] == [Forwarded(f)] && [Forwarded(f)] + [Forwarded(f)] == [Forwarded(f), Forwarded(f)];
    var s1, s2 := ExampleState(b0, Some(TIME_SHORT), []), ExampleState(b1, None, [Forwarded(f)]);
    var s3 := ExampleState(b2, None, [Forwarded(f), Forwarded(f)]);
    states := [Initial(ExampleServer(), false, 0), s1, s2, s3, Next(s3, cfg, events[3]).value];
  }

  /** The idle timer fires and a client connects without sending anything: the
      pod is up again and idle, and no timer is alive to take it back to zero. */
  lemma AcceptLosesTimer() returns (states: seq<ProxyState>, events: seq<Event>)
    ensures IsRun(ExampleConfig(), states, events) && states[0] == Initial(ExampleServer(), false, 0)
    ensures !IdleIsTimed(states[|events|]) && !states[|events|].toZero
  {
    var c, f := ExampleClient(), ExampleForward();
    events := [TimerFires(30000), Accept(30001, c, Some(f))];
    var s0 := Initial(ExampleServer(), false, 0);
    var s1 := ScaleToZero(s0).(timer := None);
    states := [s0, s1, AcceptStep(s1, c, Some(f))];
  }
}
