/** The sidecar proxy: a map between client and application sockets, the
    pending requests in three redundant structures, and the idle timer. */
module Proxy {
  import opened Common

  const TIME_SHORT := 30000

  datatype Address = Address(host: int, port: int)

  /** An open socket; `peer` and `local` are its two addresses. */
  datatype Socket = Socket(id: int, fd: int, peer: Address, local: Address)

  /** The application's address and the proxy's own addresses. */
  datatype Config = Config(forwardTo: Address, proxyList: set<Address>)

  /** What the proxy does to the pod and to the connections, in order. */
  datatype Effect = ToZero | FromZero | Forwarded(dst: Socket)

  /** The open connections; `clients` is fd_to_client_dict. */
  datatype Sockets = Sockets(
    server: Socket,
    inputList: seq<Socket>,
    channel: map<Socket, Socket>,
    clients: map<int, Address>)

  /** The pending requests, kept three times: reqs_in_queue, reqs_per_client
      and clients_req_pending_list. */
  datatype Books = Books(reqs: int, perClient: map<Address, int>, pending: seq<Address>)

  /** `timer` is the deadline while the idle timer is alive. */
  datatype ProxyState = ProxyState(
    sockets: Sockets, books: Books, toZero: bool, timer: Option<int>, effects: seq<Effect>)

  // ---- Specification of the steps ------------------------------------------

  /** Python's list.remove: the first occurrence goes. */
  function RemoveFirst<T(==)>(xs: seq<T>, x: T): seq<T>
  {
    if |xs| == 0 then []
    else if xs[0] == x then xs[1..]
    else [xs[0]] + RemoveFirst(xs[1..], x)
  }

  /** timer_controlled_by_reqs: the timer runs exactly while nothing is pending. */
  function Control(timer: Option<int>, reqs: int, now: int): Option<int>
  {
    if reqs == 0 && timer.None? then Some(now + TIME_SHORT)
    else if reqs != 0 && timer.Some? then None
    else timer
  }

  function ScaleToZero(s: ProxyState): ProxyState
  {
    s.(toZero := true, effects := s.effects + [ToZero])
  }

  function ScaleFromZero(s: ProxyState): ProxyState
  {
    s.(toZero := false, effects := s.effects + [FromZero])
  }

  function Woken(s: ProxyState): ProxyState
  {
    if s.toZero then ScaleFromZero(s) else s
  }

  function Connected(k: Sockets, client: Socket, forward: Socket): Sockets
  {
    k.(inputList := k.inputList + [client, forward],
       channel := k.channel[client := forward][forward := client],
       clients := k.clients[client.fd := client.peer])
  }

  function AcceptStep(s: ProxyState, client: Socket, forward: Option<Socket>): ProxyState
  {
    if forward.None? then Woken(s)
    else Woken(s).(sockets := Connected(s.sockets, client, forward.value))
  }

  function ClientSide(k: Sockets, conn: Socket): Socket
    requires conn in k.channel
  {
    if conn.fd in k.clients then conn else k.channel[conn]
  }

  /** The requests of a closed client are forgotten; None is the KeyError. */
  function Forget(b: Books, client: Address): Option<Books>
  {
    if client !in b.pending then Some(b)
    else if client !in b.perClient then None
    else Some(Books(b.reqs - b.perClient[client], b.perClient - {client}, RemoveFirst(b.pending, client)))
  }

  function Disconnected(k: Sockets, conn: Socket): Sockets
    requires conn in k.channel
  {
    var other := k.channel[conn];
    k.(clients := k.clients - {ClientSide(k, conn).fd},
       inputList := RemoveFirst(RemoveFirst(k.inputList, conn), other),
       channel := k.channel - {conn, other})
  }

  function CloseStep(s: ProxyState, conn: Socket, now: int): Option<ProxyState>
    requires conn in s.sockets.channel
  {
    var client := ClientSide(s.sockets, conn).peer;
    var books := Forget(s.books, client);
    if books.None? then None
    else Some(s.(sockets := Disconnected(s.sockets, conn), books := books.value,
                 timer := if client in s.books.pending then Control(s.timer, books.value.reqs, now) else s.timer))
  }

  function CountOf(perClient: map<Address, int>, client: Address): int
  {
    if client in perClient then perClient[client] else 0
  }

  function Requested(b: Books, client: Address): Books
  {
    Books(b.reqs + 1, b.perClient[client := CountOf(b.perClient, client) + 1], b.pending + [client])
  }

  function Answered(b: Books, client: Address): Books
    requires client in b.perClient
  {
    Books(b.reqs - 1, b.perClient[client := b.perClient[client] - 1], RemoveFirst(b.pending, client))
  }

  /** The bookkeeping of one chunk from `conn` to `dst`; None is the KeyError. */
  function Noted(b: Books, cfg: Config, conn: Socket, dst: Socket, hasMethod: bool): Option<Books>
  {
    var b1 := if dst.peer == cfg.forwardTo && hasMethod then Requested(b, conn.peer) else b;
    if !(dst.local in cfg.proxyList && dst.peer in b1.pending) then Some(b1)
    else if dst.peer !in b1.perClient then None
    else Some(Answered(b1, dst.peer))
  }

  function RecvStep(s: ProxyState, cfg: Config, conn: Socket, hasMethod: bool, sendFails: bool, now: int)
    : Option<ProxyState>
    requires conn in s.sockets.channel
  {
    var dst := s.sockets.channel[conn];
    var noted := Noted(s.books, cfg, conn, dst, hasMethod);
    if noted.None? then None
    else
      var s2 := Woken(s).(books := noted.value, timer := Control(s.timer, noted.value.reqs, now));
      if sendFails then CloseStep(s2, conn, now)
      else Some(s2.(effects := s2.effects + [Forwarded(dst)]))
  }

  // ---- The socket invariant ------------------------------------------------

  ghost predicate NoDuplicates<T>(xs: seq<T>)
  {
    forall i, j :: 0 <= i < j < |xs| ==> xs[i] != xs[j]
  }

  ghost predicate Involution(channel: map<Socket, Socket>)
  {
    forall x :: x in channel ==> channel[x] in channel && channel[channel[x]] == x && channel[x] != x
  }

  /** `conn` is the client's end of its pair. */
  ghost predicate IsClient(channel: map<Socket, Socket>, clients: map<int, Address>, cfg: Config, conn: Socket)
    requires conn in channel
  {
    && conn.fd in clients && clients[conn.fd] == conn.peer
    && channel[conn].fd !in clients
    && conn.peer != cfg.forwardTo
    && channel[conn].peer == cfg.forwardTo && channel[conn].local !in cfg.proxyList
  }

  /** Exactly one end of each pair is the client's. */
  ghost predicate Roles(channel: map<Socket, Socket>, clients: map<int, Address>, cfg: Config)
    requires Involution(channel)
  {
    forall x :: x in channel ==>
      IsClient(channel, clients, cfg, x) || IsClient(channel, clients, cfg, channel[x])
  }

  ghost predicate Listing(inputList: seq<Socket>, channel: map<Socket, Socket>, server: Socket)
  {
    && server !in channel
    && NoDuplicates(inputList)
    && forall x :: x in inputList <==> x == server || x in channel
  }

  /** Open descriptors are distinct, and the dictionary knows only open ones. */
  ghost predicate Descriptors(channel: map<Socket, Socket>, clients: map<int, Address>)
  {
    && (forall x, y :: x in channel && y in channel && x.fd == y.fd ==> x == y)
    && (forall fd :: fd in clients ==> exists x :: x in channel && x.fd == fd)
  }

  /** The channel is a fixed-point-free involution without the server, the
      input list is its domain and the server without duplicates, descriptors
      are distinct, and exactly one end of each pair is a client. */
  ghost predicate SocketInv(k: Sockets, cfg: Config)
  {
    && Involution(k.channel) && Roles(k.channel, k.clients, cfg)
    && Listing(k.inputList, k.channel, k.server) && Descriptors(k.channel, k.clients)
  }

  // ---- The server ----------------------------------------------------------

  class TheServer {
    const cfg: Config
    const server: Socket
    var inputList: seq<Socket>
    var channel: map<Socket, Socket>
    var clientOfFd: map<int, Address>
    var reqsInQueue: int
    var reqsPerClient: map<Address, int>
    var pendingClients: seq<Address>
    var toZeroFlag: bool
    var timer: Option<int>
    ghost var effects: seq<Effect>

    ghost function Connections(): Sockets
      reads this
    {
      Sockets(server, inputList, channel, clientOfFd)
    }

    ghost function Pending(): Books
      reads this
    {
      Books(reqsInQueue, reqsPerClient, pendingClients)
    }

    ghost function State(): ProxyState
      reads this
    {
      ProxyState(Connections(), Pending(), toZeroFlag, timer, effects)
    }

    ghost predicate Valid()
      reads this
    {
      SocketInv(Connections(), cfg)
    }

    /** Construction and the start of the main loop, which arms the timer. */
    constructor (cfg: Config, server: Socket, inZeroState: bool, now: int)
      ensures Valid() && this.cfg == cfg && State() == Initial(server, inZeroState, now)
    {
      this.cfg, this.server := cfg, server;
      inputList, channel, clientOfFd := [server], map[], map[];
      reqsInQueue, reqsPerClient, pendingClients := 0, map[], [];
      toZeroFlag := inZeroState;
      timer := Some(now + TIME_SHORT);
      effects := [];
    }

    method VscaleToZero()
      modifies this
      ensures State() == ScaleToZero(old(State()))
    {
      toZeroFlag := true;
      effects := effects + [ToZero];
    }

    method VscaleFromZero()
      modifies this
      ensures State() == ScaleFromZero(old(State()))
    {
      toZeroFlag := false;
      effects := effects + [FromZero];
    }

    method TimerControlledByReqs(now: int)
      modifies this`timer
      ensures timer == Control(old(timer), reqsInQueue, now)
    {
      if reqsInQueue == 0 && timer.None? {
        timer := Some(now + TIME_SHORT);
      }
      if reqsInQueue != 0 && timer.Some? {
        timer := None;
      }
    }

    method OnTimer()
      requires timer.Some?
      modifies this
      ensures State() == ScaleToZero(old(State())).(timer := None)
    {
      timer := None;
      VscaleToZero();
    }

    /** The accept branch of the main loop. */
    method OnAccept(client: Socket, forward: Option<Socket>)
      modifies this
      ensures State() == AcceptStep(old(State()), client, forward)
    {
      if toZeroFlag {
        VscaleFromZero();
      }
      if forward.Some? {
        inputList := inputList + [client];
        inputList := inputList + [forward.value];
        channel := channel[client := forward.value];
        channel := channel[forward.value := client];
        clientOfFd := clientOfFd[client.fd := client.peer];
        assert inputList == old(inputList) + [client, forward.value];
      }
    }

    /** The client address is looked up by the peer name or, when that call
        fails, in the dictionary; the invariant makes both ways agree. */
    method ClientAddress(conn: Socket, peerNameFails: bool) returns (address: Address)
      requires Valid() && conn in channel
      ensures address == ClientSide(Connections(), conn).peer
    {
      assert IsClient(channel, clientOfFd, cfg, conn) || IsClient(channel, clientOfFd, cfg, channel[conn]);
      if !peerNameFails {
        if conn.fd in clientOfFd {
          address := conn.peer;
        } else {
          address := channel[conn].peer;
        }
      } else {
        if conn.fd in clientOfFd {
          address := clientOfFd[conn.fd];
        } else {
          address := clientOfFd[channel[conn].fd];
        }
      }
    }

    method ForgetRequests(client: Address, now: int) returns (ok: bool)
      modifies this`reqsInQueue, this`pendingClients, this`reqsPerClient, this`timer
      ensures var r := Forget(old(Pending()), client);
              && ok == r.Some?
              && (ok ==> && Pending() == r.value
                         && timer == if client in old(pendingClients) then Control(old(timer), reqsInQueue, now)
                                     else old(timer))
    {
      if client in pendingClients {
        if client !in reqsPerClient {
          return false;
        }
        reqsInQueue := reqsInQueue - reqsPerClient[client];
        pendingClients := RemoveFirst(pendingClients, client);
        reqsPerClient := reqsPerClient - {client};
        TimerControlledByReqs(now);
      }
      return true;
    }

    method Disconnect(conn: Socket)
      requires conn in channel && channel[conn] in channel && channel[channel[conn]] == conn
      modifies this`clientOfFd, this`inputList, this`channel
      ensures Connections() == Disconnected(old(Connections()), conn)
    {
      if conn.fd in clientOfFd {
        clientOfFd := clientOfFd - {conn.fd};
      } else {
        clientOfFd := clientOfFd - {channel[conn].fd};
      }
      inputList := RemoveFirst(inputList, conn);
      inputList := RemoveFirst(inputList, channel[conn]);
      var out := channel[conn];
      channel := channel - {out};
      channel := channel - {conn};
      assert channel == old(channel) - {conn, out};
    }

    method OnClose(conn: Socket, peerNameFails: bool, now: int) returns (ok: bool)
      requires Valid() && conn in channel
      modifies this
      ensures var r := CloseStep(old(State()), conn, now);
              && ok == r.Some? && (ok ==> State() == r.value)
    {
      var clientAddr := ClientAddress(conn, peerNameFails);
      ok := ForgetRequests(clientAddr, now);
      if ok {
        Disconnect(conn);
      }
    }

    method NoteChunk(conn: Socket, hasMethod: bool) returns (ok: bool)
      requires conn in channel
      modifies this`reqsInQueue, this`pendingClients, this`reqsPerClient
      ensures var r := Noted(old(Pending()), cfg, conn, channel[conn], hasMethod);
              && ok == r.Some? && (ok ==> Pending() == r.value)
    {
      var connDstRemote := channel[conn].peer;
      var connDstLocal := channel[conn].local;
      var connOrigRemote := conn.peer;
      if connDstRemote == cfg.forwardTo && hasMethod {
        reqsInQueue := reqsInQueue + 1;
        if connOrigRemote !in reqsPerClient {
          reqsPerClient := reqsPerClient[connOrigRemote := 1];
        } else {
          reqsPerClient := reqsPerClient[connOrigRemote := reqsPerClient[connOrigRemote] + 1];
        }
        pendingClients := pendingClients + [connOrigRemote];
      }
      if connDstLocal in cfg.proxyList && connDstRemote in pendingClients {
        reqsInQueue := reqsInQueue - 1;
        if connDstRemote !in reqsPerClient {
          return false;
        }
        reqsPerClient := reqsPerClient[connDstRemote := reqsPerClient[connDstRemote] - 1];
        pendingClients := RemoveFirst(pendingClients, connDstRemote);
      }
      return true;
    }

    method OnRecv(conn: Socket, hasMethod: bool, sendFails: bool, peerNameFails: bool, now: int)
      returns (ok: bool)
      requires Valid() && conn in channel
      modifies this
      ensures var r := RecvStep(old(State()), cfg, conn, hasMethod, sendFails, now);
              && ok == r.Some? && (ok ==> State() == r.value)
    {
      if toZeroFlag {
        VscaleFromZero();
      }
      ok := NoteChunk(conn, hasMethod);
      if !ok {
        return;
      }
      TimerControlledByReqs(now);
      if sendFails {
        ok := OnClose(conn, peerNameFails, now);
      } else {
        effects := effects + [Forwarded(channel[conn])];
      }
    }
  }

  /** The state at the start of the main loop. */
  function Initial(server: Socket, inZeroState: bool, now: int): ProxyState
  {
    ProxyState(Sockets(server, [server], map[], map[]), Books(0, map[], []),
               inZeroState, Some(now + TIME_SHORT), [])
  }
}
