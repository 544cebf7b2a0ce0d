/** The client and the hub as objects, one whole call at a time. */
module WebSocketHub {
  import opened Domain
  import H = Hub

  class WsClient {
    const userId: string
    var send: seq<H.Frame>  // the channel
    var closed: bool
    ghost var closings: nat  // how often the channel has been closed

    constructor (userId: string)
      ensures this.userId == userId && send == [] && !closed && closings == 0
    {
      this.userId, send, closed, closings := userId, [], false, 0;
    }

    ghost function View(): ClientView
      reads this
    {
      ClientView(send, closed)
    }

    /** Never blocks: false when the client is closed or the channel is full. */
    method Enqueue(frame: H.Frame) returns (ok: bool)
      modifies this`send
      ensures ok == (!closed && |old(send)| < H.CAPACITY)
      ensures send == if ok then old(send) + [frame] else old(send)
    {
      if closed { return false; }
      if |send| < H.CAPACITY {
        send := send + [frame];
        return true;
      }
      return false;
    }

    /** Once: the first call sets the flag and closes the channel, a later one does nothing. */
    method Close()
      modifies this`closed, this`closings
      ensures closed && closings == if old(closed) then old(closings) else old(closings) + 1
    {
      if !closed { closed, closings := true, closings + 1; }
    }
  }

  type Users = map<string, set<WsClient>>

  ghost predicate Sound(users: Users) {
    forall u :: u in users ==> users[u] != {} && forall c :: c in users[u] ==> c.userId == u
  }

  predicate Holds(users: Users, c: WsClient) {
    c.userId in users && c in users[c.userId]
  }

  function With(users: Users, c: WsClient): Users {
    users[c.userId := (if c.userId in users then users[c.userId] else {}) + {c}]
  }

  function Without(users: Users, c: WsClient): Users {
    if c.userId !in users then users
    else if users[c.userId] == {c} || users[c.userId] == {} then users - {c.userId}
    else users[c.userId := users[c.userId] - {c}]
  }

  /** Taking a client out keeps no empty set and no other client's place. */
  lemma WithoutOnly(users: Users, c: WsClient)
    requires Sound(users)
    ensures Sound(Without(users, c)) && !Holds(Without(users, c), c)
    ensures forall d: WsClient :: d != c ==> (Holds(Without(users, c), d) <==> Holds(users, d))
    ensures forall u :: u != c.userId ==> (u in Without(users, c) <==> u in users) && (u in users ==> Without(users, c)[u] == users[u])
  {
  }

  ghost function ClientsIn(users: Users, user: string): set<WsClient> {
    if user in users then users[user] else {}
  }

  /** Other users' clients are other clients. */
  lemma Apart(users: Users, u: string, v: string)
    requires Sound(users) && u != v
    ensures ClientsIn(users, u) !! ClientsIn(users, v)
  {
    if u in users && v in users {
      forall c | c in users[u] ensures c !in users[v] { assert c.userId == u; }
    }
  }

  /** The first `n` members, the sender aside. */
  ghost function Receivers(members: seq<string>, sender: string, n: nat): set<string>
    requires n <= |members|
  {
    set j | 0 <= j < n && members[j] != sender :: members[j]
  }

  lemma NextReceiver(members: seq<string>, sender: string, n: nat)
    requires Distinct(members) && n < |members|
    ensures members[n] != sender ==>
      Receivers(members, sender, n + 1) == Receivers(members, sender, n) + {members[n]} && members[n] !in Receivers(members, sender, n)
    ensures members[n] == sender ==> Receivers(members, sender, n + 1) == Receivers(members, sender, n)
  {
  }

  lemma AllReceivers(members: seq<string>, sender: string)
    ensures Receivers(members, sender, 0) == {}
    ensures Receivers(members, sender, |members|) == set m | m in members && m != sender
  {
  }

  datatype ClientView = ClientView(send: seq<H.Frame>, closed: bool)

  /** What a broadcast does to one client: it queues the frame, or closes the client if it cannot. */
  function Served(ch: ClientView, frame: H.Frame): ClientView {
    if !ch.closed && |ch.send| < H.CAPACITY then ch.(send := ch.send + [frame]) else ch.(closed := true)
  }

  lemma ServedMeans(before: ClientView, after: ClientView, frame: H.Frame)
    requires after == Served(before, frame)
    ensures !before.closed && |before.send| < H.CAPACITY ==> !after.closed && after.send == before.send + [frame]
    ensures before.closed || |before.send| >= H.CAPACITY ==> after.closed && after.send == before.send
  {
  }

  /** Every client in the hub. */
  ghost function All(users: Users): set<WsClient> {
    set u, c | u in users && c in users[u] :: c
  }

  lemma AllHolds(users: Users, u: string)
    ensures ClientsIn(users, u) <= All(users)
  {
  }

  ghost function Views(all: set<WsClient>): map<WsClient, ClientView>
    reads all
  {
    map c | c in all :: c.View()
  }

  /** The clients `all`, once as in `before`, have been served; those still open are `left`. */
  ghost predicate AllServed(before: map<WsClient, ClientView>, all: set<WsClient>, left: set<WsClient>, frame: H.Frame)
    reads all
  {
    left <= all && forall c :: c in all ==> c in before && c.View() == Served(before[c], frame) && (c in left <==> !c.closed)
  }

  ghost predicate Untouched(before: map<WsClient, ClientView>, all: set<WsClient>)
    reads all
  {
    forall c :: c in all ==> c in before && c.View() == before[c]
  }

  class Hub {
    var users: Users

    constructor ()
      ensures users == map[] && Sound(users)
    {
      users := map[];
    }

    method Register(client: WsClient)
      requires Sound(users)
      modifies this
      ensures Sound(users) && users == With(old(users), client)
      ensures forall u, d: WsClient :: u in users && d in users[u] <==>
        (u in old(users) && d in old(users)[u]) || (u == client.userId && d == client)
    {
      if client.userId !in users { users := users[client.userId := {}]; }
      users := users[client.userId := users[client.userId] + {client}];
    }

    /** Takes the client out and closes it, unless its user is gone altogether. */
    method Unregister(client: WsClient)
      requires Sound(users)
      modifies this, client`closed, client`closings
      ensures Sound(users) && users == Without(old(users), client)
      ensures forall u, d: WsClient :: u in users && d in users[u] <==> u in old(users) && d in old(users)[u] && d != client
      ensures client.closed == (old(client.closed) || client.userId in old(users))
    {
      if client.userId !in users { return; }
      var clients := users[client.userId] - {client};
      WithoutOnly(users, client);
      if clients == {} { users := users - {client.userId}; } else { users := users[client.userId := clients]; }
      client.Close();
    }

    /** A snapshot of a user's clients, in any order. */
    method ClientsForUser(user: string) returns (clients: seq<WsClient>)
      ensures Distinct(clients)
      ensures forall c :: c in clients <==> user in users && c in users[user]
    {
      clients := [];
      if user !in users { return; }
      var left := users[user];
      while left != {}
        invariant left <= users[user] && Distinct(clients)
        invariant forall c :: c in clients <==> c in users[user] - left
        decreases left
      {
        var c :| c in left;
        left := left - {c};
        assert c !in clients;
        clients := clients + [c];
      }
    }

    ghost function Clients(user: string): set<WsClient>
      reads this
    {
      ClientsIn(users, user)
    }

    /** Queues the frame for a client, or drops the client from the hub. */
    method Serve(client: WsClient, frame: H.Frame)
      requires Sound(users) && Holds(users, client)
      modifies this, client
      ensures Sound(users) && users == if client.closed then Without(old(users), client) else old(users)
      ensures client.View() == Served(old(client.View()), frame)
    {
      var ok := client.Enqueue(frame);
      if !ok { Unregister(client); }
    }

    /** Serves every client of a user: those that could take the frame have it and stay, the others are closed and
        out of the hub. */
    method SendToUser(user: string, frame: H.Frame, ghost before: map<WsClient, ClientView>) returns (count: nat)
      requires Sound(users) && Untouched(before, Clients(user))
      modifies this, Clients(user)
      ensures Sound(users)
      ensures forall u :: u != user ==> Clients(u) == old(Clients(u))
      ensures AllServed(before, old(Clients(user)), Clients(user), frame)
      ensures forall c :: c in old(Clients(user)) ==>
        if !old(c.closed) && |old(c.send)| < H.CAPACITY
        then !c.closed && c in Clients(user) && c.send == old(c.send) + [frame]
        else c.closed && c !in Clients(user) && c.send == old(c.send)
      ensures count == |old(Clients(user))|
    {
      var clients := ClientsForUser(user);
      ghost var all, served: set<WsClient> := Clients(user), {};
      SameSize(clients, all);
      hide IsPrefix, Served;
      PrefixStarts(clients);
      for i := 0 to |clients|
        invariant Sound(users)
        invariant forall u :: u != user ==> Clients(u) == old(Clients(u))
        invariant Clients(user) <= all && served <= all && IsPrefix(clients, served, i)
        invariant forall c :: c in old(Clients(user)) ==>
          if c in served then c.View() == Served(before[c], frame) && (c in Clients(user) <==> !c.closed)
          else c.View() == before[c] && c in Clients(user)
      {
        PrefixGrows(clients, served, i);
        assert clients[i] in all;
        WithoutOnly(users, clients[i]);
        Serve(clients[i], frame);
        served := served + {clients[i]};
      }
      PrefixEnds(clients, served);
      forall c | c in old(Clients(user)) ensures before[c] == old(c.View()) && c.View() == Served(before[c], frame) {}
      forall c | c in old(Clients(user)) { ServedMeans(old(c.View()), c.View(), frame); }
      return |clients|;
    }

    /** Sends a frame to every client of every member but the sender. Each of them either has it, at the end of its
        channel, and stays in the hub, or is closed and out of the hub; nobody else notices. Members without any
        client are told by push. */
    method BroadcastMessageCreated(sender: string, members: seq<string>, frame: H.Frame) returns (offline: seq<string>)
      requires Sound(users) && Distinct(members)
      modifies this, All(users)
      ensures HasServed(old(users), old(Views(All(users))), (set m | m in members && m != sender), frame)
      ensures forall m, c :: m in members && m != sender && c in old(Clients(m)) ==>
        if !old(c.closed) && |old(c.send)| < H.CAPACITY
        then !c.closed && c in Clients(m) && c.send == old(c.send) + [frame]
        else c.closed && c !in Clients(m) && c.send == old(c.send)
      ensures forall u, c :: (u !in members || u == sender) && c in old(Clients(u)) ==>
        c in Clients(u) && c.closed == old(c.closed) && c.send == old(c.send)
      ensures forall m :: m in offline <==> m in members && m != sender && old(Clients(m)) == {}
    {
      offline := [];
      ghost var start, before := users, Views(All(users));
      NothingServed(frame);
      AllReceivers(members, sender);
      hide HasServed, Receivers, Sound, All, Views;
      for i := 0 to |members|
        invariant HasServed(start, before, Receivers(members, sender, i), frame)
        invariant forall m :: m in offline <==> m in Receivers(members, sender, i) && ClientsIn(start, m) == {}
      {
        NextReceiver(members, sender, i);
        if members[i] != sender {
          var count := SendToMember(members[i], frame, start, before, Receivers(members, sender, i));
          if count == 0 { offline := offline + [members[i]]; }
        }
      }
    }

    /** A broadcast that began with the hub at `start` and its clients as in `before` has served all clients of the
        users `done` and touched no others. */
    ghost predicate HasServed(start: Users, before: map<WsClient, ClientView>, done: set<string>, frame: H.Frame)
      reads this, All(start)
    {
      && Sound(start) && Sound(users)
      && (forall u :: u in done ==> AllServed(before, ClientsIn(start, u), Clients(u), frame))
      && (forall u :: u !in done ==> Clients(u) == ClientsIn(start, u) && Untouched(before, ClientsIn(start, u)))
    }

    lemma NothingServed(frame: H.Frame)
      requires Sound(users)
      ensures HasServed(users, Views(All(users)), {}, frame)
    {
    }

    method SendToMember(user: string, frame: H.Frame, ghost start: Users, ghost before: map<WsClient, ClientView>,
                        ghost done: set<string>)
      returns (count: nat)
      requires user !in done && HasServed(start, before, done, frame)
      modifies this, ClientsIn(start, user)
      ensures HasServed(start, before, done + {user}, frame) && count == |ClientsIn(start, user)|
    {
      hide Sound, AllServed, Untouched, All;
      AllHolds(start, user);
      forall u | u != user ensures ClientsIn(start, u) !! ClientsIn(start, user) { Apart(start, u, user); }
      count := SendToUser(user, frame, before);
    }
  }

  /** `served` is the first `n` of `s`. */
  predicate IsPrefix(s: seq<WsClient>, served: set<WsClient>, n: nat) {
    n <= |s| && forall j :: 0 <= j < |s| ==> (s[j] in served <==> j < n)
  }

  lemma PrefixStarts(s: seq<WsClient>)
    ensures IsPrefix(s, {}, 0)
  {
  }

  lemma PrefixGrows(s: seq<WsClient>, served: set<WsClient>, n: nat)
    requires Distinct(s) && n < |s| && IsPrefix(s, served, n)
    ensures s[n] !in served && IsPrefix(s, served + {s[n]}, n + 1)
  {
  }

  lemma PrefixEnds(s: seq<WsClient>, served: set<WsClient>)
    requires IsPrefix(s, served, |s|)
    ensures forall c :: c in s ==> c in served
  {
  }

  lemma {:induction false} SameSize(s: seq<WsClient>, all: set<WsClient>)
    requires Distinct(s) && forall c :: c in s <==> c in all
    ensures |s| == |all|
  {
    if s == [] {
      assert all == {};
    } else {
      assert s == [s[0]] + s[1..];
      SameSize(s[1..], all - {s[0]});
    }
  }
}
