/** Login, logout, observer updates, registration, accepts and disconnects as atomic steps.

    One thread handles messages, so a handler is a sequence of its own steps, with the steps of
    the accepting thread and of the broadcasting threads in between.  */
module Sessions {

  type Address = string
  type Id = string

  // A user as the server keeps it; the real ids are the nonempty ones.
  datatype User = User(id: Id, name: string, isAdmin: bool, x: int, z: int, radius: int)

  // NULL_USER, and what a map lookup creates for a missing key.
  const NULL_USER := User("", "", false, 0, 0, 0)

  // A row of the users table.
  datatype Row = Row(name: string, password: string, loggedIn: bool, isAdmin: bool, tileX: int, tileZ: int)

  datatype Server = Server(clients: set<Address>, mapping: map<Address, User>, users: map<Id, Row>)

  // Where the message thread is: between messages, or inside a handler with what it has read.
  datatype Pc =
    | Ready
    | LoginChecked(addr: Address, user: User)
    | LoginFlagged(addr: Address, user: User)
    | LogoutRead(addr: Address, user: User)
    | LogoutSaved(addr: Address, user: User)
    | ObserverRead(addr: Address)

  datatype State = State(server: Server, pc: Pc)

  // `ok` says whether the database query of the step succeeds; a failed one has no effect.
  datatype Step =
    // the message thread
    | LoginSelect(addr: Address, name: string, password: string, ok: bool)
    | LoginSetFlag(ok: bool)
    | LoginMap
    | LogoutGet(addr: Address)
    | LogoutSave(ok: bool)
    | LogoutFinish(ok: bool)
    | ObserverGet(addr: Address)
    | ObserverUpdate(x: int, z: int, radius: int)
    | Register(id: Id, name: string, password: string)
    // the other threads
    | Accept(addr: Address)
    | Disconnect(addr: Address)

  // ---- Atomic steps of the server ------------------------------------------------------

  function Matches(users: map<Id, Row>, name: string, password: string): set<Id> {
    set id | id in users && users[id].name == name && users[id].password == password
  }

  function FromRow(id: Id, row: Row): User {
    User(id, row.name, row.isAdmin, row.tileX, row.tileZ, 0)
  }

  function GetUser(s: Server, addr: Address): User {
    if addr in s.mapping then s.mapping[addr] else NULL_USER
  }

  function SetFlag(users: map<Id, Row>, id: Id, flag: bool): (r: map<Id, Row>)
    ensures r.Keys == users.Keys
  {
    if id in users then users[id := users[id].(loggedIn := flag)] else users
  }

  function SavePosition(users: map<Id, Row>, user: User): (r: map<Id, Row>)
    ensures r.Keys == users.Keys
  {
    if user.id in users then users[user.id := users[user.id].(tileX := user.x, tileZ := user.z)] else users
  }

  predicate CanLogOut(s: Server, addr: Address) {
    addr in s.clients && addr in s.mapping
  }

  function LogoutUser(s: Server, addr: Address, user: User, ok: bool): Server {
    if CanLogOut(s, addr) && ok
    then s.(users := SetFlag(s.users, user.id, false), mapping := s.mapping - {addr})
    else s
  }

  function DisconnectClient(s: Server, addr: Address): Server {
    if addr in s.clients then s.(clients := s.clients - {addr}, mapping := s.mapping - {addr}) else s
  }

  /** Writes through the map, so a missing entry is created. */
  function UpdateUserData(s: Server, addr: Address, x: int, z: int, radius: int): Server {
    s.(mapping := s.mapping[addr := GetUser(s, addr).(x := x, z := z, radius := radius)])
  }

  /** A step of a handler that is not at that step does nothing. */
  function Next(s: State, step: Step): State {
    var server := s.server;
    match step
    case LoginSelect(addr, name, password, ok) =>
      if s.pc != Ready then s else
      var matches := Matches(server.users, name, password);
      if ok && exists id :: id in matches && matches == {id} && !server.users[id].loggedIn then
        var id :| id in matches && matches == {id} && !server.users[id].loggedIn;
        s.(pc := LoginChecked(addr, FromRow(id, server.users[id])))
      else s
    case LoginSetFlag(ok) =>
      if !s.pc.LoginChecked? then s
      else if !ok then s.(pc := Ready)
      else State(server.(users := SetFlag(server.users, s.pc.user.id, true)), LoginFlagged(s.pc.addr, s.pc.user))
    case LoginMap =>
      if !s.pc.LoginFlagged? then s
      else State(server.(mapping := server.mapping[s.pc.addr := s.pc.user]), Ready)
    case LogoutGet(addr) =>
      if s.pc != Ready || GetUser(server, addr) == NULL_USER then s
      else s.(pc := LogoutRead(addr, GetUser(server, addr)))
    case LogoutSave(ok) =>
      if !s.pc.LogoutRead? then s
      else State(if ok then server.(users := SavePosition(server.users, s.pc.user)) else server, LogoutSaved(s.pc.addr, s.pc.user))
    case LogoutFinish(ok) =>
      if !s.pc.LogoutSaved? then s
      else State(LogoutUser(server, s.pc.addr, s.pc.user, ok), Ready)
    case ObserverGet(addr) =>
      if s.pc != Ready || GetUser(server, addr) == NULL_USER then s
      else s.(pc := ObserverRead(addr))
    case ObserverUpdate(x, z, radius) =>
      if !s.pc.ObserverRead? then s
      else State(UpdateUserData(server, s.pc.addr, x, z, radius), Ready)
    case Register(id, name, password) =>
      if s.pc != Ready || id == "" || id in server.users || (exists i :: i in server.users && server.users[i].name == name) then s
      else s.(server := server.(users := server.users[id := Row(name, password, false, true, 120, 98)]))
    case Accept(addr) =>
      s.(server := server.(clients := server.clients + {addr}))
    case Disconnect(addr) =>
      s.(server := DisconnectClient(server, addr))
  }

  function Run(s: State, steps: seq<Step>): State
    decreases |steps|
  {
    if steps == [] then s else Run(Next(s, steps[0]), steps[1..])
  }

  lemma {:induction false} RunAppend(s: State, a: seq<Step>, b: seq<Step>)
    ensures Run(s, a + b) == Run(Run(s, a), b)
    decreases |a|
  {
    if a == [] {
      assert a + b == b;
    } else {
      assert (a + b)[0] == a[0] && (a + b)[1..] == a[1..] + b;
      RunAppend(Next(s, a[0]), a[1..], b);
    }
  }

  // ---- Every mapped user is flagged, and mapped once -----------------------------------

  predicate Mapped(s: Server, id: Id) {
    exists a :: a in s.mapping && s.mapping[a].id == id
  }

  predicate Flagged(s: Server, id: Id) {
    id in s.users && s.users[id].loggedIn
  }

  ghost predicate Consistent(s: Server) {
    && "" !in s.users
    && (forall a :: a in s.mapping && s.mapping[a].id != "" ==> Flagged(s, s.mapping[a].id))
    && (forall a, b :: a in s.mapping && b in s.mapping && a != b && s.mapping[a].id != "" ==>
          s.mapping[a].id != s.mapping[b].id)
  }

  /** What the handler under way can still rely on. */
  ghost predicate PcOk(s: State) {
    match s.pc
    case Ready => true
    case LoginChecked(_, user) => user.id in s.server.users && !Flagged(s.server, user.id)
    case LoginFlagged(_, user) => Flagged(s.server, user.id) && !Mapped(s.server, user.id)
    case LogoutRead(addr, user) => addr in s.server.mapping ==> s.server.mapping[addr].id == user.id
    case LogoutSaved(addr, user) => addr in s.server.mapping ==> s.server.mapping[addr].id == user.id
    case ObserverRead(_) => true
  }

  ghost predicate Inv(s: State) {
    Consistent(s.server) && PcOk(s)
  }

  lemma InvAtStart(users: map<Id, Row>)
    requires "" !in users
    ensures Inv(State(Server({}, map[], users), Ready))
  {
  }

  lemma InvStep(s: State, step: Step)
    requires Inv(s)
    ensures Inv(Next(s, step))
  {
  }

  /** In every run, however the threads interleave, each mapped user with a real id is flagged
      in the database and mapped from one address only.  */
  lemma {:induction false} SessionsStayConsistent(s: State, steps: seq<Step>)
    requires Inv(s)
    ensures Inv(Run(s, steps)) && Consistent(Run(s, steps).server)
    decreases |steps|
  {
    if steps != [] {
      InvStep(s, steps[0]);
      SessionsStayConsistent(Next(s, steps[0]), steps[1..]);
    }
  }

  // ---- Names ---------------------------------------------------------------------------

  ghost predicate UniqueNames(users: map<Id, Row>) {
    forall i, j :: i in users && j in users && users[i].name == users[j].name ==> i == j
  }

  /** In every run no two users get the same name, so credentials select at most one row, and
      the branch for several is never taken.  */
  lemma {:induction false} NamesStayUnique(s: State, steps: seq<Step>)
    requires UniqueNames(s.server.users)
    ensures UniqueNames(Run(s, steps).server.users)
    ensures forall name, password :: |Matches(Run(s, steps).server.users, name, password)| <= 1
    decreases |steps|
  {
    if steps != [] {
      NamesUniqueStep(s, steps[0]);
      NamesStayUnique(Next(s, steps[0]), steps[1..]);
    } else {
      forall name, password
        ensures |Matches(s.server.users, name, password)| <= 1
      {
        AtMostOne(s.server.users, name, password);
      }
    }
  }

  /** A registration with a new id and name, between messages, and then a login: the row is the
      one selected, with no flag, the rights and the position of a new row.  A taken name changes
      nothing.  */
  lemma RegisterThenLogin(s: State, id: Id, name: string, password: string, addr: Address)
    requires s.pc == Ready && id != "" && id !in s.server.users
    ensures var taken := exists i :: i in s.server.users && s.server.users[i].name == name;
            var after := Next(s, Register(id, name, password));
            if taken then after == s
            else Matches(after.server.users, name, password) == {id} && !Flagged(after.server, id)
                 && Next(after, LoginSelect(addr, name, password, true)).pc == LoginChecked(addr, User(id, name, true, 120, 98, 0))
  {
    var after := Next(s, Register(id, name, password));
    if !exists i :: i in s.server.users && s.server.users[i].name == name {
      assert Matches(after.server.users, name, password) == {id};
      assert id in Matches(after.server.users, name, password);
    }
  }

  lemma NamesUniqueStep(s: State, step: Step)
    requires UniqueNames(s.server.users)
    ensures UniqueNames(Next(s, step).server.users)
  {
  }

  lemma AtMostOne(users: map<Id, Row>, name: string, password: string)
    requires UniqueNames(users)
    ensures |Matches(users, name, password)| <= 1
  {
    var matches := Matches(users, name, password);
    if id :| id in matches {
      assert matches == {id};
    }
  }

  // ---- Users who can never come back ---------------------------------------------------

  /** Flagged as logged in, with no session and no login under way. */
  ghost predicate Stranded(s: State, id: Id) {
    && id != "" && Flagged(s.server, id) && !Mapped(s.server, id)
    && !(s.pc.LoginFlagged? && s.pc.user.id == id)
  }

  lemma StrandedStep(s: State, step: Step, id: Id)
    requires Inv(s) && Stranded(s, id)
    ensures Stranded(Next(s, step), id)
  {
  }

  /** Nothing the server does ever frees a stranded user. */
  lemma {:induction false} StrandedForever(s: State, steps: seq<Step>, id: Id)
    requires Inv(s) && Stranded(s, id)
    ensures Stranded(Run(s, steps), id)
    decreases |steps|
  {
    if steps != [] {
      InvStep(s, steps[0]);
      StrandedStep(s, steps[0], id);
      StrandedForever(Next(s, steps[0]), steps[1..], id);
    }
  }

  /** A connected user is stranded by a disconnect: in every run from there on the user stays
      flagged and unmapped, so each login is turned away.  */
  lemma DisconnectLocksOut(s: State, addr: Address, steps: seq<Step>)
    requires Inv(s) && addr in s.server.clients && addr in s.server.mapping && s.server.mapping[addr].id != ""
    ensures var end := Run(Next(s, Disconnect(addr)), steps);
            var id := s.server.mapping[addr].id;
            Stranded(end, id) && TurnedAway(end, id)
  {
    InvStep(s, Disconnect(addr));
    StrandedForever(Next(s, Disconnect(addr)), steps, s.server.mapping[addr].id);
  }

  /** No login of this user gets anywhere, and no address can log the user out. */
  ghost predicate TurnedAway(s: State, id: Id) {
    && (forall addr, name, password, ok ::
          Matches(s.server.users, name, password) == {id} ==> Next(s, LoginSelect(addr, name, password, ok)) == s)
    && forall addr :: CanLogOut(s.server, addr) ==> s.server.mapping[addr].id != id
  }

  /** A disconnect of the address, or a login of somebody else from it. */
  ghost predicate LosesSession(s: State, step: Step, addr: Address) {
    || (step == Disconnect(addr) && addr in s.server.clients)
    || (step == LoginMap && s.pc.LoginFlagged? && s.pc.addr == addr)
  }

  /** Just which steps strand a mapped user with a real id.  A logout does not.  */
  lemma WhatStrands(s: State, step: Step, addr: Address)
    requires Inv(s) && addr in s.server.mapping && s.server.mapping[addr].id != ""
    ensures Stranded(Next(s, step), s.server.mapping[addr].id) <==>
            LosesSession(s, step, addr)
  {
    var id, after := s.server.mapping[addr].id, Next(s, step).server;
    if addr in after.mapping && after.mapping[addr].id == id {
      assert Mapped(after, id);
    } else if step.LogoutFinish? {
      assert !Flagged(after, id);
    } else {
      forall a | a in after.mapping
        ensures after.mapping[a].id != id
      {
        assert Mapped(s.server, id);
      }
    }
  }

  // ---- Users locked out behind an address without a client -----------------------------

  /** Stranded, or with a session, or one about to be, at an address that has no client. */
  ghost predicate LockedOut(s: State, addr: Address, id: Id) {
    || Stranded(s, id)
    || (&& id != "" && addr !in s.server.clients
        && (|| (addr in s.server.mapping && s.server.mapping[addr].id == id)
            || (s.pc.LoginFlagged? && s.pc.addr == addr && s.pc.user.id == id)))
  }

  /** Just one step frees the user, if any: that address is accepted again. */
  lemma WhatFrees(s: State, step: Step, addr: Address, id: Id)
    requires Inv(s) && LockedOut(s, addr, id)
    ensures LockedOut(Next(s, step), addr, id) <==> step != Accept(addr) || Stranded(s, id)
  {
    if Stranded(s, id) {
      StrandedStep(s, step, id);
    } else if step == Accept(addr) {
      assert addr in s.server.mapping && s.server.mapping[addr].id == id ==> Mapped(Next(s, step).server, id);
    } else if addr in s.server.mapping && s.server.mapping[addr].id == id {
      WhatStrands(s, step, addr);
    }
  }

  /** Just which steps lock a user out: a disconnect of the user's address, in a session or late
      in a login; flagging the user in a login whose address is already gone; and a login of
      somebody else from the user's address.  */
  lemma WhatLocksOut(s: State, step: Step, addr: Address, id: Id)
    requires Inv(s) && id != "" && !LockedOut(s, addr, id)
    ensures LockedOut(Next(s, step), addr, id) <==>
            || (step == Disconnect(addr) && addr in s.server.clients && s.pc.LoginFlagged? && s.pc.addr == addr && s.pc.user.id == id)
            || (step == LoginSetFlag(true) && s.pc.LoginChecked? && s.pc.addr == addr && s.pc.user.id == id && addr !in s.server.clients)
            || (exists a :: a in s.server.mapping && s.server.mapping[a].id == id && LosesSession(s, step, a))
  {
    if Mapped(s.server, id) {
      var a :| a in s.server.mapping && s.server.mapping[a].id == id;
      WhatStrands(s, step, a);
      assert forall b :: b in s.server.mapping && s.server.mapping[b].id == id ==> b == a;
    } else {
      assert !Stranded(Next(s, step), id) by {
        if step == LoginMap && s.pc.LoginFlagged? && s.pc.user.id == id {
          assert Next(s, step).server.mapping[s.pc.addr].id == id;
          assert Mapped(Next(s, step).server, id);
        }
      }
    }
  }

  /** Whoever is locked out stays so, and is turned away, in every run that does not accept that
      address again.  */
  lemma {:induction false} LockedOutUntilAccepted(s: State, steps: seq<Step>, addr: Address, id: Id)
    requires Inv(s) && LockedOut(s, addr, id) && Accept(addr) !in steps
    ensures LockedOut(Run(s, steps), addr, id) && TurnedAway(Run(s, steps), id)
    decreases |steps|
  {
    if steps != [] {
      assert steps[0] in steps;
      InvStep(s, steps[0]);
      WhatFrees(s, steps[0], addr, id);
      LockedOutUntilAccepted(Next(s, steps[0]), steps[1..], addr, id);
    }
  }

  /** A disconnect while a login from that address has flagged the user and not mapped yet: the
      login still comes to its end, for nobody.  */
  lemma DisconnectDuringLogin(s: State, steps: seq<Step>)
    requires Inv(s) && s.pc.LoginFlagged? && Accept(s.pc.addr) !in steps
    ensures var end := Run(Next(s, Disconnect(s.pc.addr)), steps);
            LockedOut(end, s.pc.addr, s.pc.user.id) && TurnedAway(end, s.pc.user.id)
  {
    InvStep(s, Disconnect(s.pc.addr));
    LockedOutUntilAccepted(Next(s, Disconnect(s.pc.addr)), steps, s.pc.addr, s.pc.user.id);
  }

  /** Between messages, a flagged user is locked out behind some address exactly when no client
      can log the user out.  */
  lemma LockedOutOrConnected(s: State, id: Id)
    requires Inv(s) && s.pc == Ready && Flagged(s.server, id)
    ensures (exists addr :: LockedOut(s, addr, id)) <==>
            !exists addr :: CanLogOut(s.server, addr) && s.server.mapping[addr].id == id
  {
    if Mapped(s.server, id) {
      var a :| a in s.server.mapping && s.server.mapping[a].id == id;
      if a !in s.server.clients {
        assert LockedOut(s, a, id);
      }
    } else {
      assert LockedOut(s, "", id);
    }
  }

  /** From the start of the server, a client that logs in with good credentials comes to where a
      disconnect locks the user out, before the login ends and after it.  */
  lemma LoginGetsThere(users: map<Id, Row>, addr: Address, name: string, password: string, id: Id)
    requires "" !in users && Matches(users, name, password) == {id} && !users[id].loggedIn
    ensures var start := State(Server({}, map[], users), Ready);
            var flagged := Run(start, [Accept(addr), LoginSelect(addr, name, password, true), LoginSetFlag(true)]);
            && Inv(flagged) && flagged.pc == LoginFlagged(addr, FromRow(id, users[id])) && addr in flagged.server.clients
            && Inv(Next(flagged, LoginMap)) && CanLogOut(Next(flagged, LoginMap).server, addr)
            && Next(flagged, LoginMap).server.mapping[addr].id == id
  {
    var start := State(Server({}, map[], users), Ready);
    var select := LoginSelect(addr, name, password, true);
    var s1 := Next(start, Accept(addr));
    var s2 := Next(s1, select);
    var s3 := Next(s2, LoginSetFlag(true));
    assert id in Matches(users, name, password);
    assert s2.pc == LoginChecked(addr, FromRow(id, users[id]));
    RunThree(start, Accept(addr), select, LoginSetFlag(true));
    InvAtStart(users);
    InvStep(start, Accept(addr));
    InvStep(s1, select);
    InvStep(s2, LoginSetFlag(true));
    InvStep(s3, LoginMap);
  }

  lemma RunThree(s: State, a: Step, b: Step, c: Step)
    ensures Run(s, [a, b, c]) == Next(Next(Next(s, a), b), c)
  {
    hide Next;
    assert [a, b, c][1..] == [b, c] && [b, c][1..] == [c] && [c][1..] == [];
    assert Run(s, [a, b, c]) == Run(Next(s, a), [b, c]);
    assert Run(Next(s, a), [b, c]) == Run(Next(Next(s, a), b), [c]);
    assert Run(Next(Next(s, a), b), [c]) == Run(Next(Next(Next(s, a), b), c), []);
  }

  // ---- Mappings of addresses without a client ------------------------------------------

  /** Just two steps map an address that has no client: the end of a login, and an observer
      update, of a client that is gone by then.  */
  lemma WhatMapsNobody(s: State, step: Step)
    requires s.server.mapping.Keys <= s.server.clients
    ensures Next(s, step).server.mapping.Keys <= Next(s, step).server.clients <==>
            !(|| (step.LoginMap? && s.pc.LoginFlagged? && s.pc.addr !in s.server.clients)
              || (step.ObserverUpdate? && s.pc.ObserverRead? && s.pc.addr !in s.server.clients))
  {
    var after := Next(s, step).server;
    if (step.LoginMap? && s.pc.LoginFlagged?) || (step.ObserverUpdate? && s.pc.ObserverRead?) {
      assert after.mapping.Keys == s.server.mapping.Keys + {s.pc.addr};
    } else {
      assert after.mapping.Keys <= after.clients;
    }
  }

  /** The user such an update makes has no id, and the next client at the address gets it. */
  lemma NextClientGetsIt(s: State, x: int, z: int, radius: int)
    requires s.pc.ObserverRead? && s.pc.addr !in s.server.mapping
    ensures var after := Next(Next(s, ObserverUpdate(x, z, radius)), Accept(s.pc.addr)).server;
            CanLogOut(after, s.pc.addr) && GetUser(after, s.pc.addr) == NULL_USER.(x := x, z := z, radius := radius)
  {
  }
}
