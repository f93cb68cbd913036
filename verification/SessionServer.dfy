/** The server's session state and the message handlers that work on it.

    Each handler runs its own atomic steps; before each further step the other threads take the
    steps given in `others`.  The database is the users table, and each query either succeeds
    or has no effect.  */
module SessionServer {
  import opened Sessions
  import opened Sets

  // The result of the faction query at login: how many rows, and if there is one, whether its
  // name and id are both nonempty.
  datatype FactionQuery = QueryFailed | Rows(count: nat, named: bool)

  datatype Response = NoMessage | LoginResponse(success: bool, errorMessage: string) | LogoutResponse

  class SessionServer {
    var clients: set<Address>
    var clientUserMapping: map<Address, User>
    var users: map<Id, Row>

    ghost function Abs(): Server
      reads this
    {
      Server(clients, clientUserMapping, users)
    }

    constructor (users: map<Id, Row>)
      ensures Abs() == Server({}, map[], users)
    {
      clients, clientUserMapping, this.users := {}, map[], users;
    }

    // ---- Under the lock ----------------------------------------------------------------

    method AcceptClient(addr: Address)
      modifies this
      ensures Abs() == old(Abs()).(clients := old(clients) + {addr})
    {
      if addr !in clients {
        clients := clients + {addr};
      }
    }

    method GetUserOf(addr: Address) returns (user: User)
      ensures user == GetUser(Abs(), addr)
    {
      user := NULL_USER;
      if addr in clientUserMapping {
        user := clientUserMapping[addr];
      }
    }

    method LoginUser(addr: Address, user: User)
      modifies this`clientUserMapping
      ensures clientUserMapping == old(clientUserMapping)[addr := user]
    {
      clientUserMapping := clientUserMapping[addr := user];
    }

    method Logout(addr: Address, user: User, ok: bool) returns (done: bool)
      modifies this
      ensures Abs() == LogoutUser(old(Abs()), addr, user, ok)
      ensures done == (addr in old(clients) && addr in old(clientUserMapping) && ok)
      ensures clients == old(clients) && clientUserMapping == if done then old(clientUserMapping) - {addr} else old(clientUserMapping)
      ensures users.Keys == old(users.Keys)
      ensures forall id :: id in users ==>
                users[id] == if done && id == user.id then old(users)[id].(loggedIn := false) else old(users)[id]
    {
      done := false;
      if addr in clients {
        if addr in clientUserMapping {
          if ok {
            ExecSetFlag(user.id, false);
            clientUserMapping := clientUserMapping - {addr};
            done := true;
          }
        }
      }
    }

    method Disconnected(addr: Address)
      modifies this
      ensures Abs() == DisconnectClient(old(Abs()), addr)
      ensures users == old(users) && clients == old(clients) - {addr}
      ensures clientUserMapping == if addr in old(clients) then old(clientUserMapping) - {addr} else old(clientUserMapping)
    {
      if addr in clients {
        if addr in clientUserMapping {
          clientUserMapping := clientUserMapping - {addr};
        }
        assert clientUserMapping == old(clientUserMapping) - {addr};
        clients := clients - {addr};
      }
    }

    method UpdateObserved(addr: Address, x: int, z: int, radius: int)
      modifies this`clientUserMapping
      ensures Abs() == UpdateUserData(old(Abs()), addr, x, z, radius)
    {
      if addr !in clientUserMapping {
        clientUserMapping := clientUserMapping[addr := NULL_USER];
      }
      clientUserMapping := clientUserMapping[addr := clientUserMapping[addr].(x := x, z := z, radius := radius)];
      assert clientUserMapping == UpdateUserData(old(Abs()), addr, x, z, radius).mapping;
    }

    // ---- Queries that succeed ----------------------------------------------------------

    method ExecSetFlag(id: Id, flag: bool)
      modifies this`users
      ensures users == SetFlag(old(users), id, flag)
    {
      if id in users {
        users := users[id := users[id].(loggedIn := flag)];
      }
    }

    method ExecSavePosition(user: User)
      modifies this`users
      ensures users == SavePosition(old(users), user)
    {
      if user.id in users {
        users := users[user.id := users[user.id].(tileX := user.x, tileZ := user.z)];
      }
    }

    // ---- The other threads -------------------------------------------------------------

    /** Steps of the accepting and the broadcasting threads. */
    method Others(steps: seq<Step>)
      requires forall i :: 0 <= i < |steps| ==> steps[i].Accept? || steps[i].Disconnect?
      modifies this
      ensures forall pc :: Run(State(old(Abs()), pc), steps) == State(Abs(), pc)
      ensures users == old(users) && Within(clientUserMapping, old(clientUserMapping))
    {
      for i := 0 to |steps|
        invariant users == old(users) && Within(clientUserMapping, old(clientUserMapping))
        invariant forall pc :: Run(State(old(Abs()), pc), steps) == Run(State(Abs(), pc), steps[i..])
      {
        assert steps[i..][0] == steps[i] && steps[i..][1..] == steps[i + 1..];
        match steps[i] {
          case Accept(addr) => AcceptClient(addr);
          case Disconnect(addr) => Disconnected(addr);
        }
      }
    }

    // ---- Handlers ----------------------------------------------------------------------

    /** Reads the row of the one user with these credentials. */
    method CheckCredentials(addr: Address, name: string, password: string, selected: bool)
      returns (checked: bool, user: User, response: Response)
      ensures checked <==> Admits(users, name, password) && selected
      ensures checked ==> Matches(users, name, password) == {user.id} && user == FromRow(user.id, users[user.id]) && !Flagged(Abs(), user.id)
      // In terms of the rows: the only one with this name and this password, and it is not flagged.
      ensures checked <==> selected && exists id :: OnlyRow(users, name, password, id) && !users[id].loggedIn
      ensures checked ==> OnlyRow(users, name, password, user.id)
      ensures NoRow(users, name, password) ==> response.LoginResponse?
      ensures Next(State(Abs(), Ready), LoginSelect(addr, name, password, selected)) ==
              State(Abs(), if checked then LoginChecked(addr, user) else Ready)
      ensures response.NoMessage? <==> selected && |Matches(users, name, password)| > 1
      ensures response.LoginResponse? ==> !response.success
      ensures response.LoginResponse? && !checked ==> response.errorMessage == Refusal(users, name, password, selected)
    {
      RowsMatch(users, name, password);
      checked, user := false, NULL_USER;
      response := LoginResponse(false, "Internal server error");
      var matches := Matches(users, name, password);
      if selected {
        if |matches| == 0 {
          response := LoginResponse(false, "Invalid username or password");
        } else if |matches| != 1 {
          response := NoMessage;
        } else {
          var id := Pick(matches);
          OnlyMember(matches, id);
          if users[id].loggedIn {
            response := LoginResponse(false, "Failed to login");
          } else {
            checked, user := true, FromRow(id, users[id]);
          }
        }
      }
    }

    /** Flags and maps the user whose credentials were read, if any. */
    method Enter(addr: Address, checked: bool, user: User, flagged: bool, others: seq<seq<Step>>) returns (entered: bool)
      requires |others| == 2 && OnlyOthers(others[0]) && OnlyOthers(others[1])
      requires checked ==> user.id in users
      modifies this
      ensures entered == (checked && flagged)
      ensures State(Abs(), Ready) ==
              Rest(State(old(Abs()), if checked then LoginChecked(addr, user) else Ready), others[0], LoginSetFlag(flagged), others[1], LoginMap)
      ensures users == if entered then SetFlag(old(users), user.id, true) else old(users)
      ensures entered ==> addr in clientUserMapping && clientUserMapping[addr] == user
      ensures Within(clientUserMapping, if entered then old(clientUserMapping)[addr := user] else old(clientUserMapping))
    {
      ghost var pc := if checked then LoginChecked(addr, user) else Ready;
      Others(others[0]);
      ghost var s1 := State(Abs(), pc);
      entered := checked && flagged;
      if entered {
        ExecSetFlag(user.id, true);
      }
      ghost var s2 := State(Abs(), if entered then LoginFlagged(addr, user) else Ready);
      assert Next(s1, LoginSetFlag(flagged)) == s2;
      Others(others[1]);
      ghost var s3 := State(Abs(), s2.pc);
      if entered {
        LoginUser(addr, user);
      }
      assert Next(s3, LoginMap) == State(Abs(), Ready);
    }

    /** `selected`, `flagged`: whether the two queries succeed.  The one who is let in is flagged
        and mapped, whatever the faction query says; in every other case nobody is.  */
    method UserLogin(addr: Address, name: string, password: string, selected: bool, flagged: bool,
                     faction: FactionQuery, others: seq<seq<Step>>)
      returns (response: Response)
      requires |others| == 2 && OnlyOthers(others[0]) && OnlyOthers(others[1])
      modifies this
      ensures State(Abs(), Ready) ==
              Run(State(old(Abs()), Ready), Script(LoginSelect(addr, name, password, selected), others[0], LoginSetFlag(flagged), others[1], LoginMap))
      ensures response.NoMessage? <==> selected && |Matches(old(users), name, password)| > 1
      ensures response == LoginResponse(true, "") <==> Admits(old(users), name, password) && selected && flagged && FactionOk(faction)
      ensures Admits(old(users), name, password) && selected && flagged ==>
                forall id :: id in Matches(old(users), name, password) ==>
                  && users == SetFlag(old(users), id, true)
                  && addr in clientUserMapping && clientUserMapping[addr] == FromRow(id, old(users)[id])
                  && Within(clientUserMapping, old(clientUserMapping)[addr := clientUserMapping[addr]])
      ensures !(Admits(old(users), name, password) && selected && flagged) ==>
                users == old(users) && Within(clientUserMapping, old(clientUserMapping))
      // In terms of the rows, with `entered` for the user who is let in.
      ensures response == LoginResponse(true, "") ==>
                exists id :: OnlyRow(old(users), name, password, id) && !old(users)[id].loggedIn && Entered(old(Abs()), Abs(), addr, id)
      ensures selected && flagged ==>
                forall id :: OnlyRow(old(users), name, password, id) && !old(users)[id].loggedIn ==> Entered(old(Abs()), Abs(), addr, id)
      ensures selected && flagged && FactionOk(faction) ==>
                forall id :: OnlyRow(old(users), name, password, id) && !old(users)[id].loggedIn ==> response == LoginResponse(true, "")
      ensures NoRow(old(users), name, password) ==>
                response.LoginResponse? && !response.success && users == old(users) && Within(clientUserMapping, old(clientUserMapping))
      ensures Admits(old(users), name, password) && selected && !(flagged && FactionOk(faction)) ==>
                response == LoginResponse(false, if flagged then "Internal server error" else "Database error: Failed to assign user login status")
      ensures !(Admits(old(users), name, password) && selected) && response.LoginResponse? ==>
                response == LoginResponse(false, Refusal(old(users), name, password, selected))
      // The faction query: it fails, or gives several rows, or one without a name or an id.
      ensures faction.QueryFailed? || (faction.Rows? && faction.count > 1) || (faction.Rows? && faction.count == 1 && !faction.named) ==>
                response != LoginResponse(true, "")
      ensures selected && flagged && faction.Rows? && (faction.count == 0 || (faction.count == 1 && faction.named)) ==>
                forall id :: OnlyRow(old(users), name, password, id) && !old(users)[id].loggedIn ==> response == LoginResponse(true, "")
      // A failure is answered but somebody is flagged from now on.
      ensures response != LoginResponse(true, "") && (exists id :: Flagged(Abs(), id) && !Flagged(old(Abs()), id)) <==>
              Admits(old(users), name, password) && selected && flagged && !FactionOk(faction)
    {
      hide Refusal;
      ghost var s0 := State(Abs(), Ready);
      var checked, user;
      checked, user, response := CheckCredentials(addr, name, password, selected);
      var entered := Enter(addr, checked, user, flagged, others);
      if entered {
        assert Flagged(Abs(), user.id);
        response := if FactionOk(faction) then LoginResponse(true, "") else LoginResponse(false, "Internal server error");
      } else if checked {
        response := LoginResponse(false, "Database error: Failed to assign user login status");
      }
      ScriptRuns(s0, LoginSelect(addr, name, password, selected), others[0], LoginSetFlag(flagged), others[1], LoginMap);
    }

    /** `saved`, `loggedOut`: whether the two queries succeed. */
    method UserLogout(addr: Address, saved: bool, loggedOut: bool, others: seq<seq<Step>>) returns (response: Response)
      requires |others| == 2 && OnlyOthers(others[0]) && OnlyOthers(others[1])
      modifies this
      ensures State(Abs(), Ready) ==
              Run(State(old(Abs()), Ready), Script(LogoutGet(addr), others[0], LogoutSave(saved), others[1], LogoutFinish(loggedOut)))
      ensures response.LogoutResponse? ==> loggedOut && addr !in clientUserMapping && addr in old(clientUserMapping)
      // The rows: the flag and the position of the mapped user, and nothing of any other.
      ensures users.Keys == old(users.Keys)
      ensures var u := if addr in old(clientUserMapping) then old(clientUserMapping)[addr] else NULL_USER;
              forall id :: id in users ==>
                users[id] == if id != u.id || u == NULL_USER then old(users)[id]
                             else old(users)[id].(tileX := if saved then u.x else old(users)[id].tileX,
                                                  tileZ := if saved then u.z else old(users)[id].tileZ,
                                                  loggedIn := if response.LogoutResponse? then false else old(users)[id].loggedIn)
      // An answered logout clears the flag of the user, and of nobody else; any other clears none.
      ensures forall id :: Flagged(Abs(), id) <==>
                Flagged(old(Abs()), id) && !(response.LogoutResponse? && id == old(clientUserMapping)[addr].id)
    {
      ghost var s0 := State(Abs(), Ready);
      response := NoMessage;
      var clientUser := GetUserOf(addr);
      var found := clientUser != NULL_USER;
      ghost var pc := if found then LogoutRead(addr, clientUser) else Ready;
      assert Next(s0, LogoutGet(addr)) == State(Abs(), pc);
      Others(others[0]);
      ghost var s1 := State(Abs(), pc);
      if found && saved {
        ExecSavePosition(clientUser);
      }
      ghost var s2 := State(Abs(), if found then LogoutSaved(addr, clientUser) else Ready);
      assert Next(s1, LogoutSave(saved)) == s2;
      Others(others[1]);
      ghost var s3 := State(Abs(), s2.pc);
      if found {
        var done := Logout(addr, clientUser, loggedOut);
        if done {
          response := LogoutResponse;
        }
      }
      assert Next(s3, LogoutFinish(loggedOut)) == State(Abs(), Ready);
      ScriptRuns(s0, LogoutGet(addr), others[0], LogoutSave(saved), others[1], LogoutFinish(loggedOut));
    }

    method UpdateObserver(addr: Address, x: int, z: int, radius: int, others: seq<Step>)
      requires OnlyOthers(others)
      modifies this
      ensures State(Abs(), Ready) == Run(State(old(Abs()), Ready), [ObserverGet(addr)] + others + [ObserverUpdate(x, z, radius)])
      // If the address had a user, it has one now, at the new place; the id is lost with the client.
      ensures users == old(users)
      ensures var found := addr in old(clientUserMapping) && old(clientUserMapping)[addr] != NULL_USER;
              && (found ==> addr in clientUserMapping)
              && (found ==>
                    || clientUserMapping[addr] == old(clientUserMapping)[addr].(x := x, z := z, radius := radius)
                    || clientUserMapping[addr] == User("", "", false, x, z, radius))
              && forall a :: a in clientUserMapping && !(found && a == addr) ==> a in old(clientUserMapping) && clientUserMapping[a] == old(clientUserMapping)[a]
    {
      ghost var s0 := State(Abs(), Ready);
      var user := GetUserOf(addr);
      Others(others);
      if user != NULL_USER {
        UpdateObserved(addr, x, z, radius);
      }
      RunAppend(s0, [ObserverGet(addr)] + others, [ObserverUpdate(x, z, radius)]);
      RunAppend(s0, [ObserverGet(addr)], others);
      RunOne(s0, ObserverGet(addr));
      RunOne(Run(s0, [ObserverGet(addr)] + others), ObserverUpdate(x, z, radius));
    }
  }

  ghost predicate OnlyOthers(steps: seq<Step>) {
    forall i :: 0 <= i < |steps| ==> steps[i].Accept? || steps[i].Disconnect?
  }

  /** No entry of `m` is new or changed. */
  ghost predicate Within(m: map<Address, User>, whole: map<Address, User>) {
    forall a :: a in m ==> a in whole && m[a] == whole[a]
  }

  /** Row `id` has this name and this password, and no other row has both. */
  ghost predicate OnlyRow(users: map<Id, Row>, name: string, password: string, id: Id) {
    && id in users && users[id].name == name && users[id].password == password
    && forall other :: other in users && users[other].name == name && users[other].password == password ==> other == id
  }

  ghost predicate NoRow(users: map<Id, Row>, name: string, password: string) {
    forall id :: id in users ==> !(users[id].name == name && users[id].password == password)
  }

  lemma RowsMatch(users: map<Id, Row>, name: string, password: string)
    ensures (exists id :: OnlyRow(users, name, password, id)) <==> |Matches(users, name, password)| == 1
    ensures forall id :: id in Matches(users, name, password) && |Matches(users, name, password)| == 1 ==> OnlyRow(users, name, password, id)
    ensures NoRow(users, name, password) <==> |Matches(users, name, password)| == 0
  {
    var matches := Matches(users, name, password);
    if id :| OnlyRow(users, name, password, id) {
      assert matches == {id};
    }
    if |matches| == 0 {
      forall id | id in users && users[id].name == name && users[id].password == password
        ensures id in matches
      {
      }
    }
    if |matches| == 1 {
      var id := Member(matches);
      OnlyMember(matches, id);
      assert forall other :: other in users && users[other].name == name && users[other].password == password ==> other in matches;
      assert OnlyRow(users, name, password, id);
    }
  }

  /** What a login says that is refused, the rows being `users` when it begins. */
  ghost function Refusal(users: map<Id, Row>, name: string, password: string, selected: bool): string {
    if !selected then "Internal server error"
    else if NoRow(users, name, password) then "Invalid username or password"
    else "Failed to login"
  }

  lemma OneOnly(users: map<Id, Row>, name: string, password: string, a: Id, b: Id)
    requires OnlyRow(users, name, password, a) && OnlyRow(users, name, password, b)
    ensures a == b
  {
  }

  /** The flag of `id` is set and no other row differs; the address is mapped to the user as its
      row has it, and no other address is newly mapped.  */
  ghost predicate Entered(before: Server, after: Server, addr: Address, id: Id) {
    && id in before.users
    && after.users == before.users[id := before.users[id].(loggedIn := true)]
    && addr in after.mapping
    && after.mapping[addr] == User(id, before.users[id].name, before.users[id].isAdmin, before.users[id].tileX, before.users[id].tileZ, 0)
    && forall a :: a in after.mapping && a != addr ==> a in before.mapping && after.mapping[a] == before.mapping[a]
  }

  predicate FactionOk(faction: FactionQuery) {
    faction.Rows? && (faction.count == 0 || (faction.count == 1 && faction.named))
  }

  /** The credentials are those of exactly one user, who is not flagged. */
  predicate Admits(users: map<Id, Row>, name: string, password: string) {
    var matches := Matches(users, name, password);
    |matches| == 1 && forall id :: id in matches ==> !users[id].loggedIn
  }

  /** A handler of three steps with the other threads' steps in between. */
  function Script(a: Step, x: seq<Step>, b: Step, y: seq<Step>, c: Step): seq<Step> {
    [a] + x + [b] + y + [c]
  }

  /** The same after its first step. */
  function Rest(s: State, x: seq<Step>, b: Step, y: seq<Step>, c: Step): State {
    Next(Run(Next(Run(s, x), b), y), c)
  }

  lemma RunOne(s: State, step: Step)
    ensures Run(s, [step]) == Next(s, step)
  {
  }

  lemma ScriptRuns(s: State, a: Step, x: seq<Step>, b: Step, y: seq<Step>, c: Step)
    ensures Run(s, Script(a, x, b, y, c)) == Rest(Next(s, a), x, b, y, c)
  {
    RunOne(s, a);
    RunAppend(s, [a], x);
    RunOne(Run(s, [a] + x), b);
    RunAppend(s, [a] + x, [b]);
    RunAppend(s, [a] + x + [b], y);
    RunOne(Run(s, [a] + x + [b] + y), c);
    RunAppend(s, [a] + x + [b] + y, [c]);
  }
}
