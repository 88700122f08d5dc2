/**
 * The player list of a session as plain values: the part of each player the
 * connection handlers read and write, the linear first-match lookup they all
 * use, the binding invariants, and the pure transitions behind
 * `getPlayerByName`, `startSongfest`, `updateSocket` and `disconnect`.
 */
module Registry {
  import opened Wrappers

  type Name = string
  type SocketId = string

  /** A player as the handlers see it: its name and its connection binding. */
  datatype PlayerState = PlayerState(name: Name, socketId: Option<SocketId>, taken: bool)

  /** A newly created player: nobody holds it yet. */
  function Unbound(name: Name): PlayerState {
    PlayerState(name, None, false)
  }

  function Released(p: PlayerState): PlayerState {
    p.(socketId := None, taken := false)
  }

  function Claimed(p: PlayerState, sid: SocketId): PlayerState {
    p.(socketId := Some(sid), taken := true)
  }

  /** What a lookup compares: the player's name (a null name matches nobody) or its bound socket id. */
  datatype Key = ByName(name: Option<Name>) | BySocket(socketId: SocketId)

  predicate Matches(p: PlayerState, key: Key) {
    match key
    case ByName(n) => n == Some(p.name)
    case BySocket(sid) => p.socketId == Some(sid)
  }

  /** The index of the first player matching `key`, as an array `find` returns it. */
  function First(ps: seq<PlayerState>, key: Key): (r: Option<nat>)
    ensures r.Some? ==> r.value < |ps| && Matches(ps[r.value], key)
    ensures r.Some? ==> forall k :: 0 <= k < r.value ==> !Matches(ps[k], key)
    ensures r.None? ==> forall k :: 0 <= k < |ps| ==> !Matches(ps[k], key)
  {
    if ps == [] then None
    else if Matches(ps[0], key) then Some(0)
    else match First(ps[1..], key)
      case None => None
      case Some(k) => Some(k + 1)
  }

  /** `taken` mirrors `socketId != null` for every player. */
  predicate TakenMirrorsSocket(ps: seq<PlayerState>) {
    forall i :: 0 <= i < |ps| ==> ps[i].taken == ps[i].socketId.Some?
  }

  /** No socket id is bound to two players. */
  predicate OneClaimPerSocket(ps: seq<PlayerState>) {
    forall i, j :: 0 <= i < |ps| && 0 <= j < |ps| && i != j && ps[i].socketId.Some? ==>
      ps[i].socketId != ps[j].socketId
  }

  predicate BindingsOk(ps: seq<PlayerState>) {
    TakenMirrorsSocket(ps) && OneClaimPerSocket(ps)
  }

  /** Lookups into a list with one more player at the end. */
  lemma {:induction false} FirstOfAppend(ps: seq<PlayerState>, x: PlayerState, key: Key)
    ensures First(ps + [x], key) ==
      if First(ps, key).Some? then First(ps, key)
      else if Matches(x, key) then Some(|ps|)
      else None
  {
    var r, q := First(ps + [x], key), First(ps, key);
    if q.Some? {
      assert (ps + [x])[q.value] == ps[q.value];
    } else if Matches(x, key) {
      assert (ps + [x])[|ps|] == x;
    } else {
      assert forall k :: 0 <= k < |ps + [x]| ==> (ps + [x])[k] == if k < |ps| then ps[k] else x;
    }
  }

  /** Lookups by name only see names, so rebinding players never changes them. */
  lemma {:induction false} FirstByNameOnlySeesNames(ps: seq<PlayerState>, qs: seq<PlayerState>, name: Option<Name>)
    requires |ps| == |qs|
    requires forall k :: 0 <= k < |ps| ==> ps[k].name == qs[k].name
    ensures First(ps, ByName(name)) == First(qs, ByName(name))
  {
    var r, q := First(ps, ByName(name)), First(qs, ByName(name));
    if r.Some? {
      assert Matches(qs[r.value], ByName(name));
    }
    if q.Some? {
      assert Matches(ps[q.value], ByName(name));
    }
  }

  /** Adding a player nobody holds keeps the binding invariants. */
  lemma AppendUnboundKeepsBindings(ps: seq<PlayerState>, name: Name)
    requires BindingsOk(ps)
    ensures BindingsOk(ps + [Unbound(name)])
  {
  }

  // ---- startSongfest ----

  /** The player list after `startSongfest`: the host is appended, with no check for its name. */
  function AddHost(ps: seq<PlayerState>, host: Name): (r: seq<PlayerState>)
    ensures |r| == |ps| + 1 && r[..|ps|] == ps && r[|ps|] == Unbound(host)
  {
    ps + [Unbound(host)]
  }

  /**
   * When a player already carries the host's name, `startSongfest` adds a
   * second player of that name, and lookups by that name keep returning the
   * earlier one: the new host object cannot be reached by name.
   */
  lemma {:induction false} HostNameShadowed(ps: seq<PlayerState>, host: Name, i: nat)
    requires First(ps, ByName(Some(host))) == Some(i)
    ensures var r := AddHost(ps, host);
      r[i].name == r[|ps|].name == host && i != |ps| &&
      First(r, ByName(Some(host))) == Some(i)
  {
    FirstOfAppend(ps, Unbound(host), ByName(Some(host)));
  }

  // ---- getPlayerByName ----

  /** JavaScript truthiness of the name argument: neither null nor empty. */
  predicate Truthy(name: Option<Name>) {
    name.Some? && name.value != ""
  }

  /** The player list after `getPlayerByName`: a new player only for an unknown, truthy name. */
  function Join(ps: seq<PlayerState>, name: Option<Name>): (r: seq<PlayerState>)
    ensures |r| == |ps| || |r| == |ps| + 1
    ensures r[..|ps|] == ps
  {
    if First(ps, ByName(name)).None? && Truthy(name) then ps + [Unbound(name.value)] else ps
  }

  /**
   * After `getPlayerByName` with a truthy name, that name is found: at its old
   * place if it was already there, else at the new last place; with a known
   * name or a falsy one, nothing is added.
   */
  lemma {:induction false} JoinFinds(ps: seq<PlayerState>, name: Option<Name>)
    ensures First(ps, ByName(name)).Some? ==> Join(ps, name) == ps
    ensures !Truthy(name) ==> Join(ps, name) == ps
    ensures Truthy(name) ==>
      First(Join(ps, name), ByName(name)) ==
        if First(ps, ByName(name)).Some? then First(ps, ByName(name)) else Some(|ps|)
  {
    if Truthy(name) && First(ps, ByName(name)).None? {
      FirstOfAppend(ps, Unbound(name.value), ByName(name));
    }
  }

  /** Asking for the same name twice creates at most one player. */
  lemma {:induction false} JoinIdempotent(ps: seq<PlayerState>, name: Option<Name>)
    ensures Join(Join(ps, name), name) == Join(ps, name)
  {
    JoinFinds(ps, name);
  }

  lemma JoinKeepsBindings(ps: seq<PlayerState>, name: Option<Name>)
    requires BindingsOk(ps)
    ensures BindingsOk(Join(ps, name))
  {
    if Join(ps, name) != ps {
      AppendUnboundKeepsBindings(ps, name.value);
    }
  }

  // ---- updateSocket ----

  /**
   * The player list after `updateSocket(name)` from socket `sid`: an unknown
   * name changes nothing; a player already held by `sid` is let go; otherwise
   * the first player held by `sid` (if any) is let go and the named player is
   * bound to `sid`.
   */
  function ToggleOwnership(ps: seq<PlayerState>, name: Name, sid: SocketId): (r: seq<PlayerState>)
    ensures |r| == |ps|
    ensures forall k :: 0 <= k < |ps| ==> r[k].name == ps[k].name
  {
    match First(ps, ByName(Some(name)))
    case None => ps
    case Some(t) =>
      if ps[t].socketId == Some(sid) then ps[t := Released(ps[t])]
      else
        var freed := match First(ps, BySocket(sid))
          case None => ps
          case Some(p) => ps[p := Released(ps[p])];
        freed[t := Claimed(ps[t], sid)]
  }

  /** The toggle-off branch of `updateSocket`: the caller already holds the named player. */
  lemma ToggleOff(ps: seq<PlayerState>, name: Name, sid: SocketId, t: nat)
    requires First(ps, ByName(Some(name))) == Some(t) && Matches(ps[t], BySocket(sid))
    ensures ToggleOwnership(ps, name, sid) == ps[t := Released(ps[t])]
  {
  }

  /** The toggle-on branch of `updateSocket`: the caller's previous player, if any, is freed first. */
  lemma ToggleOn(ps: seq<PlayerState>, name: Name, sid: SocketId, t: nat)
    requires First(ps, ByName(Some(name))) == Some(t) && !Matches(ps[t], BySocket(sid))
    ensures ToggleOwnership(ps, name, sid) ==
      match First(ps, BySocket(sid))
      case None => ps[t := Claimed(ps[t], sid)]
      case Some(p) => ps[p := Released(ps[p])][t := Claimed(ps[t], sid)]
  {
  }

  /**
   * What `updateSocket` does to a session that keeps the binding invariants:
   * the named player flips between held by the caller and free, every other
   * player the caller held is let go, and afterwards the caller holds the
   * named player or nobody.
   */
  lemma {:induction false} ToggleOwnershipEffect(ps: seq<PlayerState>, name: Name, sid: SocketId)
    requires BindingsOk(ps)
    ensures First(ps, ByName(Some(name))).None? ==> ToggleOwnership(ps, name, sid) == ps
    ensures First(ps, ByName(Some(name))).Some? ==>
      var t, r := First(ps, ByName(Some(name))).value, ToggleOwnership(ps, name, sid);
      r[t] == (if Matches(ps[t], BySocket(sid)) then Released(ps[t]) else Claimed(ps[t], sid)) &&
      (forall k :: 0 <= k < |ps| && k != t ==>
        r[k] == if Matches(ps[k], BySocket(sid)) then Released(ps[k]) else ps[k]) &&
      (forall k :: 0 <= k < |ps| ==>
        (Matches(r[k], BySocket(sid)) <==> k == t && !Matches(ps[t], BySocket(sid))))
  {
    var n := First(ps, ByName(Some(name)));
    if n.Some? {
      var t, r := n.value, ToggleOwnership(ps, name, sid);
      if !Matches(ps[t], BySocket(sid)) {
        match First(ps, BySocket(sid))
        case None =>
        case Some(p) =>
          assert forall k :: 0 <= k < |ps| && k != p ==> !Matches(ps[k], BySocket(sid));
      } else {
        assert forall k :: 0 <= k < |ps| && k != t ==> !Matches(ps[k], BySocket(sid));
      }
    }
  }

  /** `updateSocket` keeps "one player per socket id" and "`taken` mirrors the binding". */
  lemma {:induction false} ToggleOwnershipKeepsBindings(ps: seq<PlayerState>, name: Name, sid: SocketId)
    requires BindingsOk(ps)
    ensures BindingsOk(ToggleOwnership(ps, name, sid))
  {
    ToggleOwnershipEffect(ps, name, sid);
    var r := ToggleOwnership(ps, name, sid);
    if First(ps, ByName(Some(name))).Some? {
      forall i, j | 0 <= i < |r| && 0 <= j < |r| && i != j && r[i].socketId.Some?
        ensures r[i].socketId != r[j].socketId
      {
        if r[i].socketId == Some(sid) {
          assert !Matches(r[j], BySocket(sid));
        } else {
          assert r[i].socketId == ps[i].socketId;
        }
      }
    }
  }

  /**
   * The toggle law: two `updateSocket(name)` calls in a row from the same
   * socket bring the named player back to whether that socket held it, and a
   * player the socket did not hold ends up free. Any other player the socket
   * held stays released; every other player is as it was.
   */
  lemma {:induction false} ToggleTwice(ps: seq<PlayerState>, name: Name, sid: SocketId)
    requires BindingsOk(ps)
    requires First(ps, ByName(Some(name))).Some?
    ensures var t, r2 := First(ps, ByName(Some(name))).value,
                         ToggleOwnership(ToggleOwnership(ps, name, sid), name, sid);
      (Matches(r2[t], BySocket(sid)) <==> Matches(ps[t], BySocket(sid))) &&
      (!Matches(ps[t], BySocket(sid)) ==> r2[t] == Released(ps[t])) &&
      (forall k :: 0 <= k < |ps| && k != t ==>
        r2[k] == if Matches(ps[k], BySocket(sid)) then Released(ps[k]) else ps[k])
  {
    var t := First(ps, ByName(Some(name))).value;
    var r1 := ToggleOwnership(ps, name, sid);
    ToggleOwnershipEffect(ps, name, sid);
    ToggleOwnershipKeepsBindings(ps, name, sid);
    FirstByNameOnlySeesNames(ps, r1, Some(name));
    ToggleOwnershipEffect(r1, name, sid);
  }

  // ---- disconnect ----

  /** The player list after `disconnect` of socket `sid`: during a game, the first player it held is let go. */
  function DisconnectState(ps: seq<PlayerState>, gameInProgress: bool, sid: SocketId): (r: seq<PlayerState>)
    ensures |r| == |ps|
    ensures forall k :: 0 <= k < |ps| ==> r[k].name == ps[k].name
  {
    if !gameInProgress then ps
    else match First(ps, BySocket(sid))
      case None => ps
      case Some(p) => ps[p := Released(ps[p])]
  }

  /**
   * Outside a game `disconnect` changes nothing; during one, in a session that
   * keeps the binding invariants, the player held by the socket is let go,
   * everybody else is untouched, and the invariants still hold.
   */
  lemma {:induction false} DisconnectEffect(ps: seq<PlayerState>, gameInProgress: bool, sid: SocketId)
    requires BindingsOk(ps)
    ensures !gameInProgress ==> DisconnectState(ps, gameInProgress, sid) == ps
    ensures var r := DisconnectState(ps, gameInProgress, sid);
      BindingsOk(r) &&
      (gameInProgress ==> forall k :: 0 <= k < |ps| ==>
        r[k] == if Matches(ps[k], BySocket(sid)) then Released(ps[k]) else ps[k])
  {
    var r := DisconnectState(ps, gameInProgress, sid);
    if gameInProgress {
      match First(ps, BySocket(sid))
      case None =>
      case Some(p) =>
        assert forall k :: 0 <= k < |ps| && k != p ==> !Matches(ps[k], BySocket(sid));
    }
  }
}
