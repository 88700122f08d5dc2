/**
 * The session state the socket event handlers mutate, and the handlers
 * themselves as methods. Each handler takes the caller's socket id and
 * returns what it would emit to the caller and whether it would broadcast
 * the state; the emits themselves are not modelled.
 */
module Handler {
  import opened Wrappers
  import opened Registry
  import opened LockIns

  /** A participant. Handlers only rebind it; its name never changes. */
  class Player {
    const name: Name
    var socketId: Option<SocketId>
    var taken: bool

    /** A new player is held by no connection. */
    constructor (name: Name)
      ensures this.name == name && socketId == None && !taken
    {
      this.name := name;
      socketId := None;
      taken := false;
    }

    function State(): PlayerState
      reads this
    {
      PlayerState(name, socketId, taken)
    }
  }

  /** The states of a list of players, in order. */
  ghost function StatesOf(ps: seq<Player>): (r: seq<PlayerState>)
    reads ps
    ensures |r| == |ps| && forall i :: 0 <= i < |ps| ==> r[i] == ps[i].State()
  {
    if ps == [] then [] else [ps[0].State()] + StatesOf(ps[1..])
  }

  /** Whether the caller's player submitted the current song, as `isThisMySong` answers it. */
  datatype MySongReply =
    | NoReply                  // no player is bound to the caller's socket: nothing is emitted
    | NoCurrentSubmitter       // no current song submitter: reading its name throws
    | IsYourSong(mine: bool)   // the `isThisYourSong` answer

  /** The session: its players, lock-ins, flags and settings. */
  class Songfest {
    var players: seq<Player>
    var playersLockedIn: seq<Name>
    var songfestOpen: bool
    var gameInProgress: bool
    var theme: string
    var songsPerPerson: int
    var host: Player?
    var currentSongSubmitter: Player?
    /** Whether `currentSong` is set; the song itself is not part of this model. */
    var hasCurrentSong: bool
    /** How often the phase has been advanced. */
    ghost var phaseAdvances: nat

    ghost function View(): seq<PlayerState>
      reads this`players, players
    {
      StatesOf(players)
    }

    /** Every player is a distinct object: each was created by its own `new Player`. */
    ghost predicate Distinct()
      reads this`players
    {
      forall i, j :: 0 <= i < j < |players| ==> players[i] != players[j]
    }

    /** The players are distinct objects and the binding invariants hold. */
    ghost predicate Valid()
      reads this`players, players
    {
      Distinct() && BindingsOk(View())
    }

    /** A session in the lobby: no players, nothing locked in, not open, no game. */
    constructor ()
      ensures Valid()
      ensures players == [] && playersLockedIn == []
      ensures !songfestOpen && !gameInProgress && host == null && currentSongSubmitter == null
      ensures !hasCurrentSong && phaseAdvances == 0
    {
      players := [];
      playersLockedIn := [];
      songfestOpen := false;
      gameInProgress := false;
      theme := "";
      songsPerPerson := 0;
      host := null;
      currentSongSubmitter := null;
      hasCurrentSong := false;
      phaseAdvances := 0;
    }

    /** The linear `find` over `players`: the first index whose player matches `key`. */
    method Find(key: Key) returns (i: Option<nat>)
      ensures i == First(View(), key)
    {
      var k := 0;
      while k < |players|
        invariant k <= |players|
        invariant forall j :: 0 <= j < k ==> !Matches(View()[j], key)
      {
        if Matches(players[k].State(), key) {
          return Some(k);
        }
        k := k + 1;
      }
      return None;
    }

    /** `players.push(p)` for a player that is new to the session and held by nobody. */
    method Push(p: Player)
      requires Valid() && p !in players && p.State() == Unbound(p.name)
      modifies this`players
      ensures Valid()
      ensures players == old(players) + [p]
      ensures View() == old(View()) + [Unbound(p.name)]
    {
      ghost var before := View();
      players := players + [p];
      forall i, j | 0 <= i < j < |players| ensures players[i] != players[j] {
        if j == |players| - 1 {
          assert players[i] in old(players);
        } else {
          assert players[i] == old(players)[i] && players[j] == old(players)[j];
        }
      }
      assert View() == before + [Unbound(p.name)] by {
        assert StatesOf(old(players)) == before;
      }
      AppendUnboundKeepsBindings(before, p.name);
    }

    /**
     * `startSongfest`: apply the settings, open the songfest and append a new
     * host player, whether or not its name is already taken. The state is
     * always broadcast.
     */
    method StartSongfest(songsPerPerson: int, theme: string, hostName: Name)
      requires Valid()
      modifies this`songsPerPerson, this`theme, this`host, this`songfestOpen, this`players
      ensures Valid()
      ensures this.songsPerPerson == songsPerPerson && this.theme == theme && songfestOpen
      ensures host != null && fresh(host) && players == old(players) + [host]
      ensures View() == AddHost(old(View()), hostName)
    {
      this.songsPerPerson := songsPerPerson;
      this.theme := theme;
      songfestOpen := true;
      var h := new Player(hostName);
      host := h;
      assert Valid() by {
        assert Distinct() && View() == old(View());
      }
      Push(h);
    }

    /**
     * `getPlayerByName`: hand back the first player of that name; for an
     * unknown name that is neither null nor empty, create the player at the
     * end and broadcast; for any other name, hand back nothing.
     */
    method GetPlayerByName(name: Option<Name>) returns (myPlayer: Player?, broadcast: bool)
      requires Valid()
      modifies this`players
      ensures Valid()
      ensures View() == Join(old(View()), name)
      ensures match First(old(View()), ByName(name))
        case Some(i) => players == old(players) && myPlayer == players[i] && !broadcast
        case None =>
          if Truthy(name) then
            myPlayer != null && fresh(myPlayer) && players == old(players) + [myPlayer] &&
            myPlayer.State() == Unbound(name.value) && broadcast
          else
            players == old(players) && myPlayer == null && !broadcast
    {
      ghost var before := View();
      var i := Find(ByName(name));
      assert View() == before;
      broadcast := false;
      if i.Some? {
        myPlayer := players[i.value];
      } else if Truthy(name) {
        var p := new Player(name.value);
        assert View() == before && p !in players;
        Push(p);
        myPlayer := p;
        broadcast := true;
      } else {
        myPlayer := null;
      }
    }

    /** Frees player `p`, the `i`-th: the `socketId = null`, `taken = false` pair the handlers write. */
    method Release(p: Player, ghost i: nat)
      requires i < |players| && players[i] == p && Distinct()
      modifies p`socketId, p`taken
      ensures View() == old(View())[i := Released(old(View())[i])]
    {
      p.socketId := None;
      p.taken := false;
      forall k | 0 <= k < |players| && k != i
        ensures View()[k] == old(View())[k]
      {
        assert players[k] != p;
      }
    }

    /** Binds player `p`, the `i`-th, to socket `sid`: the `socketId = socket.id`, `taken = true` pair. */
    method Claim(p: Player, ghost i: nat, sid: SocketId)
      requires i < |players| && players[i] == p && Distinct()
      modifies p`socketId, p`taken
      ensures View() == old(View())[i := Claimed(old(View())[i], sid)]
    {
      p.socketId := Some(sid);
      p.taken := true;
      forall k | 0 <= k < |players| && k != i
        ensures View()[k] == old(View())[k]
      {
        assert players[k] != p;
      }
    }

    /**
     * `updateSocket`: toggle the caller's hold on the named player. Returns
     * whether the name was found (then the caller is sent `myPlayer` and the
     * state is broadcast) and the `myPlayer` sent: null when the caller let
     * the player go, the player when the caller took it.
     */
    method UpdateSocket(sid: SocketId, name: Name) returns (found: bool, myPlayer: Player?)
      requires Valid()
      modifies players
      ensures Valid()
      ensures View() == ToggleOwnership(old(View()), name, sid)
      ensures found <==> First(old(View()), ByName(Some(name))).Some?
      ensures found ==> (myPlayer ==
        if Matches(old(View())[First(old(View()), ByName(Some(name))).value], BySocket(sid)) then null
        else players[First(old(View()), ByName(Some(name))).value])
      ensures !found ==> myPlayer == null
    {
      ghost var before := View();
      var t := Find(ByName(Some(name)));
      assert View() == before;
      if t.None? {
        return false, null;
      }
      found := true;
      var player := players[t.value];
      assert before[t.value] == player.State();
      if player.socketId == Some(sid) {
        ToggleOff(before, name, sid, t.value);
        Release(player, t.value);
        myPlayer := null;
      } else {
        ToggleOn(before, name, sid, t.value);
        var previous := Find(BySocket(sid));
        assert View() == before;
        if previous.Some? {
          Release(players[previous.value], previous.value);
        }
        Claim(player, t.value, sid);
        myPlayer := player;
      }
      assert Valid() by {
        assert Distinct() && View() == ToggleOwnership(before, name, sid);
        ToggleOwnershipKeepsBindings(before, name, sid);
      }
    }

    /** `disconnect`: during a game, let go of the first player the socket held. */
    method Disconnect(sid: SocketId)
      requires Valid()
      modifies players
      ensures Valid()
      ensures View() == DisconnectState(old(View()), gameInProgress, sid)
    {
      ghost var before := View();
      DisconnectEffect(before, gameInProgress, sid);
      if !gameInProgress {
        return;
      }
      var i := Find(BySocket(sid));
      assert View() == before;
      if i.Some? {
        Release(players[i.value], i.value);
      }
    }

    /** `isThisMySong`: does the current song's submitter carry the name of the caller's player? */
    method IsThisMySong(sid: SocketId) returns (reply: MySongReply)
      ensures match First(View(), BySocket(sid))
        case None => reply == NoReply
        case Some(i) =>
          if currentSongSubmitter == null then reply == NoCurrentSubmitter
          else reply == IsYourSong(currentSongSubmitter.name == View()[i].name)
    {
      var i := Find(BySocket(sid));
      if i.None? {
        return NoReply;
      }
      var player := players[i.value];
      if currentSongSubmitter == null {
        return NoCurrentSubmitter;
      }
      reply := IsYourSong(currentSongSubmitter.name == player.name);
    }

    /**
     * Stands for `Songfest.nextPhase`, whose definition is not part of this
     * model: it may change the lock-ins, the current song and its submitter
     * and the game flag, and promises nothing about them.
     */
    method AdvancePhase()
      modifies this`playersLockedIn, this`currentSongSubmitter, this`hasCurrentSong, this`gameInProgress,
        this`phaseAdvances
      ensures phaseAdvances == old(phaseAdvances) + 1
    {
      phaseAdvances := phaseAdvances + 1;
    }

    /** The gate of `rateSong` and `guessSongSubmitter`: find the caller, refuse or lock it in. */
    method LockIn(sid: SocketId) returns (outcome: LockInOutcome)
      modifies this`playersLockedIn
      ensures outcome == Gate(View(), old(playersLockedIn), sid)
      ensures playersLockedIn == After(old(playersLockedIn), outcome)
    {
      ghost var before := View();
      var i := Find(BySocket(sid));
      assert View() == before;
      if i.None? {
        return NoPlayer;
      }
      var player := players[i.value];
      assert CallerName(View(), sid) == Some(player.name);
      if player.name in playersLockedIn {
        return AlreadyLockedIn;
      }
      playersLockedIn := playersLockedIn + [player.name];
      outcome := LockedIn(player.name, |playersLockedIn| + 1 == |players|);
    }

    /**
     * `rateSong`: lock the caller in (the scoring of the rating is not part of
     * this model); when that completes the round, advance the phase and
     * broadcast.
     */
    method RateSong(sid: SocketId) returns (outcome: LockInOutcome)
      modifies this`playersLockedIn, this`currentSongSubmitter, this`hasCurrentSong, this`gameInProgress,
        this`phaseAdvances
      ensures players == old(players) && View() == old(View())
      ensures outcome == Gate(View(), old(playersLockedIn), sid)
      ensures if outcome.LockedIn? && outcome.roundComplete then
                phaseAdvances == old(phaseAdvances) + 1
              else
                phaseAdvances == old(phaseAdvances) &&
                playersLockedIn == After(old(playersLockedIn), outcome) &&
                currentSongSubmitter == old(currentSongSubmitter) && hasCurrentSong == old(hasCurrentSong) &&
                gameInProgress == old(gameInProgress)
    {
      outcome := LockIn(sid);
      if outcome.LockedIn? && outcome.roundComplete {
        AdvancePhase();
      }
    }

    /**
     * `guessSongSubmitter`: lock the caller in (the scoring of the guess is
     * not part of this model), then log the current song's guess
     * distribution. With no current song that read throws (`threw`): the
     * name stays locked in, the phase does not advance and nothing is
     * broadcast. Otherwise, when the lock-in completes the round, advance the
     * phase and broadcast.
     */
    method GuessSongSubmitter(sid: SocketId) returns (outcome: LockInOutcome, threw: bool)
      modifies this`playersLockedIn, this`currentSongSubmitter, this`hasCurrentSong, this`gameInProgress,
        this`phaseAdvances
      ensures players == old(players) && View() == old(View())
      ensures outcome == Gate(View(), old(playersLockedIn), sid)
      ensures threw <==> outcome.LockedIn? && !old(hasCurrentSong)
      ensures if outcome.LockedIn? && outcome.roundComplete && !threw then
                phaseAdvances == old(phaseAdvances) + 1
              else
                phaseAdvances == old(phaseAdvances) &&
                playersLockedIn == After(old(playersLockedIn), outcome) &&
                currentSongSubmitter == old(currentSongSubmitter) && hasCurrentSong == old(hasCurrentSong) &&
                gameInProgress == old(gameInProgress)
    {
      outcome := LockIn(sid);
      threw := outcome.LockedIn? && !hasCurrentSong;
      if threw {
        return;
      }
      if outcome.LockedIn? && outcome.roundComplete {
        AdvancePhase();
      }
    }
  }

  /** Taking the host twice from one socket leaves it free again. */
  method ToggleScenario()
  {
    var s := new Songfest();
    s.StartSongfest(1, "summer", "A");
    ghost var v := s.View();
    assert v == [Unbound("A")];
    ToggleTwice(v, "A", "sa");
    var found, mine := s.UpdateSocket("sa", "A");
    assert found && mine == s.players[0];
    found, mine := s.UpdateSocket("sa", "A");
    assert found && mine == null && s.View()[0] == Unbound("A");
  }

  /**
   * A rating round with host "A" free and players "B" and "C" held by
   * sockets "sb" and "sc": B's repeated rating and a rating from an unbound
   * socket are ignored, and C's rating completes the round and advances the
   * phase once.
   */
  method RatingRoundScenario(s: Songfest)
    requires s.Valid() && s.playersLockedIn == []
    requires s.View() == [Unbound("A"), Claimed(Unbound("B"), "sb"), Claimed(Unbound("C"), "sc")]
    modifies s`playersLockedIn, s`currentSongSubmitter, s`hasCurrentSong, s`gameInProgress, s`phaseAdvances
  {
    ghost var v := s.View();
    ghost var advances := s.phaseAdvances;
    assert CallerName(v, "sb") == Some("B") by {
      assert First(v, BySocket("sb")) == Some(1);
    }
    assert CallerName(v, "sc") == Some("C") by {
      assert !Matches(v[0], BySocket("sc")) && !Matches(v[1], BySocket("sc"));
      assert Matches(v[2], BySocket("sc"));
    }
    assert CallerName(v, "sa") == None by {
      assert !Matches(v[1], BySocket("sa"));
      assert !Matches(v[2], BySocket("sa"));
    }
    var o := s.RateSong("sb");
    assert o == LockedIn("B", false) && s.playersLockedIn == ["B"];
    o := s.RateSong("sb");
    assert o == AlreadyLockedIn;
    o := s.RateSong("sa");
    assert o == NoPlayer && s.playersLockedIn == ["B"];
    o := s.RateSong("sc");
    assert o == LockedIn("C", true) && s.phaseAdvances == advances + 1;
  }

  /**
   * The last guess of a round arrives while no song is current: the guesser
   * is locked in and the round would be complete, but the read of the
   * song's guess distribution throws first, so the phase does not advance.
   */
  method GuessWithoutSongScenario(s: Songfest)
    requires s.Valid() && s.playersLockedIn == [] && !s.hasCurrentSong
    requires s.View() == [Claimed(Unbound("A"), "sa"), Claimed(Unbound("B"), "sb")]
    modifies s`playersLockedIn, s`currentSongSubmitter, s`hasCurrentSong, s`gameInProgress, s`phaseAdvances
  {
    ghost var v := s.View();
    ghost var advances := s.phaseAdvances;
    assert CallerName(v, "sb") == Some("B") by {
      assert !Matches(v[0], BySocket("sb")) && Matches(v[1], BySocket("sb"));
    }
    var o, threw := s.GuessSongSubmitter("sb");
    assert o == LockedIn("B", true) && threw;
    assert s.playersLockedIn == ["B"] && s.phaseAdvances == advances;
  }
}
