/**
 * The gate shared by the `rateSong` and `guessSongSubmitter` handlers: find
 * the caller's player by socket, refuse unknown or already locked-in callers,
 * append the caller's name, and report whether the round is now complete
 * (`playersLockedIn.length + 1 == players.length`).
 */
module LockIns {
  import opened Wrappers
  import opened Registry

  datatype LockInOutcome =
    | NoPlayer                                    // no player is bound to the caller's socket
    | AlreadyLockedIn                             // the caller's name is already in the list
    | LockedIn(name: Name, roundComplete: bool)   // appended; `roundComplete` fires nextPhase and a broadcast

  /** The name of the first player bound to socket `sid`. */
  function CallerName(ps: seq<PlayerState>, sid: SocketId): Option<Name> {
    match First(ps, BySocket(sid))
    case None => None
    case Some(i) => Some(ps[i].name)
  }

  /** The caller is known exactly when some player is bound to its socket, and then it is one of them. */
  lemma CallerNameBound(ps: seq<PlayerState>, sid: SocketId)
    ensures CallerName(ps, sid).None? <==> forall k :: 0 <= k < |ps| ==> !Matches(ps[k], BySocket(sid))
    ensures CallerName(ps, sid).Some? ==>
      exists k :: 0 <= k < |ps| && Matches(ps[k], BySocket(sid)) && ps[k].name == CallerName(ps, sid).value
  {
  }

  /** What one rating or guess from socket `sid` amounts to. */
  function Gate(ps: seq<PlayerState>, lockedIn: seq<Name>, sid: SocketId): LockInOutcome {
    match CallerName(ps, sid)
    case None => NoPlayer
    case Some(n) =>
      if n in lockedIn then AlreadyLockedIn
      else LockedIn(n, |lockedIn| + 1 + 1 == |ps|)
  }

  /** The lock-in list once the outcome is applied, before any phase change. */
  function After(lockedIn: seq<Name>, o: LockInOutcome): (r: seq<Name>)
    ensures |lockedIn| <= |r| <= |lockedIn| + 1 && r[..|lockedIn|] == lockedIn
  {
    if o.LockedIn? then lockedIn + [o.name] else lockedIn
  }

  predicate NoDuplicates(s: seq<Name>) {
    forall i, j :: 0 <= i < j < |s| ==> s[i] != s[j]
  }

  /**
   * One rating or guess: an unknown caller or a caller already locked in
   * changes nothing; any other caller's name is appended exactly once, so a
   * list free of duplicates stays so; the round completes exactly when the
   * list then holds one name fewer than there are players.
   */
  lemma {:induction false} GateEffect(ps: seq<PlayerState>, lockedIn: seq<Name>, sid: SocketId)
    ensures var o := Gate(ps, lockedIn, sid);
      (o.NoPlayer? <==> CallerName(ps, sid).None?) &&
      (o.AlreadyLockedIn? <==> CallerName(ps, sid).Some? && CallerName(ps, sid).value in lockedIn) &&
      (!o.LockedIn? ==> After(lockedIn, o) == lockedIn) &&
      (o.LockedIn? ==> o.name == CallerName(ps, sid).value && o.name !in lockedIn &&
                       After(lockedIn, o) == lockedIn + [o.name] &&
                       (o.roundComplete <==> |After(lockedIn, o)| + 1 == |ps|)) &&
      (NoDuplicates(lockedIn) ==> NoDuplicates(After(lockedIn, o)))
  {
    var o := Gate(ps, lockedIn, sid);
    if o.LockedIn? && NoDuplicates(lockedIn) {
      var s := lockedIn + [o.name];
      forall i, j | 0 <= i < j < |s| ensures s[i] != s[j] {
        if j == |lockedIn| {
          assert s[i] == lockedIn[i];
        }
      }
    }
  }

  /** A second rating or guess from the same socket in the same round is ignored. */
  lemma RepeatIgnored(ps: seq<PlayerState>, lockedIn: seq<Name>, sid: SocketId)
    requires Gate(ps, lockedIn, sid).LockedIn?
    ensures Gate(ps, After(lockedIn, Gate(ps, lockedIn, sid)), sid) == AlreadyLockedIn
  {
  }

  /** Where a round stands after a series of calls: still open with this lock-in list, or completed by call `at`. */
  datatype Round = Open(lockedIn: seq<Name>) | Completed(at: nat)

  /** A series of ratings (or guesses) from sockets `sids`, in order, up to the one that completes the round. */
  function RunRound(ps: seq<PlayerState>, lockedIn: seq<Name>, sids: seq<SocketId>): Round
    decreases |sids|
  {
    if sids == [] then Open(lockedIn)
    else
      var o := Gate(ps, lockedIn, sids[0]);
      if o.LockedIn? && o.roundComplete then Completed(0)
      else match RunRound(ps, After(lockedIn, o), sids[1..])
        case Open(l) => Open(l)
        case Completed(k) => Completed(k + 1)
  }

  /**
   * Calls from players who are bound, pairwise differently named and not yet
   * locked in advance the phase at most once: the round stays open, with their
   * names appended in order, while fewer than `players.length - 1` names are
   * locked in, and it completes on the call that brings the count to
   * `players.length - 1`.
   */
  lemma {:induction false} RoundCompletesOnce(ps: seq<PlayerState>, lockedIn: seq<Name>, sids: seq<SocketId>, names: seq<Name>)
    requires |names| == |sids|
    requires forall j :: 0 <= j < |sids| ==> CallerName(ps, sids[j]) == Some(names[j])
    requires NoDuplicates(names)
    requires forall j :: 0 <= j < |names| ==> names[j] !in lockedIn
    ensures |lockedIn| + |sids| + 1 < |ps| ==> RunRound(ps, lockedIn, sids) == Open(lockedIn + names)
    ensures |lockedIn| + |sids| + 1 == |ps| && sids != [] ==> RunRound(ps, lockedIn, sids) == Completed(|sids| - 1)
    decreases |sids|
  {
    if sids != [] {
      var o := Gate(ps, lockedIn, sids[0]);
      assert o == LockedIn(names[0], |lockedIn| + 2 == |ps|);
      if !o.roundComplete {
        var l, rest, later := lockedIn + [names[0]], sids[1..], names[1..];
        forall j | 0 <= j < |rest| ensures CallerName(ps, rest[j]) == Some(later[j]) {
          assert rest[j] == sids[j + 1] && later[j] == names[j + 1];
        }
        forall j | 0 <= j < |later| ensures later[j] !in l {
          assert later[j] == names[j + 1] && names[0] != names[j + 1];
        }
        assert NoDuplicates(later) by {
          forall i, j | 0 <= i < j < |later| ensures later[i] != later[j] {
            assert later[i] == names[i + 1] && later[j] == names[j + 1];
          }
        }
        RoundCompletesOnce(ps, l, rest, later);
        assert lockedIn + names == l + later;
      }
    }
  }

  /**
   * With more such callers than the round needs, it completes on the call
   * that brings the count to `players.length - 1`, whoever makes it, the
   * current submitter included; the callers after it are never reached.
   */
  lemma {:induction false} RoundCompletesAt(ps: seq<PlayerState>, lockedIn: seq<Name>, sids: seq<SocketId>, names: seq<Name>)
    requires |names| == |sids|
    requires forall j :: 0 <= j < |sids| ==> CallerName(ps, sids[j]) == Some(names[j])
    requires NoDuplicates(names)
    requires forall j :: 0 <= j < |names| ==> names[j] !in lockedIn
    requires |lockedIn| + 1 < |ps| <= |lockedIn| + |sids| + 1
    ensures RunRound(ps, lockedIn, sids) == Completed(|ps| - |lockedIn| - 2)
    decreases |sids|
  {
    var o := Gate(ps, lockedIn, sids[0]);
    assert o == LockedIn(names[0], |lockedIn| + 2 == |ps|);
    if !o.roundComplete {
      var l, rest, later := lockedIn + [names[0]], sids[1..], names[1..];
      forall j | 0 <= j < |rest| ensures CallerName(ps, rest[j]) == Some(later[j]) {
        assert rest[j] == sids[j + 1] && later[j] == names[j + 1];
      }
      forall j | 0 <= j < |later| ensures later[j] !in l {
        assert later[j] == names[j + 1] && names[0] != names[j + 1];
      }
      assert NoDuplicates(later) by {
        forall i, j | 0 <= i < j < |later| ensures later[i] != later[j] {
          assert later[i] == names[i + 1] && later[j] == names[j + 1];
        }
      }
      RoundCompletesAt(ps, l, rest, later);
      assert After(lockedIn, o) == l;
    }
  }

  /**
   * Once the list holds `players.length - 1` names or more, no series of
   * calls completes the round: a one-player session, whose only lock-in
   * already reaches that count, never advances.
   */
  lemma {:induction false} PastThresholdStaysOpen(ps: seq<PlayerState>, lockedIn: seq<Name>, sids: seq<SocketId>)
    requires |lockedIn| + 1 >= |ps|
    ensures RunRound(ps, lockedIn, sids).Open?
    decreases |sids|
  {
    if sids != [] {
      var o := Gate(ps, lockedIn, sids[0]);
      assert |After(lockedIn, o)| >= |lockedIn|;
      PastThresholdStaysOpen(ps, After(lockedIn, o), sids[1..]);
    }
  }

  /**
   * Three players, all bound, rate in turn. The current submitter `A` rates
   * first and counts towards `players.length - 1`, so the round completes on
   * the second call and `C` never gets to lock in.
   */
  lemma SubmitterCompletesRound()
    ensures var ps := [Claimed(Unbound("A"), "a"), Claimed(Unbound("B"), "b"), Claimed(Unbound("C"), "c")];
      RunRound(ps, [], ["a", "b", "c"]) == Completed(1)
  {
    var ps := [Claimed(Unbound("A"), "a"), Claimed(Unbound("B"), "b"), Claimed(Unbound("C"), "c")];
    assert First(ps, BySocket("a")) == Some(0);
    assert First(ps, BySocket("b")) == Some(1) by {
      assert !Matches(ps[0], BySocket("b")) && Matches(ps[1], BySocket("b"));
    }
  }

  /** A session with a single player: its only lock-in leaves the round open for good. */
  lemma SoloRoundNeverCompletes()
    ensures Gate([Claimed(Unbound("A"), "a")], [], "a") == LockedIn("A", false)
    ensures RunRound([Claimed(Unbound("A"), "a")], [], ["a"]) == Open(["A"])
  {
    assert First([Claimed(Unbound("A"), "a")], BySocket("a")) == Some(0);
  }
}
