# Songfest session handlers

A model of the session bookkeeping done by the socket event handlers of the
songfest server, a party game in which players submit song clips and then
rate each clip and guess who submitted it. Every handler takes the caller's
connection (its socket id) and makes a small change, in order, to one shared
session:

- the **player registry**: `players`, a list of player objects. Each player
  has a `name`, a `socketId` (the connection holding it, or null) and a
  `taken` flag;
- the **lock-in list** `playersLockedIn`: the names of the players who have
  already rated or guessed in the current round;
- the session flags and settings: `songfestOpen`, `gameInProgress`,
  `theme`, `songsPerPerson`, `host` and `currentSongSubmitter`.

The model has four modules:

- `Wrappers` holds the `Option` type. It stands for the source's nullable
  values.
- `Registry` models the player list as values. It defines `First`, the
  first-match lookup that every `find` call performs. It states the binding
  invariants: `taken` mirrors `socketId != null`, and no socket id is bound to
  two players. It also gives the pure transitions behind `startSongfest`,
  `getPlayerByName`, `updateSocket` and `disconnect`, with lemmas about each.
- `LockIns` models the gate that `rateSong` and `guessSongSubmitter` share.
  Its lemmas follow a whole series of calls: the round completes exactly
  once, on the call that brings the count to `players.length - 1`, and a
  list already at that count never completes it.
- `Handler` holds the classes `Player` and `Songfest`. The handlers are
  methods that change those objects in place. Each method is proved against
  the matching `Registry` or `LockIns` function through `Songfest.View()`,
  the list of player states. `StartSongfest`, `GetPlayerByName`,
  `UpdateSocket` and `Disconnect`, the handlers that change the players,
  also preserve `Songfest.Valid()`: the player objects are distinct and the
  binding invariants hold. There
  are also three client scenarios: `ToggleScenario`, `RatingRoundScenario`
  and `GuessWithoutSongScenario`.

Instead of emitting, each handler returns what it would emit to the caller
(`myPlayer`, `isThisYourSong`) and whether it would broadcast the state.

The game's intended rules and the code do not always agree. The model
follows the code:

- A player's name is meant to identify it. `startSongfest` appends the host
  without checking whether that name already exists, so two players can
  share a name, and lookups by that name reach only the first
  (`Registry.HostNameShadowed`). `startSongfest` also runs in any phase, not
  only before the game.
- Each round is meant to wait for every player except the one who submitted
  the current song. The code compares `playersLockedIn.length + 1` with
  `players.length` and never stops the submitter from locking in. If the
  submitter locks in, the round completes before the last other player does
  (`LockIns.RoundCompletesAt`, `LockIns.SubmitterCompletesRound`). In a
  session with one player the round never completes
  (`LockIns.PastThresholdStaysOpen`, `LockIns.SoloRoundNeverCompletes`).
- `isThisMySong` reads `currentSongSubmitter.name` without a null check, so
  it throws when no current song submitter is set
  (`MySongReply.NoCurrentSubmitter`).

## Model

| member | source | states |
|---|---|---|
| `Registry.First` | src/handler.ts:34 | The lookup returns the first index whose player matches (by name, or by socket id). No earlier player matches. "Not found" means no player matches. |
| `Registry.AddHost` | src/handler.ts:19-23 | `startSongfest` grows the player list by exactly one. Earlier entries are unchanged. The new last entry is the host, held by nobody. |
| `Registry.HostNameShadowed` | src/handler.ts:19-23 | The host is appended with no duplicate check. If a player already has the host's name, two players share it, and lookups by that name still return the earlier one. |
| `Registry.AppendUnboundKeepsBindings` | src/handler.ts:36-37 | Appending a newly created player keeps both binding invariants. |
| `Registry.Truthy` | src/handler.ts:35 | The `&& name` test: a name counts only when it is neither null nor empty. |
| `Registry.Join` | src/handler.ts:34-40 | `getPlayerByName` adds at most one player. All earlier entries are unchanged. |
| `Registry.JoinFinds` | src/handler.ts:33-42 | A known name changes nothing. A null or empty name changes nothing. Otherwise the name is appended at the end and is then found there; a known name is found at its old place. |
| `Registry.JoinIdempotent` | src/handler.ts:33-42 | Asking for the same name twice creates the player at most once. |
| `Registry.JoinKeepsBindings` | src/handler.ts:35-39 | `getPlayerByName` keeps both binding invariants. |
| `Registry.ToggleOwnership` | src/handler.ts:56-80 | `updateSocket` keeps the number of players and every player's name. |
| `Registry.ToggleOwnershipEffect` | src/handler.ts:58-79 | An unknown name changes nothing. The named player becomes free if the caller held it, and is bound to the caller otherwise. Any other player the caller held is released. Afterwards the caller holds the named player or nobody. |
| `Registry.ToggleOwnershipKeepsBindings` | src/handler.ts:64-79 | `updateSocket` keeps "at most one player per socket id" and "`taken` == (`socketId` != null)". |
| `Registry.ToggleTwice` | src/handler.ts:64-79 | The toggle law for two calls in a row from one socket for one name. The named player ends up held by the socket exactly when it was before, and free if it was not. Any other player the socket held stays released. Every other player is as it was. |
| `Registry.DisconnectState` | src/handler.ts:84-95 | `disconnect` keeps the number of players and every player's name. |
| `Registry.DisconnectEffect` | src/handler.ts:86-94 | With no game in progress, nothing changes. During a game, the player held by the socket is released, every other player is unchanged, and the binding invariants still hold. |
| `LockIns.CallerName` | src/handler.ts:111-114 | The `find` by socket id followed by `.name` that both lock-in handlers start with (also lines 146-149). Its meaning is stated by `LockIns.CallerNameBound`. |
| `LockIns.CallerNameBound` | src/handler.ts:111-114 | The caller is known if and only if some player is bound to its socket. If so, the name returned belongs to such a player. |
| `LockIns.Gate` | src/handler.ts:111-126 | One rating or guess: no player, already locked in, or locked in with the `playersLockedIn.length + 1 == players.length` test after the append (also lines 146-162). Its properties are stated by `LockIns.GateEffect`. |
| `LockIns.After` | src/handler.ts:120 | The `push` onto `playersLockedIn` (also line 155): the list grows by at most one name, and the old list stays its prefix. |
| `LockIns.GateEffect` | src/handler.ts:111-126 | An unknown caller changes nothing, and so does a caller already locked in. Any other caller's name is appended exactly once, so a list free of duplicates stays so, whatever happened to it before. The round completes exactly when `playersLockedIn.length + 1 == players.length` after the append. |
| `LockIns.RepeatIgnored` | src/handler.ts:115-118 | A second rating or guess from the same socket in the same round is ignored. |
| `LockIns.RoundCompletesOnce` | src/handler.ts:106-131 | Take a series of calls from bound players who have different names and are not yet locked in. The round stays open, with their names appended in order, while the count is below `players.length - 1`. It completes on exactly the call that brings the count to `players.length - 1`. |
| `LockIns.RoundCompletesAt` | src/handler.ts:116-128 | Take more bound, differently named, not yet locked-in callers than the round needs. The round completes on the call that brings the count to `players.length - 1`, whoever makes it, and later callers are never reached. |
| `LockIns.PastThresholdStaysOpen` | src/handler.ts:126 | Once `playersLockedIn` holds `players.length - 1` names or more, no series of calls completes the round, because the test asks for equality. |
| `LockIns.SubmitterCompletesRound` | src/handler.ts:116-126 | Three bound players rate in turn, the current submitter first. The round completes on the second call, and the third player never locks in. |
| `LockIns.SoloRoundNeverCompletes` | src/handler.ts:116-126 | In a one-player session the only rating locks the player in without completing the round, and the round stays open. |
| `Handler.Player.constructor` | src/handler.ts:36 | A newly created player has the given name and is held by nobody. |
| `Handler.Songfest.constructor` | src/index.ts:19 | The session starts in the lobby: no players, no lock-ins, not open, no game, no current song and no submitter, and the binding invariants hold. |
| `Handler.Songfest.Find` | src/handler.ts:58 | The linear scan over `players` returns exactly `Registry.First` of the current player states. |
| `Handler.Songfest.Push` | src/handler.ts:37 | `players.push` of a new, unbound player object: the object becomes the last element and its state the last player state. The objects stay distinct and the binding invariants are kept. |
| `Handler.Songfest.StartSongfest` | src/handler.ts:11-27 | Sets `songsPerPerson`, `theme` and `host` from the settings and sets `songfestOpen`. `players` gains the fresh host object as its new last element. The player states follow `Registry.AddHost`, and the invariant is kept. |
| `Handler.Songfest.GetPlayerByName` | src/handler.ts:33-43 | A known name returns that existing player with no broadcast and no change. A null or empty unknown name returns null with no broadcast and no change. A new name appends exactly one fresh, unbound player of that name, returns it and broadcasts. |
| `Handler.Songfest.Release` | src/handler.ts:92-93 | Sets the player's `socketId` to null and `taken` to false, the pair both `updateSocket` and `disconnect` write. The player's state becomes `Registry.Released` of the old one, and every other player is unchanged. |
| `Handler.Songfest.Claim` | src/handler.ts:77-78 | Sets the player's `socketId` to the caller's socket and `taken` to true. The player's state becomes `Registry.Claimed` of the old one, and every other player is unchanged. |
| `Handler.Songfest.UpdateSocket` | src/handler.ts:56-83 | The player states become `Registry.ToggleOwnership` of the old ones, and the invariant is kept. The call reports "found", with a broadcast, exactly when the name is known. The caller is sent `myPlayer`: null on a toggle-off, the target player on a toggle-on. |
| `Handler.Songfest.Disconnect` | src/handler.ts:84-95 | The player states become `Registry.DisconnectState` of the old ones, and the invariant is kept. |
| `Handler.Songfest.IsThisMySong` | src/handler.ts:96-105 | There is no reply unless some player is bound to the caller's socket. The call throws when there is no current submitter. Otherwise the answer is whether the submitter's name equals the name of the caller's player. |
| `Handler.Songfest.AdvancePhase` | src/handler.ts:128 | Stands for `nextPhase`, which is defined in the `songfest-common` package, outside this model. It counts one phase advance and promises nothing else. |
| `Handler.Songfest.LockIn` | src/handler.ts:110-120 | The outcome is `LockIns.Gate` of the player states and the old lock-ins. The lock-in list becomes `LockIns.After` of that outcome. |
| `Handler.Songfest.RateSong` | src/handler.ts:106-131 | The lock-in outcome is `LockIns.Gate`. If the round is complete, the phase advances exactly once (and the state is broadcast). Otherwise the phase does not advance and the lock-in list is the gated append. Players and bindings never change. |
| `Handler.Songfest.GuessSongSubmitter` | src/handler.ts:144-167 | The lock-in outcome is `LockIns.Gate`, as for `RateSong`. Unlike `rateSong`, line 159 then reads the current song's guess distribution. With no current song that read throws right after any lock-in: the name stays appended and the phase does not advance, even when the round would be complete. Otherwise the phase advances exactly once on a completed round. Players and bindings never change. |
| `Handler.GuessWithoutSongScenario` | src/handler.ts:155-165 | With two bound players and no current song, the guess that would complete the round locks the guesser in and throws, and the phase does not advance. |

## Left out

- The emits themselves (`socket.emit`, `io.emit`) and the console logging. Each handler returns the `myPlayer`, the `isThisYourSong` answer or the broadcast flag instead.
- The definitions of `Songfest.nextPhase`, `startGame`, `reset` and `toClientState`, and of `Song.init`, `Player.rateSong` and `Player.guessSong`, are in the `songfest-common` package, outside this model. `Player.rateSong` and `Player.guessSong` are taken to return normally, even with no current song.
- `Handler.Songfest.AdvancePhase`: it is not given the effects of `nextPhase`. Its frame covers the lock-in list, the current song and its submitter, the game flag and the phase counter. It promises only one more phase advance, so nothing is claimed about `playersLockedIn` after a completed round. The frame assumes that `nextPhase` neither adds nor removes players and does not change their bindings.
- `Handler.Player.constructor`: the `Player` constructor is not part of this model. A new player is taken to start with its name, a null `socketId` and `taken` false. Its song slots (`songsPerPerson` of them) and its points are not modelled.
- `Handler.Songfest.constructor`: the `Songfest` constructor is not part of this model. It is taken to produce the lobby state, with no current song. The initial `theme` and `songsPerPerson` are left unstated.
- Scoring and the guess log: `RateSong` and `GuessSongSubmitter` do not take the rating and guess payloads. The rating payload only feeds `Player.rateSong`. The guess payload feeds `Player.guessSong` and the log line at src/handler.ts:159. That log line also reads `currentSong.guessDistribution`. Its only effect the model keeps is the throw when no current song is set; the song itself is represented by the flag `hasCurrentSong`.
- The `submitSongs` handler (src/handler.ts:44-55). Its work is the asynchronous initialisation of songs by code in the `songfest-common` package, and it does not check an unknown player or a length mismatch.
- The `getState`, `startGame`, `getDistributions`, `getGameSummaryData`, `reset` and `nextPhase` handlers. Each one only calls code in the `songfest-common` package and emits, or passes through fields that package defines.
- Server bootstrap (src/index.ts): HTTP, CORS, socket server set-up and `listen`.
- Concurrency and the order in which events are dispatched: each method models one handler invocation that runs to completion.
- Payload typing: `updateSocket` takes a string name. `getPlayerByName` takes a name that may be null (`Option`). JavaScript's loose equality on other payload types is not modelled.
