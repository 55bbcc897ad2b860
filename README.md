# CryptoFall Arena game logic in Dafny

This project models the game logic of CryptoFall Arena, a browser game in which
Bitcoin coins and bombs fall down a canvas and the player clicks them. A coin is
worth +10 and a bomb -15, and scores never drop below zero.

**The falling-item engine.** This is the core.
- A runtime object holds the active items, the floating score texts, a red
  "bomb" overlay, the time of the last frame and a spawn accumulator.
- Every animation frame it:
  - computes the frame delta;
  - decays the overlay;
  - may spawn one item;
  - drops clicked and landed items and expired texts;
  - ends the session when a running game has no time left.
- A click consumes the newest item under the pointer. Drawing and hit-testing
  use one eased position formula.

**Around the engine:**
- the single-player session: countdown, score floor, stop and "Play again";
- the stored single-player configuration and the home form that writes it;
- the mock multiplayer room (see below);
- the leaderboard order;
- the local room list;
- the room-creation dialog;
- the wallet-connector dialog's filter, order and labels;
- the wallet bar's short address and wrong-network test.

The multiplayer room is a mock:
- bots with deterministic addresses join until four players are present;
- the host starts a 45-second game;
- bots score at random while it runs;
- a player ranked first sees a winner overlay.

Modules follow the source files:

| module | file |
|---|---|
| `Types` | `types.ts`, plus an Option type and `findIndex` |
| `Easing` | `easing.ts` |
| `Strings` | JavaScript `slice`, `trim`, `toLowerCase`, `includes` |
| `StableSort` | `Array.prototype.sort` with an integer comparator |
| `GameCanvas` | `GameCanvas.tsx` |
| `Home` | `Home.tsx` |
| `SinglePlayer` | `SinglePlayer.tsx` |
| `Leaderboard` | `Leaderboard.tsx` |
| `RoomLobby` | `RoomLobby.tsx` |
| `RoomService` | `roomService.ts` |
| `CreateRoomModal` | `CreateRoomModal.tsx` |
| `ConnectWalletModal` | `ConnectWalletModal.tsx` |
| `Walletbar` | `Walletbar.tsx` and `wagmi.ts` |

How the source maps onto Dafny:
- State the source updates in place becomes a class with `modifies` clauses:
  - the canvas runtime;
  - the single-player session;
  - the lobby;
  - the room store;
  - the home and room-creation forms;
  - the wallet bar's dialog flag.
- Methods that compute something are tied to a specification function, such
  as `Survivors`, `LiveTexts`, `TopmostHit`, `Countdown`, `LoadConfig` or
  `OpponentScores`. Setters such as `Toggle`, `OpenDialog` or `SetNickname` state
  their new field values directly.
- Randomness, clocks, element ids, the wallet library's state and whether a
  callback throws all become parameters:
  - `Math.random()` samples are reals in [0,1).
  - `Date.now()` readings are integers in milliseconds.
  - Animation timestamps are reals.
- Browser storage is a map from keys to the value that parsing the stored text
  yields.
- Canvas arithmetic is exact real arithmetic.

Remarks on the source:
- `restart` in `SinglePlayer.tsx` (lines 56-59) resets the score and the status
  but not the remaining seconds. The countdown effect (lines 46-51) recomputes
  the remaining time from `durationSec` every time the session enters RUNNING,
  so a restart is evidently meant to start with the full time. The model keeps
  the code as written and adds the corrected restart; see Findings.
- The lobby imports a `Player` type from `types.ts`, which does not declare one.
  `Types.Player` has the four fields that the lobby and the leaderboard use.

## Model

| member | source | states |
|---|---|---|
| `Easing.Clamp01` | frontend/src/game/util/easing.ts:1-3 | the result lies in [0,1]; inputs already in [0,1] are returned unchanged; inputs below become 0 and inputs above become 1 |
| `Easing.EaseInOutCubic` | frontend/src/game/util/easing.ts:6-9 | the easing curve; its range, endpoints and monotonicity are the lemmas below |
| `Easing.Lerp` | frontend/src/game/util/easing.ts:11-13 | linear interpolation; characterised by `LerpBetween` and `LerpMonotone` |
| `Easing.EaseClampsFirst` | frontend/src/game/util/easing.ts:6-7 | easing an out-of-range progress equals easing the clamped progress |
| `Easing.EaseEndpoints` | frontend/src/game/util/easing.ts:6-9 | the curve maps 0 to 0 and 1 to 1; both pieces give 0.5 at 0.5, so the curve is continuous there |
| `Easing.EaseInUnit` | frontend/src/game/util/easing.ts:6-9 | for every input the eased value lies in [0,1]; the first piece stays below 0.5 and the second stays at or above it |
| `Easing.EaseMonotone` | frontend/src/game/util/easing.ts:6-9 | the eased value never decreases as the input grows |
| `Easing.LerpBetween` | frontend/src/game/util/easing.ts:11-13 | interpolation gives a at 0 and b at 1, and lies between a and b (in either order) for t in [0,1] |
| `Easing.LerpMonotone` | frontend/src/game/util/easing.ts:11-13 | with a <= b, interpolation is non-decreasing in t |
| `Types.FlooredScore` | frontend/src/pages/SinglePlayer.tsx:140 | the updated score is never negative; it is s + delta when that is non-negative, else 0 |
| `Types.FirstIndex` | frontend/src/pages/RoomLobby.tsx:76 | the index of the first element satisfying the test; None exactly when no element does |
| `Strings.SliceHead` | frontend/src/pages/Home.tsx:18 | `slice(0, n)` is the prefix of length min(n, length) |
| `Strings.SliceTail` | frontend/src/pages/RoomLobby.tsx:20 | `slice(-n)` is the suffix of length min(n, length) |
| `Strings.ShortAddress` | frontend/src/pages/RoomLobby.tsx:19-21 | the shortened address is the first 6 characters, an ellipsis, then the last 4, with JavaScript slice semantics on short strings |
| `Strings.ShortAddressOfLongAddress` | frontend/src/game/components/leaderboard/Leaderboard.tsx:10-12 | an address of at least 10 characters shortens to a[..6] + "…" + its last 4 characters, 11 characters in all |
| `Strings.TrimStart` | frontend/src/pages/Home.tsx:38 | removes exactly the leading white space: the result is a suffix not starting with white space, and everything dropped is white space |
| `Strings.TrimEnd` | frontend/src/pages/Home.tsx:38 | removes exactly the trailing white space: the result is a prefix not ending with white space, and everything dropped is white space |
| `Strings.Trim` | frontend/src/pages/Home.tsx:38 | the trimmed string occurs inside the original, everything before and after it is white space, and it has no white space at either end |
| `Strings.TrimIdempotent` | frontend/src/pages/Home.tsx:41 | trimming twice equals trimming once |
| `Strings.TrimBlank` | frontend/src/pages/Home.tsx:38 | a string of white space only trims to "" |
| `Strings.LowerChar` | frontend/src/wallet/components/ConnectWalletModal.tsx:10 | each upper-case ASCII letter becomes the lower-case letter at the same place in the alphabet; every other character is unchanged |
| `Strings.Lower` | frontend/src/wallet/components/ConnectWalletModal.tsx:10 | lower-casing keeps the length and lower-cases each character |
| `StableSort.SortBy` | frontend/src/game/components/leaderboard/Leaderboard.tsx:15-17 | the stable sort by key; keeps the length, and its permutation, order and stability are the three lemmas below |
| `StableSort.SortPermutes` | frontend/src/game/components/leaderboard/Leaderboard.tsx:15-17 | the sorted copy is a permutation of the input |
| `StableSort.SortSorted` | frontend/src/game/components/leaderboard/Leaderboard.tsx:15-17 | keys never decrease along the sorted copy |
| `StableSort.SortStable` | frontend/src/wallet/components/ConnectWalletModal.tsx:52 | for every key, the elements with that key appear in the sorted copy in input order |
| `GameCanvas.RandomBetween` | frontend/src/game/components/GameCanvas.tsx:22-24 | for a sample in [0,1) and min < max, the value lies in [min, max) |
| `GameCanvas.PickType` | frontend/src/game/components/GameCanvas.tsx:26-29 | a coin exactly when the sample is below 0.78, else a bomb |
| `GameCanvas.SampleLevels` | frontend/src/game/components/GameCanvas.tsx:37-41 | the three fall-time tiers lie in [2600,4200), [1600,2400) and [1200,2000) |
| `GameCanvas.SpawnThreshold` | frontend/src/game/components/GameCanvas.tsx:127 | the spawn interval drawn each running frame lies in [400,680) ms |
| `GameCanvas.NewItem` | frontend/src/game/components/GameCanvas.tsx:129-148 | a spawned item is unclicked, starts now, is a coin iff its sample is below 0.78, has size in [54,88) and fall time in [2500,4500), and lies at least 12 units inside both side edges when the arena is wide enough |
| `GameCanvas.ItemFalls` | frontend/src/game/components/GameCanvas.tsx:229-234 | the drawn height never decreases over time and stays between the start height (-size) and the end height (floor - size/2 - 4) |
| `GameCanvas.Progress` | frontend/src/game/components/GameCanvas.tsx:229 | elapsed time over fall time; its use is characterised by `ItemFalls` |
| `GameCanvas.ItemY` | frontend/src/game/components/GameCanvas.tsx:229-234 | the drawn height, from -size down to floor - size/2 - 4 along the eased progress; characterised by `ItemFalls` |
| `GameCanvas.Heights` | frontend/src/game/components/GameCanvas.tsx:229-234 | one drawn height per item, each the item's height at that instant |
| `GameCanvas.HeightsWithinFall` | frontend/src/game/components/GameCanvas.tsx:229-234 | every drawn height lies between its item's start and end heights |
| `GameCanvas.HitTestCircle` | frontend/src/game/components/GameCanvas.tsx:31-35 | the closed-disc test; characterised by `HitTestBoundary` |
| `GameCanvas.HitTestBoundary` | frontend/src/game/components/GameCanvas.tsx:31-35 | the circle test accepts the centre and points on the boundary, and rejects a point just outside |
| `GameCanvas.Survivors` | frontend/src/game/components/GameCanvas.tsx:225-244 | a frame keeps at most as many items as it had |
| `GameCanvas.SurvivorsMembership` | frontend/src/game/components/GameCanvas.tsx:225-244 | an item survives a frame iff it was present, is unclicked, and its progress is below 1 |
| `GameCanvas.SurvivorsAppend` | frontend/src/game/components/GameCanvas.tsx:225-244 | retirement keeps the relative order: filtering a concatenation filters each part |
| `GameCanvas.LiveTexts` | frontend/src/game/components/GameCanvas.tsx:275-302 | a frame keeps at most as many texts as it had |
| `GameCanvas.LiveTextsAppend` | frontend/src/game/components/GameCanvas.tsx:275-302 | expiry keeps the relative order: filtering a concatenation filters each part |
| `GameCanvas.LiveTextsMembership` | frontend/src/game/components/GameCanvas.tsx:275-302 | a floating text survives iff it was present and its age is below its duration |
| `GameCanvas.TopmostHit` | frontend/src/game/components/GameCanvas.tsx:391-425 | the chosen item is hittable (unclicked, progress in [0,1), point inside the 0.45·size circle) and no later item is; None iff no item is hittable |
| `GameCanvas.CentreClickHitsNewest` | frontend/src/game/components/GameCanvas.tsx:391-412 | a click on the centre of the newest unclicked in-flight item consumes that item, whatever lies beneath it |
| `GameCanvas.FrameDelta` | frontend/src/game/components/GameCanvas.tsx:116 | the delta is 16 when no frame has been recorded, else the time since the last frame |
| `GameCanvas.Runtime.constructor` | frontend/src/game/components/GameCanvas.tsx:47-53 | a fresh runtime has no items or texts and zero overlay, last frame and ticker |
| `GameCanvas.Runtime.EnterRunning` | frontend/src/game/components/GameCanvas.tsx:64-71 | entering RUNNING empties items and texts, zeroes overlay and ticker, and records the current time |
| `GameCanvas.Runtime.Frame` | frontend/src/game/components/GameCanvas.tsx:114-164 | one frame: the overlay decays by dt/520, floored at 0; at most one item spawns, only when playing and the ticker reaches the threshold; the items are the survivors in order, or none when the running session has no time left, which signals the end; texts are the live ones |
| `GameCanvas.Runtime.Advance` | frontend/src/game/components/GameCanvas.tsx:115-149 | frame delta, overlay decay and spawner: the ticker accumulates only while playing, is reset on a spawn, and a spawn appends exactly one new item |
| `GameCanvas.Runtime.RetireItems` | frontend/src/game/components/GameCanvas.tsx:225-244 | the loop keeps exactly the survivors in order and reports each one's drawn height |
| `GameCanvas.Runtime.RetireTexts` | frontend/src/game/components/GameCanvas.tsx:275-302 | the loop keeps exactly the live texts in order |
| `GameCanvas.Runtime.Click` | frontend/src/game/components/GameCanvas.tsx:380-425 | a click does nothing unless playing. Otherwise it marks exactly the topmost hittable item, returns +10 or -15, appends the matching "+10"/"-15" text at the item's position, and sets the overlay to exactly 1 for a bomb. A miss changes nothing |
| `Home.LoadConfig` | frontend/src/pages/Home.tsx:12-24 | missing, empty or unparseable storage gives ("player", 45); a falsy nickname becomes "player", a string one is cut to its first 16 characters, and a truthy value without `slice` gives the defaults; the result is always a non-empty nickname of at most 16 characters and a duration of 30, 45 or 60 |
| `Home.NormalDuration` | frontend/src/pages/Home.tsx:19 | a stored duration is kept iff it is 30, 45 or 60; otherwise 45 |
| `Home.SaveConfig` | frontend/src/pages/Home.tsx:26-28 | saving writes the config key and leaves every other key unchanged |
| `Home.SaveLoadRoundTrip` | frontend/src/pages/Home.tsx:12-28 | loading returns exactly the saved configuration iff it is one loading can produce (nickname of 1 to 16 characters, duration 30/45/60) |
| `Home.LoadSaveStable` | frontend/src/pages/Home.tsx:12-28 | saving a loaded configuration and loading it again gives the same configuration |
| `Home.CanStart` | frontend/src/pages/Home.tsx:41 | the start button's condition; characterised by `BlankNicknameCannotStart` |
| `Home.BlankNicknameCannotStart` | frontend/src/pages/Home.tsx:41 | a nickname of white space only never enables the start button |
| `Home.HomeForm.constructor` | frontend/src/pages/Home.tsx:32-35 | the form starts from the loaded configuration |
| `Home.HomeForm.SetNickname` | frontend/src/pages/Home.tsx:87-90 | typing replaces the nickname; the input holds at most 16 characters |
| `Home.HomeForm.SetDuration` | frontend/src/pages/Home.tsx:104-107 | a duration button sets one of 30/45/60 |
| `Home.HomeForm.StartSingle` | frontend/src/pages/Home.tsx:38-44 | with the start button enabled, the stored configuration is the trimmed nickname with the duration, and the single-player page loads back exactly that |
| `SinglePlayer.Countdown` | frontend/src/pages/SinglePlayer.tsx:47-48 | the remaining time is never negative and never exceeds the duration once time has started |
| `SinglePlayer.CountdownMonotone` | frontend/src/pages/SinglePlayer.tsx:47-48 | the remaining time never increases as the clock advances |
| `SinglePlayer.CountdownZeroExactly` | frontend/src/pages/SinglePlayer.tsx:47-50 | the countdown is 0 exactly once durationSec whole seconds have elapsed, and shows the full duration during the first second |
| `SinglePlayer.CountdownStep` | frontend/src/pages/SinglePlayer.tsx:47-48 | one more whole second lowers the displayed time by exactly one, until it shows 0 |
| `SinglePlayer.Session.constructor` | frontend/src/pages/SinglePlayer.tsx:32-44 | the page starts RUNNING with score 0, the loaded nickname and duration, the whole duration left, and the countdown running |
| `SinglePlayer.Session.Tick` | frontend/src/pages/SinglePlayer.tsx:46-51 | each countdown firing recomputes the remaining time from the start, and the countdown stops exactly when that reaches 0 |
| `SinglePlayer.Session.Restart` | frontend/src/pages/SinglePlayer.tsx:56-59 | as written: score 0, RUNNING and a new countdown, but the remaining time is unchanged, so after a timeout the next canvas frame ends the session again |
| `SinglePlayer.Session.RestartWithFullTime` | frontend/src/pages/SinglePlayer.tsx:56-59 | corrected restart: RUNNING with the whole duration left, so the next frame does not end the session |
| `SinglePlayer.Session.End` | frontend/src/pages/SinglePlayer.tsx:61 | Stop and the canvas end signal set ENDED and stop the countdown |
| `SinglePlayer.Session.ApplyScoreDelta` | frontend/src/pages/SinglePlayer.tsx:140 | the score becomes max(0, score + delta) |
| `SinglePlayer.TimedOutRestartScenario` | frontend/src/pages/SinglePlayer.tsx:56-59 | timing out, ending and playing again yields a session the next frame ends at once |
| `SinglePlayer.TimedOutRestartWithFullTimeScenario` | frontend/src/pages/SinglePlayer.tsx:56-59 | with the corrected restart the same sequence yields a playable session |
| `Leaderboard.Sorted` | frontend/src/game/components/leaderboard/Leaderboard.tsx:15-17 | the leaderboard order is a permutation of the players with non-increasing scores |
| `Leaderboard.SortedKeepsTies` | frontend/src/game/components/leaderboard/Leaderboard.tsx:16 | players with equal scores keep their room order |
| `Leaderboard.Rows` | frontend/src/game/components/leaderboard/Leaderboard.tsx:32-40 | one row per player in sorted order; ranks are 1..n; a row is marked as the viewer's iff its id is the viewer's address; each row shows the shortened id |
| `RoomLobby.MockAddress` | frontend/src/pages/RoomLobby.tsx:26-33 | the mock address has 42 characters, starts with "0x", and digit i is hex[(7i + 13·seed) mod 16] |
| `RoomLobby.MockAddressDeterministic` | frontend/src/pages/RoomLobby.tsx:26-33 | the mock address is determined by its seed |
| `RoomLobby.BotAddressesDistinct` | frontend/src/pages/RoomLobby.tsx:90-95 | the bots joining as players 2, 3 and 4 get pairwise different addresses |
| `RoomLobby.BotNickname` | frontend/src/pages/RoomLobby.tsx:96 | a bot is named "Player " followed by its one-digit position |
| `RoomLobby.ComputeMyRank` | frontend/src/pages/RoomLobby.tsx:74-78 | the rank is 1 + the first position of the viewer in leaderboard order; None iff the viewer is not in the room |
| `RoomLobby.LeaderboardShowsMyRank` | frontend/src/pages/RoomLobby.tsx:74-78 | the first leaderboard row marked as the viewer's carries the rank the lobby computes, and no row is marked when the rank is None |
| `RoomLobby.RankOneIffTopScore` | frontend/src/pages/RoomLobby.tsx:153-161 | when the viewer is the first player and nobody else has their address, they rank first iff no one has a higher score; ties go to the viewer |
| `RoomLobby.BotDelta` | frontend/src/pages/RoomLobby.tsx:141 | a bot gains 10 iff its sample is below 0.75, else loses 15 |
| `RoomLobby.OpponentScores` | frontend/src/pages/RoomLobby.tsx:137-147 | the viewer's entries are unchanged; every other player's score becomes max(0, score + delta) for its own sample; identities and order are unchanged |
| `RoomLobby.WithMyDelta` | frontend/src/pages/RoomLobby.tsx:182-190 | only the viewer's entries change, to max(0, score + delta) |
| `RoomLobby.Lobby.CanStartGame` | frontend/src/pages/RoomLobby.tsx:199 | the start condition; characterised by `CanStartWhenFull` |
| `RoomLobby.Lobby.CanStartWhenFull` | frontend/src/pages/RoomLobby.tsx:199 | in a valid room the viewer is host, so the game can start iff the phase is LOBBY and four players are present |
| `RoomLobby.Lobby.constructor` | frontend/src/pages/RoomLobby.tsx:45-64 | the room opens in LOBBY, IDLE, with 45 s and the viewer alone as host named "You" |
| `RoomLobby.Lobby.JoinTick` | frontend/src/pages/RoomLobby.tsx:83-105 | a join firing leaves a full room alone; otherwise it appends one bot, which gets the mock address and name for its position and score 0; the room never exceeds four |
| `RoomLobby.Lobby.StartGame` | frontend/src/pages/RoomLobby.tsx:166-169 | starting (only when allowed) moves LOBBY to IN_GAME with the game RUNNING |
| `RoomLobby.Lobby.CountdownTick` | frontend/src/pages/RoomLobby.tsx:110-128 | the remaining time is max(0, 45 - whole elapsed seconds); at 0 the phase and game become ENDED |
| `RoomLobby.Lobby.OpponentTick` | frontend/src/pages/RoomLobby.tsx:133-151 | one opponent firing applies the opponent update |
| `RoomLobby.Lobby.MyScoreDelta` | frontend/src/pages/RoomLobby.tsx:182-190 | while in game (the canvas ignores clicks unless RUNNING, GameCanvas.tsx line 381), a canvas delta updates only the viewer's score |
| `RoomLobby.Lobby.EndGame` | frontend/src/pages/RoomLobby.tsx:174-177 | Exit and the canvas end signal set phase and game to ENDED |
| `RoomLobby.Lobby.WinnerTimeout` | frontend/src/pages/RoomLobby.tsx:153-161 | the winner overlay is shown only after an ENDED game in which the viewer ranks first; `Valid` keeps that invariant for every method |
| `RoomService.LoadRooms` | frontend/src/game/service/roomService.ts:17-26 | the stored array, or the empty list when the key is missing or empty, the text is malformed, or the value is not an array |
| `RoomService.FindRoom` | frontend/src/game/service/roomService.ts:61-64 | the first room with the id; None iff no room has it |
| `RoomService.FindFront` | frontend/src/game/service/roomService.ts:50 | a room put in front is what a lookup of its id finds, even if older rooms share the id |
| `RoomService.RoomStore.CreateRoom` | frontend/src/game/service/roomService.ts:38-54 | the new room has the given id, the owner and visibility copied, the trimmed name and the creation time. It goes in front of the stored list, which grows by one with the older rooms following in order, and looking up its id finds it |
| `RoomService.RoomStore.ListRooms` | frontend/src/game/service/roomService.ts:56-59 | listing returns the stored list unchanged |
| `RoomService.RoomStore.GetRoom` | frontend/src/game/service/roomService.ts:61-64 | a lookup returns the first stored room with the id |
| `RoomService.CreateThenGet` | frontend/src/game/service/roomService.ts:38-64 | after a creation, the lookup of the new id returns the new room and the list is the new room followed by the old list |
| `CreateRoomModal.CanSubmit` | frontend/src/game/components/rooms/CreateRoomModal.tsx:14 | the submit condition; characterised by `SubmittedNameIsTrimmed` and `BlankNameCannotSubmit` |
| `CreateRoomModal.BlankNameCannotSubmit` | frontend/src/game/components/rooms/CreateRoomModal.tsx:14 | a name of white space only is never submitted |
| `CreateRoomModal.SubmittedNameIsTrimmed` | frontend/src/game/components/rooms/CreateRoomModal.tsx:14-22 | a submittable name trims to between 3 characters and its own length, and trimming it again changes nothing |
| `CreateRoomModal.Form.constructor` | frontend/src/game/components/rooms/CreateRoomModal.tsx:10-12 | the dialog starts with an empty name, open visibility and no submission |
| `CreateRoomModal.Form.SetRoomName` | frontend/src/game/components/rooms/CreateRoomModal.tsx:86 | typing replaces the name; the input holds at most 24 characters |
| `CreateRoomModal.Form.Toggle` | frontend/src/game/components/rooms/CreateRoomModal.tsx:107 | the visibility button flips the flag |
| `CreateRoomModal.Form.BeginSubmit` | frontend/src/game/components/rooms/CreateRoomModal.tsx:18-22 | without `canSubmit` nothing happens; otherwise submitting starts and the payload is the trimmed name with the visibility |
| `CreateRoomModal.Form.FinishSubmit` | frontend/src/game/components/rooms/CreateRoomModal.tsx:23-28 | success closes the dialog and resets the name to "" and visibility to open; failure keeps both; submitting always ends |
| `CreateRoomModal.Form.HandleSubmit` | frontend/src/game/components/rooms/CreateRoomModal.tsx:18-29 | the whole submission: no payload and no change without `canSubmit`; otherwise exactly the trimmed-name payload, with the success or failure outcome above |
| `ConnectWalletModal.Label` | frontend/src/wallet/components/ConnectWalletModal.tsx:9-16 | fixed labels for walletconnect, coinbase and injected, tested in that order; otherwise the original, possibly missing, name |
| `ConnectWalletModal.Hint` | frontend/src/wallet/components/ConnectWalletModal.tsx:18-24 | fixed hints for walletconnect, coinbase and injected, tested in that order; the hint is empty iff the name mentions none of the three kinds |
| `ConnectWalletModal.Icon` | frontend/src/wallet/components/ConnectWalletModal.tsx:26-32 | fixed icons for walletconnect, coinbase and injected, tested in that order; the icon is the purse iff the name mentions none of the three kinds |
| `ConnectWalletModal.SortKey` | frontend/src/wallet/components/ConnectWalletModal.tsx:44-50 | injected gives 1, otherwise coinbase gives 2, otherwise walletconnect gives 3, tested in that order; the key is 1 to 3 for offered connectors and 99 exactly for the others |
| `ConnectWalletModal.FilterAllowed` | frontend/src/wallet/components/ConnectWalletModal.tsx:39-42 | keeps exactly the connectors whose lower-cased name mentions injected, coinbase or walletconnect |
| `ConnectWalletModal.FilterAllowedAppend` | frontend/src/wallet/components/ConnectWalletModal.tsx:39-42 | filtering a concatenation filters each part, so the kept connectors stay in the library's order |
| `ConnectWalletModal.FilterAllowedByKey` | frontend/src/wallet/components/ConnectWalletModal.tsx:39-42 | for each of the three keys the filter keeps exactly the library's connectors with that key, in order |
| `ConnectWalletModal.Filtered` | frontend/src/wallet/components/ConnectWalletModal.tsx:38-53 | the offered list is a permutation of the filtered connectors, ordered by key |
| `ConnectWalletModal.FilteredKeepsOrder` | frontend/src/wallet/components/ConnectWalletModal.tsx:52 | for each of the three keys the offered list holds exactly the library's connectors with that key, in the library's order; no other connector is offered |
| `ConnectWalletModal.MissingNameIsEmpty` | frontend/src/wallet/components/ConnectWalletModal.tsx:40 | a missing name acts as "": not offered, no label, empty hint, purse icon |
| `ConnectWalletModal.LabelAndOrderDisagree` | frontend/src/wallet/components/ConnectWalletModal.tsx:12-48 | a name mentioning both walletconnect and injected is labelled WalletConnect but sorted with key 1 |
| `Walletbar.ExpectedChainId` | frontend/src/wallet/service/wagmi.ts:5-8 | the expected chain is Base (8453) iff the network setting is "base", otherwise Base Sepolia (84532) |
| `Walletbar.ShortAddr` | frontend/src/wallet/components/Walletbar.tsx:7-10 | a missing or empty address shows as ""; otherwise the first 6 characters, an ellipsis and the last 4 |
| `Walletbar.WrongChain` | frontend/src/wallet/components/Walletbar.tsx:21 | the wrong-network test; characterised by `WrongChainCases` |
| `Walletbar.WrongChainCases` | frontend/src/wallet/components/Walletbar.tsx:21 | never flagged while disconnected; when connected, flagged iff the chain differs from the expected one |
| `Walletbar.Bar.constructor` | frontend/src/wallet/components/Walletbar.tsx:13 | the dialog starts closed |
| `Walletbar.Bar.OpenDialog` | frontend/src/wallet/components/Walletbar.tsx:27 | the Connect Wallet button opens the dialog |
| `Walletbar.Bar.CloseDialog` | frontend/src/wallet/components/Walletbar.tsx:41 | the dialog's close callback closes it |

## Left out

- Canvas drawing: gradients, stars, item sprites, text rendering, and the
  resize and device-pixel-ratio effect (pixel output). The arena width and
  height a frame or click uses are parameters.
- Scheduling: `requestAnimationFrame`, intervals, timeouts and React effects.
  Each firing is an explicit method call with its timestamp. React's batching
  of state updates and the relative order of effects are not modelled.
- Randomness and identifiers:
  - `Math.random()` samples and `crypto.randomUUID()` ids are parameters.
  - The base-36 format of `generateRoomId` is not modelled; the room id is a
    parameter.
  - The winner overlay's random id is not modelled.
- Floating point: all canvas arithmetic is exact real arithmetic. IEEE-754
  rounding and `Math.pow` precision are not modelled.
- Storage and JSON:
  - `localStorage`, `JSON.parse` and `JSON.stringify` are replaced by maps
    from keys to parsed values.
  - An array stored under the rooms key is taken to hold rooms; the source
    casts it without checking.
- Unicode:
  - `trim` removes only ASCII white space, and `toLowerCase` lower-cases only
    ASCII letters.
  - `slice(0, 16)` and the inputs' `maxLength` (`Home.tsx` line 90,
    `CreateRoomModal.tsx` line 86) count UTF-16 code units. `SliceHead` and the
    `Valid` length bounds count Unicode scalar values, so they differ for
    characters outside the Basic Multilingual Plane.
- Home.LoadConfig: a nickname stored as a JSON array is not modelled. Its own
  `slice` succeeds, so the source loads the array itself as the nickname, which a
  string-typed configuration cannot hold. Numbers, `true` and plain objects have
  no `slice`, throw, and give the defaults, as modelled.
- Wallet library: the connector list, `connect`, the chain id, the connection
  state and the network setting are parameters. Switching chain, disconnecting,
  the connected branch of the wallet bar, and copying the room link are not
  modelled.
- Presentation only: the winner overlay component, its close button, asset
  loading, navigation, routing, the layout and the player row component.
- Asynchrony: the room service's promises are modelled as synchronous calls.
  The room dialog's `open` prop, which hides the dialog without resetting it,
  is not modelled.
- GameCanvas.Runtime.Click: the source reads `performance.now()` separately
  for every item it tests and for the floating text it adds. The model uses one
  `now` for the whole click.
- GameCanvas.Runtime.Frame: the overlay bound (at most 1) is proved only for
  frames whose timestamp is not earlier than the previous one. The first frame
  after a reset compares an animation timestamp with a `performance.now()`
  reading, and that delta can be negative. For this reason `Valid` keeps only
  overlay >= 0.

## Findings

| source | as written | input that shows it | evidently intended | confidence | as-written member | corrected member |
|---|---|---|---|---|---|---|
| frontend/src/pages/SinglePlayer.tsx:56-59 | "Play again" resets the score and sets RUNNING but leaves the remaining time as it was | a session whose countdown reached 0 and was ended, then "Play again": on the canvas's first frame (about 16 ms) the status is RUNNING with 0 seconds left, before the first countdown firing (200 ms), so the canvas ends the new session immediately | restarting starts a session with the whole duration left | high; not executed | `SinglePlayer.TimedOutRestartScenario` | `SinglePlayer.Session.RestartWithFullTime` |
