# Tactics board: a Dafny model

This project models the core of a football tactics-board app (React Native, TypeScript) and proves properties of it. The app lets a coach:

- place home and away player tokens and a ball on a pitch;
- lay them out in a formation;
- draw freehand strokes over the board, with undo and redo;
- pick tokens and strokes by touch;
- manage saved teams with rosters;
- set a board up through a setup screen;
- list the boards saved on the device.

Modules, one per source file (or per pair of files that share a concept):

- `Basics`, `Strings`, `Sorting`: the Option/Result types, JavaScript's `trim` and `${n}`, and a stable insertion sort standing for `Array.prototype.sort`.
- `BoardTypes`, `TeamTypes`: tokens, strokes, snapshots, players and teams.
- `Formations`: the formation tables and the token generators shared by `src/utils/helpers.ts` and `src/hooks/useFormationHelpers.ts`.
- `Proximity`: reference definitions of "inside the selection circle" and "nearest, earliest on ties".
- `Helpers`: `src/utils/helpers.ts`.
- `FormationHooks`: `src/hooks/useFormationHelpers.ts`.
- `History`: `src/hooks/useHistory.ts`, as the class `HistoryStore`.
- `BoardState`, `Drawing`, `PlayerMovement`: the three board hooks, as classes.
- `TeamService`: `src/services/teamService.ts`, with the stored team list as a class field.
- `TeamEdit`: `src/screens/TeamEditScreen.tsx`.
- `SetupWizard`: `src/screens/TeamSetupScreen.tsx`.
- `SetupForm`: `src/screens/TeamSetupScreen/index.tsx`.
- `SvgOverlay`: `src/components/board/SvgOverlay.tsx`.
- `HomeScreen`: `src/screens/HomeScreen.tsx`.

Hooks and screens that keep state are classes whose methods reassign their fields. The pure helpers are functions, with lemmas relating them to reference definitions. Token coordinates are reals, and distances are compared squared. Where the source compares square roots against the radius, the model compares squares, which picks the same tokens and strokes.

Some inputs are parameters of the model:

- the clock (`now`);
- the random id of a stroke (`id`);
- the board size (`Dims`);
- JavaScript's number-to-string (`fmt`);
- the locale date (`localeDate`);
- device storage, a map from key to value, with the order of its key listing.

## Model

| member | source | states |
|---|---|---|
| Strings.Trim | src/services/teamService.ts:30 | `trim` removes exactly the leading and trailing whitespace: the result is a slice of the input flanked by whitespace only, and it neither starts nor ends with whitespace. It is empty iff the input is all whitespace. |
| BoardTypes.TokenIdInjective | src/utils/helpers.ts:430 | Generated ids `${side}-${i+1}` are distinct within a side. |
| BoardTypes.UpdateByIdSpec | src/hooks/usePlayerMovement.ts:16-21 | The map-by-id update keeps length, order, ids and sides. It changes exactly the tokens carrying the id, and only the edited field. It is the identity when no token has the id. |
| Sorting.SortBySorted | src/utils/helpers.ts:546 | The sort's result is ordered by the key and is a permutation of its input. |
| Sorting.SortByStable | src/utils/helpers.ts:546 | The sort is stable: the entries with equal key keep their input order. |
| Formations.DynamicFormationShape | src/utils/helpers.ts:233-400 | `generateDynamicFormation(n)` has n positions per side for 3..10 and the 11-entry free table otherwise. The away table mirrors the home table about the halfway line. |
| Formations.TacticalTableShape | src/utils/helpers.ts:19-231 | Every tactical table has 11 positions per side. All except the set piece are mirrored. |
| Formations.SetPieceNotMirrored | src/utils/helpers.ts:200-230 | The set-piece table is the one table that is not a mirror image. |
| Formations.PositionalPlayersShape | src/utils/helpers.ts:422-436 | A generated side has exactly `count` tokens, with ids `side-(i+1)` and labels `i+1`, pairwise distinct. Token i stands on table entry i, or on the last entry once the table runs out. |
| Formations.InitialPlayersShape | src/utils/helpers.ts:5-15 | `initialPlayers` gives `count` tokens in the side's column (a quarter or three quarters of the width). They run from 8% to 92% of the height. |
| Formations.ApplyFormationFrame | src/utils/helpers.ts:473-510 | Re-applying a formation keeps length, order and every field but the coordinates. The ball is unchanged, and so is the whole list for an unknown tactic. |
| Formations.ApplyFormationPlacement | src/utils/helpers.ts:484-509 | A home or away token moves to the table entry at its index among its side's tokens, and stays put past the table's end. |
| Formations.PlacedSpec | src/utils/helpers.ts:497-508 | A token of a side is found among that side's tokens. It moves to the entry at that index when the table is long enough, and keeps its place otherwise. |
| Helpers.ConfigLayoutChoice | src/utils/helpers.ts:408-420 | The named table is used exactly for 11 players and a known tactic; otherwise the dynamic table is used. |
| Helpers.LineupOnShape | src/utils/helpers.ts:402-470 | `createPlayersFromConfig` builds `playerCount` home tokens, away tokens only for both teams, and the ball at the tactic's ball position. |
| Helpers.ApplyTacticalFormation | src/utils/helpers.ts:473-510 | Only coordinates change. The ball and an unknown tactic leave tokens unchanged. The length is kept. |
| Helpers.TouchAreaSpec | src/utils/helpers.ts:521-553 | For a finite point, the touch area holds exactly the tokens strictly inside the 16-pixel circle, with multiplicity. It is ordered nearest first, with ties in input order. It is empty for a non-finite point or no tokens. |
| Helpers.NextInAreaSpec | src/utils/helpers.ts:556-580 | The choice is null iff the area is empty. It is always a token of the area, and the nearest one when the current selection is not in the area. |
| Helpers.NextInAreaStep | src/utils/helpers.ts:568-579 | With distinct ids, a tap while area[k] is selected selects area[k+1], wrapping round. |
| Helpers.TapsCycle | src/utils/helpers.ts:568-579 | m repeated taps from area[k] select area[(k+m) mod n]. |
| Helpers.TapsReturn | src/utils/helpers.ts:568-579 | After n taps the selection is back where it started. |
| Helpers.TapsReachAll | src/utils/helpers.ts:568-579 | Every token of the area is reached within n taps. |
| Helpers.SortedHeadIsNearest | src/utils/helpers.ts:588-589 | The head of the distance-sorted area is the earliest nearest token in the circle. |
| Helpers.FindNearestPlayerSpec | src/utils/helpers.ts:583-590 | `findNearestPlayer` is null iff no token is within the radius (or the point is not finite). Otherwise it is the nearest token, earliest on ties. |
| Helpers.FindNearestStroke | src/utils/helpers.ts:620-669 | The double loop returns null iff no stroke with a segment passes strictly within the radius. Otherwise it returns the stroke of the nearest segment, the earliest stroke on ties. A non-finite point gives null. |
| Proximity.WithinRadius | src/utils/helpers.ts:538-545 | The filter keeps exactly the tokens strictly inside the circle, as a sub-multiset in order. |
| Proximity.NearestSpec | src/utils/helpers.ts:583-590 | The reference nearest token is None iff no token is inside the circle, and otherwise the token at the unique earliest nearest index. |
| Proximity.EarliestNearestUnique | src/utils/helpers.ts:583-590 | At most one index is the earliest nearest. |
| Proximity.Clamp01 | src/utils/helpers.ts:609-612 | The projection parameter lies in [0, 1]: it is 0 for a quotient below 0, 1 for a quotient above 1, and the quotient itself in between. |
| Proximity.SegMinIsMinimum | src/utils/helpers.ts:642-662 | A stroke's distance is the least of its segments' distances and is attained by one of them. |
| Proximity.NearestStrokeUnique | src/utils/helpers.ts:620-669 | At most one stroke is the nearest. |
| FormationHooks.SideTableChoice | src/hooks/useFormationHelpers.ts:461-475 | Each side's table depends on its own count and tactic only: the hook's named table for 11 players and one of its five tactics, else the dynamic table. |
| FormationHooks.SyncLineupShape | src/hooks/useFormationHelpers.ts:447-514 | The synchronous lineup has `homePlayerCount` home tokens, `awayPlayerCount` away tokens only for both teams, and the centred ball. |
| FormationHooks.TeamPlayersLabels | src/hooks/useFormationHelpers.ts:391-411 | With a roster, token i carries the team id and player i's id. Its label is player i's display name if non-empty, else the name, else `i+1`. Past the roster only the team id is set. |
| FormationHooks.TeamLineupWithoutTeams | src/hooks/useFormationHelpers.ts:382-444 | Without rosters, the async builder gives the synchronous lineup on any tables. |
| FormationHooks.CreatePlayersWithoutTeams | src/hooks/useFormationHelpers.ts:350-514 | With no team found, `createPlayersFromConfig` equals `createPlayersFromConfigSync`. |
| FormationHooks.ApplyTacticalFormation | src/hooks/useFormationHelpers.ts:517-553 | Only coordinates change. The ball and a tactic the hook lacks leave tokens unchanged. |
| FormationHooks.FoldIsMerge | src/hooks/useFormationHelpers.ts:578-590 | The reduce equals merging its accumulator with the earliest nearest token of the list. |
| FormationHooks.FindNearestPlayerSpec | src/hooks/useFormationHelpers.ts:566-597 | The hook's version is null for no tokens, a non-finite point or nothing in range. Otherwise it is the nearest token, earliest on ties. |
| FormationHooks.NearestPlayerVersionsAgree | src/hooks/useFormationHelpers.ts:566-597 | With radius 16, the hook's strict-minimum reduce and helpers' sort-then-head pick the same token. |
| History.WithoutStrokeSpec | src/hooks/useHistory.ts:100-107 | DELETE_STROKE keeps exactly the strokes whose id differs, and is the identity when none matches. |
| History.WithoutStrokeAppend | src/hooks/useHistory.ts:100-107 | The stroke filter keeps order, since it distributes over concatenation. |
| History.ReduceIgnored | src/hooks/useHistory.ts:82-138 | An action pushes no state exactly when it is a label edit on the ball or an unknown action. |
| History.ReduceStrokes | src/hooks/useHistory.ts:47-52 | DRAW_STROKE appends the stroke, DELETE_STROKE filters. Tokens are untouched. |
| History.ReducePlayerAction | src/hooks/useHistory.ts:54-135 | MOVE, LABEL and ROTATE on a player edit only the side that holds the id (home first), and leave the ball and strokes alone. |
| History.ReduceBallAction | src/hooks/useHistory.ts:54-135 | MOVE and ROTATE on "ball" edit only the ball. |
| History.HistoryStore.constructor | src/hooks/useHistory.ts:23-31 | One initial snapshot, cursor 0, nothing to undo or redo. |
| History.HistoryStore.PushState | src/hooks/useHistory.ts:35-40 | Drops the redo tail, appends the state, and moves the cursor to it. |
| History.HistoryStore.ApplyAction | src/hooks/useHistory.ts:42-142 | Pushes the reduced snapshot, or changes nothing when the action is ignored. |
| History.HistoryStore.Undo | src/hooks/useHistory.ts:144-148 | Moves the cursor back by one unless it is at 0. The history is unchanged. |
| History.HistoryStore.Redo | src/hooks/useHistory.ts:150-154 | Moves the cursor forward by one unless it is at the end. |
| History.HistoryStore.Reset | src/hooks/useHistory.ts:156-165 | Back to the single initial snapshot. |
| History.HistoryStore.LoadState | src/hooks/useHistory.ts:167-170 | The loaded snapshot becomes the whole history. |
| History.HistoryStore.UndoThenRedo | src/hooks/useHistory.ts:144-154 | Undo followed by redo restores the cursor and history. |
| History.HistoryStore.ApplyThenUndo | src/hooks/useHistory.ts:42-148 | Undo after an effective action shows the previous snapshot again and enables redo. |
| History.HistoryStore.ApplyAllThenUndo | src/hooks/useHistory.ts:35-148 | Undoing as many times as states were pushed returns to the starting snapshot. |
| BoardState.Board.constructor | src/hooks/useBoardState.ts:5-8 | A fresh history, no stroke being drawn, nothing selected. |
| BoardState.Board.StartDrawing | src/hooks/useBoardState.ts:11-14 | Starts an id-less stroke holding the one point. |
| BoardState.Board.UpdateDrawing | src/hooks/useBoardState.ts:16-23 | Appends the point to the stroke being drawn, if any. |
| BoardState.Board.FinishDrawing | src/hooks/useBoardState.ts:25-33 | Commits a DRAW_STROKE to the history exactly when the stroke has more than one point, then clears it. |
| BoardState.Board.MovePlayer | src/hooks/useBoardState.ts:36-43 | Pushes the snapshot with the ball or the owning side's token moved. |
| BoardState.Board.UpdatePlayerLabel | src/hooks/useBoardState.ts:46-53 | Pushes the relabelled snapshot, or nothing for the ball. |
| BoardState.Board.LoadFromData | src/hooks/useBoardState.ts:56-64 | The loaded board becomes the whole history, and the selection is cleared. |
| BoardState.Board.SetSelectedId | src/hooks/useBoardState.ts:80 | The exported setter, wired to the board screen's player-select callback, sets the selection and leaves the stroke in progress and the history alone. |
| BoardState.Board.AllPlayers | src/hooks/useBoardState.ts:67 | Home, away, then the ball: every token of the current snapshot, and only those. |
| Drawing.StrokeEditor.constructor | src/hooks/useDrawing.ts:4-7 | No strokes, empty redo stack, no stroke in progress. |
| Drawing.StrokeEditor.StartDrawing | src/hooks/useDrawing.ts:9-18 | Starts a stroke with the given id and clears the redo stack. |
| Drawing.StrokeEditor.UpdateDrawing | src/hooks/useDrawing.ts:20-27 | Appends the point to the stroke in progress, if any. |
| Drawing.StrokeEditor.FinishDrawing | src/hooks/useDrawing.ts:29-36 | Commits the stroke exactly when it has more than one point, then clears it. |
| Drawing.StrokeEditor.Undo | src/hooks/useDrawing.ts:38-45 | Moves the last stroke onto the redo stack; no stroke is lost. |
| Drawing.StrokeEditor.Redo | src/hooks/useDrawing.ts:47-54 | Moves the top of the redo stack back onto the strokes. |
| Drawing.StrokeEditor.UndoThenRedo | src/hooks/useDrawing.ts:38-54 | Undo followed by redo restores both stacks. |
| Drawing.StrokeEditor.ClearStrokes | src/hooks/useDrawing.ts:56-60 | Empties strokes, redo stack and the stroke in progress. |
| Drawing.StrokeEditor.SetStrokesFromData | src/hooks/useDrawing.ts:62-66 | Replaces the strokes and clears the redo stack and the stroke in progress. |
| PlayerMovement.Mover.constructor | src/hooks/usePlayerMovement.ts:7-10 | Eleven initial tokens per side and the centred ball. |
| PlayerMovement.Mover.MovePlayer | src/hooks/usePlayerMovement.ts:12-23 | Moves the ball, or the tokens with the id on both sides. |
| PlayerMovement.Mover.UpdatePlayerLabel | src/hooks/usePlayerMovement.ts:25-33 | Relabels the tokens with the id on both sides. The ball is never relabelled. |
| PlayerMovement.Mover.ResetPlayers | src/hooks/usePlayerMovement.ts:35-40 | Back to the initial tokens and ball. |
| PlayerMovement.Mover.SetPlayersFromData | src/hooks/usePlayerMovement.ts:42-51 | Replaces both sides and the ball. |
| PlayerMovement.Mover.SetSelectedId | src/hooks/usePlayerMovement.ts:61 | The exported setter sets the selection and leaves both sides and the ball alone. |
| PlayerMovement.Mover.AllPlayers | src/hooks/usePlayerMovement.ts:53 | Home, away, then the ball. |
| PlayerMovement.MoverEditsBothSides | src/hooks/usePlayerMovement.ts:16-21 | For an id held on both sides, a move here reaches the token on each side, while the history reducer's snapshot moves the home token and keeps the away side as it was. |
| TeamService.FreshPlayerIdInjective | src/services/teamService.ts:29 | Ids minted at one instant differ by index. |
| TeamService.MigratePlayerDataSpec | src/services/teamService.ts:17-32 | Migration keeps count and order. Names become trimmed players with pairwise distinct ids. Stored players come back unchanged. |
| TeamService.MigrateIdempotent | src/services/teamService.ts:17-32 | Migrating migrated data changes nothing. |
| TeamService.NewTeamSpec | src/services/teamService.ts:75-97 | A new team has the trimmed name and one player per input, in order, with distinct ids. Its creation and update times are `now`. |
| TeamService.UpdatedTeamSpec | src/services/teamService.ts:110-128 | The update keeps id and creation time and stamps `now`. It takes the trimmed name unless the name is absent or blank. |
| TeamService.UpdatedPlayersSpec | src/services/teamService.ts:115-125 | With no players given, the players are kept. Otherwise each is rebuilt in order: it keeps the stored id when the entered name equals the stored name at that index and the id is non-empty, and otherwise gets a fresh id. |
| TeamService.TeamIndex | src/services/teamService.ts:105 | `findIndex`: -1 iff no team has the id, else the first index that does. |
| TeamService.FindTeam | src/services/teamService.ts:147-150 | None iff no team has the id, else the first such team. |
| TeamService.WithoutTeamSpec | src/services/teamService.ts:138-142 | Deleting keeps exactly the teams with other ids, and changes nothing when none matches. |
| TeamService.WithoutTeamAppend | src/services/teamService.ts:138-142 | Deleting keeps order. |
| TeamService.TeamStore.CreateTeam | src/services/teamService.ts:75-97 | Appends the new team at the end and returns it. |
| TeamService.TeamStore.UpdateTeam | src/services/teamService.ts:102-133 | An unknown id is an error and writes nothing. Otherwise the first matching team is replaced in place by its update, which is returned. |
| TeamService.TeamStore.DeleteTeam | src/services/teamService.ts:138-142 | The stored list becomes the filtered list. |
| TeamEdit.SetSizeDistinct | src/screens/TeamEditScreen.tsx:101-104 | A list has as many distinct values as entries iff no value repeats. |
| TeamEdit.NumbersOfSpec | src/screens/TeamEditScreen.tsx:102 | The collected numbers repeat iff two players carry the same present, non-zero number. |
| TeamEdit.ValidNumbersSpec | src/screens/TeamEditScreen.tsx:101-104 | `validatePlayerNumbers` holds iff no two players share a counted number. Missing numbers and 0 are ignored. |
| TeamEdit.SaveCheckSpec | src/screens/TeamEditScreen.tsx:130-163 | Saving is refused for a blank name first, then an empty roster, then repeated numbers. Otherwise a create or update request (update iff editing) carries the trimmed name and the roster. |
| TeamEdit.AsInputs | src/screens/TeamEditScreen.tsx:48-53 | The loaded roster, rebuilt with each player's id, is the stored roster with trimmed names. |
| TeamEdit.TeamEditor.constructor | src/screens/TeamEditScreen.tsx:32-34 | Empty name, roster and input field. |
| TeamEdit.TeamEditor.LoadTeam | src/screens/TeamEditScreen.tsx:40-62 | A found team's name and players are loaded. A missing team changes nothing. |
| TeamEdit.TeamEditor.AddPlayer | src/screens/TeamEditScreen.tsx:67-87 | Refuses a blank name, then a duplicate trimmed name, changing nothing. Otherwise it appends one player with the trimmed name and clears the field. |
| TeamEdit.TeamEditor.UpdatePlayer | src/screens/TeamEditScreen.tsx:92-96 | Only the named field of the indexed player changes. |
| TeamEdit.TeamEditor.RemovePlayer | src/screens/TeamEditScreen.tsx:109-125 | Removes the indexed player and keeps the order. An index past the end removes nothing. |
| TeamEdit.AddKeepsNamesDistinct | src/screens/TeamEditScreen.tsx:67-87 | Adding a name not yet on a roster of distinct names keeps the names distinct. |
| SetupWizard.SectionsNest | src/screens/TeamSetupScreen.tsx:180-253 | The start button implies the tactic section, which implies the count section. The confirm button shows only without the tactic section. |
| SetupWizard.TacticalOptions | src/screens/TeamSetupScreen.tsx:35-48 | Seven tactics for eleven a side, else free and set piece. |
| SetupWizard.TacticalOptionsKnown | src/screens/TeamSetupScreen.tsx:35-48 | Every offered tactic has a table, and none is offered twice. |
| SetupWizard.Wizard.constructor | src/screens/TeamSetupScreen.tsx:55-60 | Team step, both teams, 11 players, free. |
| SetupWizard.Wizard.SelectTeam | src/screens/TeamSetupScreen.tsx:68-75 | Stores the selection and goes to the count step. |
| SetupWizard.Wizard.SelectPlayerCount | src/screens/TeamSetupScreen.tsx:77-86 | Stores the count, and advances only from the count step. |
| SetupWizard.Wizard.ConfirmPlayerCount | src/screens/TeamSetupScreen.tsx:88-94 | Goes to the tactic step. |
| SetupWizard.Wizard.SelectTactic | src/screens/TeamSetupScreen.tsx:96-99 | Stores the tactic and completes. |
| SetupWizard.ConfirmedDefaultFlow | __tests__/TeamSetupScreen.test.tsx:85-98 | After choosing both teams and confirming, the tactic section shows the seven options and no start button. |
| SetupForm.WrittenInitialShowsAway | src/screens/TeamSetupScreen/index.tsx:47-62 | As written, the initial config disagrees with the switch being off, and `createPlayersFromConfigSync` of it gives 11 away tokens. |
| SetupForm.InitialConfigShowsNoAway | src/screens/TeamSetupScreen/index.tsx:47-62 | The corrected initial config agrees with the switch, and `createPlayersFromConfigSync` of it gives 11 home tokens and no away tokens. |
| SetupForm.Form.constructor | src/screens/TeamSetupScreen/index.tsx:47-62 | The screen's start as written: both teams selected with the away switch off, so the selection and the switch disagree. |
| SetupForm.Form.ToggleAway | src/screens/TeamSetupScreen/index.tsx:84-100 | Off clears the away team and selects home only. On selects both teams. The selection keeps agreeing with the switch. |
| SetupForm.Form.SelectHomeTeam | src/screens/TeamSetupScreen/index.tsx:80-82 | Sets the home team id only, from any state. The switch is untouched, so the selection agrees with it afterwards exactly when it did before. |
| SetupForm.Form.SelectAwayTeam | src/screens/TeamSetupScreen/index.tsx:102-104 | Sets the away team id only, from any state. The switch is untouched, so the selection agrees with it afterwards exactly when it did before. |
| SetupForm.Form.SetHomeCount | src/screens/TeamSetupScreen/index.tsx:106-108 | Sets the home count only, from any state. The switch is untouched, so the selection agrees with it afterwards exactly when it did before. |
| SetupForm.Form.SetAwayCount | src/screens/TeamSetupScreen/index.tsx:110-112 | Sets the away count only, from any state. The switch is untouched, so the selection agrees with it afterwards exactly when it did before. |
| SetupForm.Form.SetHomeTactic | src/screens/TeamSetupScreen/index.tsx:151-156 | Sets the home tactic only, from any state. The switch is untouched, so the selection agrees with it afterwards exactly when it did before. |
| SetupForm.Form.SetAwayTactic | src/screens/TeamSetupScreen/index.tsx:191-196 | Sets the away tactic only, from any state. The switch is untouched, so the selection agrees with it afterwards exactly when it did before. |
| SetupForm.AwayTokensFollowSwitch | src/screens/TeamSetupScreen/index.tsx:84-100 | With an agreeing config, `createPlayersFromConfigSync` gives away tokens exactly when the switch is on. |
| SvgOverlay.StrokeToPath | src/components/board/SvgOverlay.tsx:11-22 | The loop builds exactly the path of the stroke's points. |
| SvgOverlay.PathOfShape | src/components/board/SvgOverlay.tsx:11-22 | The path is empty iff there are no points. Otherwise it starts with the move to the first point and holds one `M` and n-1 `L` commands. |
| SvgOverlay.PathOfAppend | src/components/board/SvgOverlay.tsx:17-19 | Appending a point appends exactly its line command. |
| SvgOverlay.SegmentsCounts | src/components/board/SvgOverlay.tsx:17-19 | The line commands hold one `L` per point and no `M`. |
| SvgOverlay.HighlightAsWrittenWithoutSelection | src/components/board/SvgOverlay.tsx:28-37 | As written, with the prop left out, an id-less stroke is drawn gold and dashed. |
| SvgOverlay.SelectionHighlightsChosenId | src/components/board/SvgOverlay.tsx:28-37 | Corrected: a stroke is highlighted iff an id was chosen and it carries it. Otherwise it keeps its own style. |
| SvgOverlay.SelectionRulesAgreeWhenPassed | src/components/board/SvgOverlay.tsx:28 | The two rules agree whenever a selection (or null) is passed. |
| HomeScreen.CollectedSpec | src/screens/HomeScreen.tsx:30-39 | Only boards under `board_` keys are read, and every board stored under a listed `board_` key is read. |
| HomeScreen.BoardList.constructor | src/screens/HomeScreen.tsx:21 | No boards listed; storage as given. |
| HomeScreen.BoardList.LoadSavedBoards | src/screens/HomeScreen.tsx:27-47 | The loop collects, in key order, the board under each prefixed key that holds data. The list is then sorted newest first. Storage is unchanged. |
| HomeScreen.LoadedOrder | src/screens/HomeScreen.tsx:42 | The list is newest first and a permutation of the collected boards. Equal timestamps keep key order. |
| HomeScreen.SortedNewestFirst | src/screens/HomeScreen.tsx:42 | A list sorted by the negated timestamp has every earlier board at least as recent as every later one. |
| HomeScreen.BoardList.DeleteBoard | src/screens/HomeScreen.tsx:63-83 | Removes the board's storage key and keeps the listed boards with other ids. |
| HomeScreen.WithoutBoardMembers | src/screens/HomeScreen.tsx:75 | Deleting keeps exactly the boards with other ids. |
| HomeScreen.WithoutBoardOrder | src/screens/HomeScreen.tsx:75 | Deleting from a newest-first list leaves it newest first. |
| HomeScreen.FormatDateSpec | src/screens/HomeScreen.tsx:85-96 | "Just now" below one hour, the future included. h hours for 1..23 whole hours, d days for 1..6 whole days, the date from seven days on. |

## Left out

- Device storage is asynchronous and can fail. The model has neither, and does not model JSON parse errors or the `try`/`catch` fallbacks that log and return defaults.
- The data-version migration on load (`migrateDataIfNeeded`, `getDataVersion`) and `loadTeams`' migration of each stored team are left out. `MigratePlayerData` is the per-team step they apply.
- `getTeamById` is asynchronous, and `createPlayersFromConfig` awaits it. The model passes in the team it resolves to (`FindTeam` models the lookup).
- React's state batching, stale closures and re-renders are not modelled. Each handler runs to completion on the current state.
- Animations, layout, styles other than the stroke highlight, navigation, i18n and the `Alert` dialogs are left out. Deletions and removals model only the confirmed branch.
- `Math.sqrt`, IEEE-754 rounding, NaN and ±Infinity inside arithmetic are not modelled. Distances are compared squared on reals. A gesture coordinate is finite or not (`JsNumber`), and the source's `typeof` checks on stored point coordinates are left out: points always carry numbers.
- `Date.now()`, `Math.random()`, `toLocaleDateString` and JavaScript's number-to-string are parameters (`now`, the stroke `id`, `localeDate`, `fmt`).
- The window size behind the board dimensions is the parameter `Dims`.
- `SavedBoard` carries id, name and timestamp only; the saved board's drawing data and metadata are not modelled. A legacy roster is either all names or all player records; a mixed array is not modelled.
- Formations.InitialPlayers: requires a count other than 1. The source divides zero by zero there (a NaN coordinate), and every caller passes 11.
- Proximity.SegmentDistance2: divides through `Quotient`, which gives 0 for a zero divisor. The source divides only by the squared length of a segment that is not a single point, but the model does not prove that this divisor is positive, so `Quotient` stands in for real division without a lemma equating the two.
- TeamEdit.TeamEditor.UpdatePlayer: requires an index inside the roster. The screen only calls it from a rendered row.
- History.HistoryStore.ApplyAllThenUndo: counts pushed states, not actions, because an ignored action pushes nothing.

## Findings

| source | as written | input that shows it | evidently intended | confidence | as-written member | corrected member |
|---|---|---|---|---|---|---|
| src/components/board/SvgOverlay.tsx:28 | `stroke.id === selectedStrokeId`, while src/components/board/TacticsBoard.tsx:30-31 never passes `selectedStrokeId` | A stroke committed through the board wrapper, which has no id, with the prop left out: undefined === undefined, so it is drawn gold and dashed | Highlight a stroke only when an id was chosen and the stroke carries it | not executed | SvgOverlay.HighlightAsWrittenWithoutSelection | SvgOverlay.SelectionHighlightsChosenId |
| src/screens/TeamSetupScreen/index.tsx:47-62 | The initial `teamSelection` is `both-teams` while the away-team switch starts off | Open the screen and continue at once: the switch shows no away team, but the config handed to the board screen selects both teams, and `createPlayersFromConfigSync` of it has 11 away tokens. No screen reads that config today (the board screen takes only `boardId`), so the disagreement is latent | Start with `home-only`, in agreement with the switch, as the toggle handler keeps it | not executed | SetupForm.WrittenInitialShowsAway | SetupForm.InitialConfigShowsNoAway |
