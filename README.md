# Live leaderboard: a Dafny model of its data path

The leaderboard has two browser front ends over one realtime collection,
`teams`, of records `{name, score}` keyed by a store-assigned id.

- The **public board** (`app.js`, class `Leaderboard`) listens to the
  collection. On every snapshot it turns the records into a list of teams,
  with a missing or falsy score read as 0. It sorts them by score, highest
  first, and renders a flat table in which row *i* has rank *i + 1* and ranks
  1 to 3 carry a gold, silver or bronze medal. A null snapshot, and a present
  but empty one, render the empty state. A listener error renders the error
  state and keeps the cached teams.
- The **admin console** (`admin.js`, class `AdminPanel`) keeps the same
  normalised list, unsorted, in the store's order. From it, it lists the
  teams in two selects (after a placeholder) and as cards (or an empty
  message). It validates the add, update-score and delete forms and issues
  at most one store request per submission. An update writes the cached
  score plus the entered delta in increment mode, or the entered value in
  absolute mode. The mode comes from a checkbox, else from a saved
  preference, else defaults to increment. An `isAuthenticated` flag follows
  the session observer and successful sign-ins and sign-outs.

The model has five modules, one per file:

- `Wrappers` (`wrappers.dfy`): `Option`.
- `Teams` (`teams.dfy`): the record and snapshot shapes, and the
  normalisation that both front ends apply. That normalisation is identical
  code at `app.js:24-28` and `admin.js:123-127`.
- `PublicBoard` (`leaderboard.dfy`): the ranking, the rows, the medals, the
  display states and the `Leaderboard` class.
- `Text` (`text.dfy`): `String.prototype.trim`.
- `AdminConsole` (`admin.dfy`): the cache and its listings, the handlers, the
  increment-mode preference, the session flag and the `AdminPanel` class.

External inputs are parameters of the model:

- A snapshot is `Option<seq<Entry>>`, with `None` for a null
  `snapshot.val()`. The entries come in the order `Object.entries` gives.
- A parsed number is an `Option<int>`, with `None` for `NaN`.
- The outcome of a sign-in or sign-out call is a `bool`, and so is the
  operator's answer to the delete confirmation.
- The checkbox is an `Option<bool>` (absent or checked state), and the
  saved preference is an `Option<string>`.

Each handler returns the request it would issue, as an `Outcome`:

- `Rejected(reason)`: the alert category, with nothing written.
- `Write(id, score)`: an update of `teams/<id>` that touches only `score`.
- `Create(name, score)`: a push of a new record holding exactly these two
  fields.
- `Remove(id)`: a removal of `teams/<id>`.
- `NoOp`: the delete confirmation was declined.

`app.js` renders one flat table, with medals on ranks 1 to 3; there is no
separate top-3 group and no second list.

## Model

| member | source | states |
|---|---|---|
| Teams.Normalize | app.js:24-28 | one team per snapshot entry, in the entry order, with the key as id, the name unchanged and the score defaulted to 0 |
| Teams.NormalizeStored | app.js:24-28 | a record written as `{name, score}` under an id normalises back to exactly that team (normalisation inverts storing) |
| Teams.NormalizeKeys | app.js:24-28 | the ids of the normalised list are exactly the snapshot's keys, and distinct keys give distinct ids |
| PublicBoard.InsertPermutes | app.js:31 | placing one team into a ranked list adds exactly that team |
| PublicBoard.InsertSorted | app.js:31 | placing one team into a list sorted by score keeps it sorted |
| PublicBoard.RankPermutes | app.js:31 | the sorted list is a permutation of the normalised records |
| PublicBoard.RankSorted | app.js:31 | the sorted list is non-increasing by score for every pair of positions |
| PublicBoard.RankByScoreSpec | app.js:31 | sorting keeps the length, permutes, and orders every adjacent pair x, y with x.score >= y.score |
| PublicBoard.RankByScore | app.js:31 | the ranking has one entry per input team; its order and contents are stated by RankByScoreSpec |
| PublicBoard.RankKeepsSorted | app.js:21-33 | re-sorting a list that is already ranked leaves it unchanged |
| PublicBoard.MedalFor | app.js:93-104 | rank 1 gives gold, rank 2 silver, rank 3 bronze, and every other rank no medal (each if and only if) |
| PublicBoard.RankedRows | app.js:52-66 | one row per ranked team, in order, with row i at rank i + 1 showing that team's name and score and the medal of rank i + 1 |
| PublicBoard.MedalsOnFirstThreeRanks | app.js:52-54 | exactly min(3, n) rows carry a medal, namely the first three |
| PublicBoard.ViewEmptyIff | app.js:22-49 | the board ends in the empty state if and only if the snapshot is null or has no entry, and a snapshot never leaves it loading or in error |
| PublicBoard.ViewTable | app.js:23-53 | a non-empty snapshot gives a table with one row per entry, ranks 1..n, scores non-increasing, built from a permutation of the normalised records |
| PublicBoard.TeamsOf | app.js:22-37 | the teams a snapshot leaves cached: as many as the snapshot has entries, none for a null snapshot; ranked (RankByScoreSpec) |
| PublicBoard.ViewOf | app.js:22-49 | the display a snapshot leaves: never loading or error, and a table has one row per cached team (ViewEmptyIff, ViewTable) |
| PublicBoard.TieExample | app.js:31-54 | for scores A 50, B 80, C 80, D 10, the tied B and C take ranks 1 and 2 (gold first), A is third and D fourth without a medal |
| PublicBoard.Leaderboard.constructor | app.js:3-6 | the board starts with no teams and nothing rendered yet |
| PublicBoard.Leaderboard.OnSnapshot | app.js:21-37 | the cached teams become the ranked snapshot (or empty for null), the display becomes the view of the snapshot, and the ranked-order invariant holds |
| PublicBoard.Leaderboard.OnError | app.js:38-41 | the display becomes the error state and the cached teams are unchanged |
| PublicBoard.Leaderboard.RenderLeaderboard | app.js:44-67 | an empty list renders the empty state, any other renders the table of ranked rows |
| PublicBoard.Leaderboard.RenderEmptyState | app.js:69-79 | the display becomes the empty state |
| PublicBoard.Leaderboard.RenderErrorState | app.js:81-91 | the display becomes the error state |
| Text.LeadingSpaces | admin.js:172 | the longest all-white-space prefix: every character before it is white space, the next one is not |
| Text.TrailingSpaces | admin.js:172 | the longest all-white-space suffix, symmetrically |
| Text.TrimSpec | admin.js:172 | trimming keeps one contiguous run of the input, drops only white space around it, and the run neither starts nor ends with white space |
| Text.TrimEmptyIffBlank | admin.js:172-175 | the trimmed name is empty if and only if every character of the input is white space |
| Text.TrimIdempotent | admin.js:172 | trimming a trimmed string changes nothing |
| Text.Trim | admin.js:172 | trimming never lengthens its input; TrimSpec characterises the result |
| AdminConsole.CachedTeamsKeepOrder | admin.js:120-135 | the admin cache is the snapshot's entries normalised in the store's order (not sorted), and empty for a null snapshot |
| AdminConsole.CachedTeams | admin.js:120-135 | the cache has one team per snapshot entry and none for a null snapshot; CachedTeamsKeepOrder gives the order |
| AdminConsole.TeamOptions | admin.js:139-149 | the select options are the placeholder followed by one choice per cached team, in cache order, carrying its id, name and score |
| AdminConsole.TeamsDisplaySpec | admin.js:151-169 | the empty message shows if and only if the cache is empty; otherwise there is one card per team, in order |
| AdminConsole.TeamsDisplay | admin.js:151-169 | the card display is never unrendered and is the empty message exactly for an empty cache |
| AdminConsole.FindTeam | admin.js:223 | the lookup finds nothing if and only if no cached team has the id, and otherwise the first cached team with it |
| AdminConsole.FindTeamAt | admin.js:223 | with distinct ids, looking up a cached team's id finds that very team |
| AdminConsole.CachedScore | admin.js:223-224 | the current score is 0 for an uncached id, and any non-zero value is the score of a cached team with that id |
| AdminConsole.ResolveIncrementMode | admin.js:202-209 | the checkbox wins when present; otherwise a saved `'true'` means increment and any other saved value absolute; with neither, increment |
| AdminConsole.TogglePersistRoundTrip | admin.js:59-66 | a checkbox state saved by the change listener is read back as that state, both when the page restores the checkbox and by the handler's fallback |
| AdminConsole.PersistedToggle | admin.js:63-65 | the saved value is `'true'` exactly when the checkbox is checked |
| AdminConsole.InitialToggle | admin.js:59-62 | a saved value overrides the page default (`'true'` checks the box, anything else clears it); with none the default stays |
| AdminConsole.AddTeamSpec | admin.js:171-186 | add rejects exactly the blank names and otherwise creates one record: the trimmed name (non-empty, no surrounding white space) and the parsed score or 0 |
| AdminConsole.AddTeam | admin.js:171-186 | add either rejects or creates a record with a non-empty name; AddTeamSpec gives the exact conditions |
| AdminConsole.CreatedTeamReadsBack | admin.js:183-186 | a created record, delivered back under any id, is cached with exactly the name and score that were sent |
| AdminConsole.UpdateScoreSpec | admin.js:199-226 | update rejects an empty id first, then a missing number, and writes nothing then; otherwise it writes one score to that id: the cached score plus the delta in increment mode, the value in absolute mode, and the delta for an uncached id |
| AdminConsole.UpdateScore | admin.js:199-226 | update either rejects or writes one score to the selected id; UpdateScoreSpec gives the exact conditions and value |
| AdminConsole.IncrementAddsToCachedTeam | admin.js:222-226 | for a cached team, increment mode writes its cached score plus the delta and absolute mode writes the delta |
| AdminConsole.DeleteTeamSpec | admin.js:239-259 | delete issues exactly one removal, of the selected id, if and only if the id is non-empty, cached and confirmed; otherwise it rejects for no selection, rejects for not found, or does nothing |
| AdminConsole.DeleteTeam | admin.js:239-259 | delete never writes or creates, and removes only the selected id after confirmation; DeleteTeamSpec gives the exact conditions |
| AdminConsole.SelectedOptionTargetsTeam | admin.js:143-148 | choosing a team's option makes delete remove that team (once confirmed) and update write to it; the placeholder is rejected by both |
| AdminConsole.AuthFollowsLastDecision | admin.js:22-31 | after any run of events, `isAuthenticated` is the value set by the latest observation or successful sign-in or sign-out, or its initial value if there was none |
| AdminConsole.AuthStep | admin.js:22-31 | failed sign-ins and sign-outs keep the flag; an observation sets it to "a user is present", a successful sign-in to true and a successful sign-out to false |
| AdminConsole.AuthRun | admin.js:85-104 | the flag after a run of events, one step per event in order; AuthFollowsLastDecision states its value |
| AdminConsole.FailuresKeepAuth | admin.js:91-104 | failed sign-ins and failed sign-outs leave `isAuthenticated` unchanged |
| AdminConsole.AdminPanel.constructor | admin.js:3-7 | the panel starts unauthenticated, with no cached teams and no listener |
| AdminConsole.AdminPanel.OnAuthStateChanged | admin.js:22-31 | the flag becomes "a user is present"; with a user, the panel shows and one more team listener is registered |
| AdminConsole.AdminPanel.HandleLogin | admin.js:75-95 | a successful sign-in sets the flag, shows the panel, registers a listener and clears the error; a failed one only shows the error |
| AdminConsole.AdminPanel.HandleLogout | admin.js:97-105 | a successful sign-out clears the flag and shows the login form; a failed one changes nothing; the team listener stays |
| AdminConsole.AdminPanel.ShowLoginForm | admin.js:107-110 | the login form is shown |
| AdminConsole.AdminPanel.ShowAdminPanel | admin.js:112-115 | the admin panel is shown |
| AdminConsole.AdminPanel.LoadTeams | admin.js:117-120 | one more listener is registered on the collection |
| AdminConsole.AdminPanel.OnTeamsSnapshot | admin.js:120-136 | the cache becomes the snapshot's normalised entries and both selects and the card display are recomputed from it |
| AdminConsole.AdminPanel.UpdateTeamSelects | admin.js:139-149 | both selects receive the same option list derived from the cache |
| AdminConsole.AdminPanel.RenderTeamsDisplay | admin.js:151-169 | the card display becomes the listing of the cache |
| AdminConsole.AdminPanel.HandleAddTeam | admin.js:171-186 | the add request: a create of the trimmed name and parsed-or-0 score if and only if the name is not blank, else the empty-name rejection |
| AdminConsole.AdminPanel.HandleUpdateScore | admin.js:199-226 | the update request computed against the current cache with the resolved mode |
| AdminConsole.AdminPanel.HandleDeleteTeam | admin.js:239-259 | the delete request computed against the current cache |

## Left out

- The store and identity-provider SDK calls (`onValue`, `push`, `set`, `update`, `remove`, sign-in, sign-out) are not modelled as stores. The handlers return the request, and sign-in and sign-out outcomes are inputs. What happens after the acknowledgement is not modelled either: the success or failure alerts, and clearing the form fields.
- Id generation by the store is left out. `CreatedTeamReadsBack` holds for any id.
- HTML strings, `innerHTML`, `alert` and `confirm` are left out. Only the logical rows, options, cards, display state and rejection category are modelled. Names are not escaped in the source; the model does not deal with escaping.
- `localStorage` is modelled only as the saved value passed in.
- The readiness polling with `setTimeout` (`app.js:10-13`, `admin.js:11-13`) is left out.
- Asynchronous interleavings are left out, including the lost update between two consoles that increment the same team.
- PublicBoard.RankByScore: `Array.prototype.sort` reorders `this.teams` in place. The model computes the sorted list as a value and assigns it. The model's insertion sort is stable: each team goes before the equal-scored teams that follow it in the input. ECMAScript (2019 and later) requires `sort` to be stable too, so tied teams keep the store's delivery order. `RankKeepsSorted` relies on this stability. No other lemma states the order of tied teams.
- JavaScript numbers are IEEE doubles, but the model uses unbounded `int`. So `b.score - a.score` (`app.js:31`) and `current + deltaScore` (`admin.js:225`) are exact in the model. In the source they lose precision beyond 2^53. The model does not capture that `parseInt` of a very long digit string gives `Infinity`, which passes the `isNaN` guard (`admin.js:216`) and is written as the score.
- JavaScript `parseInt` is abstracted as an `Option<int>` input. The falsiness of `team.score || 0` is abstracted as `Option<int>`, with `None` for absent or falsy. Scores that are not numbers (strings, fractions) are not modelled, and neither are records without a `name`.
- Text.Trim follows ECMAScript's fixed list of white-space and line-terminator characters. It is exact for the characters listed, but it does not track later Unicode revisions of the space-separator category.
- AdminConsole.AdminPanel.OnTeamsSnapshot requires a registered listener (`subscriptions > 0`). Snapshots are only delivered after `loadTeams` ran.
- A listener is never removed, on sign-out or otherwise. `subscriptions` only counts the listeners; several listeners deliver the same snapshot, and the model treats each delivery alike.
