/** The admin console: the cached, unsorted team list and its listings, the
    three mutation handlers (each reduced to the request it would issue, or
    the reason it refuses), the increment-mode preference and the
    `isAuthenticated` flag. */
module AdminConsole {
  import opened Wrappers
  import opened Teams
  import opened Text

  // ---------------------------------------------------------------------
  // The cached list and what is derived from it

  /** `loadTeams`' callback: the snapshot's records in the store's order,
      scores defaulted, and nothing at all for a null snapshot. */
  function CachedTeams(data: Option<Snapshot>): (r: seq<Team>)
    ensures |r| == if data.Some? then |data.value| else 0
  {
    match data
    case Some(s) => Normalize(s)
    case None => []
  }

  /** The cache keeps the store's entry order: it is not sorted. */
  lemma CachedTeamsKeepOrder(data: Option<Snapshot>)
    ensures data.None? ==> CachedTeams(data) == []
    ensures data.Some? ==> |CachedTeams(data)| == |data.value|
    ensures data.Some? ==>
              forall i :: 0 <= i < |data.value| ==> CachedTeams(data)[i] == ToTeam(data.value[i])
  {
  }

  /** One `<option>` of the team selects. */
  datatype SelectOption = Placeholder | Choice(id: string, name: string, score: int) {
    /** The `value` attribute: empty for the placeholder. */
    function Value(): string {
      match this
      case Placeholder => ""
      case Choice(id, _, _) => id
    }
  }

  /** The options `updateTeamSelects` writes into both selects. */
  function TeamOptions(cache: seq<Team>): (opts: seq<SelectOption>)
    ensures |opts| == |cache| + 1 && opts[0] == Placeholder
    ensures forall i :: 0 <= i < |cache| ==>
      opts[i + 1] == Choice(cache[i].id, cache[i].name, cache[i].score)
  {
    [Placeholder] + seq(|cache|, i requires 0 <= i < |cache| => Choice(cache[i].id, cache[i].name, cache[i].score))
  }

  /** One `team-card` of the display. */
  datatype Card = Card(name: string, score: int)

  /** What the `teamsDisplay` element shows; `Unrendered` until the first
      snapshot arrives. */
  datatype TeamsView = Unrendered | NoTeamsMessage | Cards(cards: seq<Card>)

  function TeamsDisplay(cache: seq<Team>): (v: TeamsView)
    ensures v != Unrendered
    ensures v == NoTeamsMessage <==> |cache| == 0
  {
    if |cache| == 0 then NoTeamsMessage
    else Cards(seq(|cache|, i requires 0 <= i < |cache| => Card(cache[i].name, cache[i].score)))
  }

  /** The empty message shows if and only if the cache is empty; otherwise
      one card per team, in cache order. */
  lemma TeamsDisplaySpec(cache: seq<Team>)
    ensures TeamsDisplay(cache) == NoTeamsMessage <==> |cache| == 0
    ensures TeamsDisplay(cache) != Unrendered
    ensures |cache| > 0 ==> TeamsDisplay(cache).Cards? && |TeamsDisplay(cache).cards| == |cache|
    ensures |cache| > 0 ==>
              forall i :: 0 <= i < |cache| ==> TeamsDisplay(cache).cards[i] == Card(cache[i].name, cache[i].score)
  {
  }

  /** `this.teams.find(t => t.id === teamId)`: the first cached team with
      that id. */
  function FindTeam(cache: seq<Team>, id: string): (r: Option<Team>)
    ensures r.None? <==> forall i :: 0 <= i < |cache| ==> cache[i].id != id
    ensures r.Some? ==>
              exists i :: 0 <= i < |cache| && cache[i] == r.value && r.value.id == id &&
                          forall j :: 0 <= j < i ==> cache[j].id != id
  {
    if cache == [] then None
    else if cache[0].id == id then Some(cache[0])
    else
      var r := FindTeam(cache[1..], id);
      if r.Some? then
        var i :| 0 <= i < |cache[1..]| && cache[1..][i] == r.value &&
          r.value.id == id && forall j :: 0 <= j < i ==> cache[1..][j].id != id;
        assert cache[i + 1] == r.value;
        r
      else r
  }

  /** With distinct ids, looking up a cached team's id finds that team. */
  lemma FindTeamAt(cache: seq<Team>, i: nat)
    requires DistinctIds(cache) && i < |cache|
    ensures FindTeam(cache, cache[i].id) == Some(cache[i])
  {
    var r := FindTeam(cache, cache[i].id);
    var k :| 0 <= k < |cache| && cache[k] == r.value && r.value.id == cache[i].id &&
      forall j :: 0 <= j < k ==> cache[j].id != cache[i].id;
    assert !(i < k);
    assert !(k < i);
  }

  /** The cached score of a team, 0 when the id is not cached. */
  function CachedScore(cache: seq<Team>, id: string): (r: int)
    ensures (forall i :: 0 <= i < |cache| ==> cache[i].id != id) ==> r == 0
    ensures r != 0 ==> exists i :: 0 <= i < |cache| && cache[i].id == id && cache[i].score == r
  {
    match FindTeam(cache, id)
    case Some(t) => t.score
    case None => 0
  }

  // ---------------------------------------------------------------------
  // The increment-mode preference

  /** The saved preference's value for a checkbox state. */
  function PersistedToggle(checked: bool): (v: string)
    ensures v == "true" <==> checked
  {
    if checked then "true" else "false"
  }

  /** The checkbox state after `setupEventListeners`: a saved value
      overrides the page's default. */
  function InitialToggle(pageDefault: bool, saved: Option<string>): (checked: bool)
    ensures saved.None? ==> checked == pageDefault
    ensures saved.Some? ==> (checked <==> saved.value == "true")
  {
    match saved
    case Some(v) => v == "true"
    case None => pageDefault
  }

  /** The mode `handleUpdateScore` uses: the checkbox when it exists, else
      the saved value (`'true'` means increment), else increment. */
  function ResolveIncrementMode(checkbox: Option<bool>, saved: Option<string>): (increment: bool)
    ensures checkbox.Some? ==> increment == checkbox.value
    ensures checkbox.None? && saved.Some? ==> (increment <==> saved.value == "true")
    ensures checkbox.None? && saved.None? ==> increment
  {
    match checkbox
    case Some(checked) => checked
    case None =>
      match saved
      case Some(v) => v == "true"
      case None => true
  }

  /** A saved preference is read back as the state that saved it, both
      when the page restores the checkbox and when the handler falls back
      to the saved value. */
  lemma TogglePersistRoundTrip(checked: bool, pageDefault: bool)
    ensures InitialToggle(pageDefault, Some(PersistedToggle(checked))) == checked
    ensures ResolveIncrementMode(None, Some(PersistedToggle(checked))) == checked
    ensures ResolveIncrementMode(Some(InitialToggle(pageDefault, Some(PersistedToggle(checked)))), None) == checked
  {
    assert "false" != "true";
  }

  // ---------------------------------------------------------------------
  // The mutation handlers

  /** Why a handler refuses before issuing anything. */
  datatype Rejection = EmptyName | NoTeamSelected | InvalidScore | TeamNotFound

  /** What a handler does: refuse with an alert, write one score, create
      one record, remove one record, or nothing (declined confirmation). */
  datatype Outcome =
    | Rejected(reason: Rejection)
    | Write(id: string, score: int)
    | Create(name: string, score: int)
    | Remove(id: string)
    | NoOp

  /** `handleAddTeam`: `nameInput` is the raw field, `parsedScore` the result
      of `parseInt` on the score field (`None` for NaN). */
  function AddTeam(nameInput: string, parsedScore: Option<int>): (r: Outcome)
    ensures r.Rejected? || r.Create?
    ensures r.Create? ==> r.name != [] && |r.name| <= |nameInput|
  {
    var name := Trim(nameInput);
    if name == [] then Rejected(EmptyName)
    else Create(name, parsedScore.GetOr(0))
  }

  /** Add refuses exactly the names that are blank, and otherwise creates a
      record whose name is the trimmed input (non-empty, no surrounding
      white space) and whose score is the parsed score or 0. */
  lemma AddTeamSpec(nameInput: string, parsedScore: Option<int>)
    ensures AddTeam(nameInput, parsedScore) == Rejected(EmptyName) <==> Blank(nameInput)
    ensures AddTeam(nameInput, parsedScore).Rejected? || AddTeam(nameInput, parsedScore).Create?
    ensures AddTeam(nameInput, parsedScore).Create? ==>
      var r := AddTeam(nameInput, parsedScore);
      r.name == Trim(nameInput) && r.name != [] &&
      !IsSpace(r.name[0]) && !IsSpace(r.name[|r.name| - 1]) &&
      r.score == (if parsedScore.Some? then parsedScore.value else 0)
  {
    TrimEmptyIffBlank(nameInput);
    TrimSpec(nameInput);
  }

  /** A created record, once the store delivers it back under whatever id it
      assigned, is cached with exactly the name and score that were sent. */
  lemma CreatedTeamReadsBack(nameInput: string, parsedScore: Option<int>, id: string)
    requires AddTeam(nameInput, parsedScore).Create?
    ensures var c := AddTeam(nameInput, parsedScore);
      CachedTeams(Some([Entry(id, StoredTeam(c.name, Some(c.score)))])) == [Team(id, c.name, c.score)]
  {
    var c := AddTeam(nameInput, parsedScore);
    NormalizeStored([Team(id, c.name, c.score)]);
    assert [ToStored(Team(id, c.name, c.score))] ==
      seq(1, i requires 0 <= i < 1 => ToStored([Team(id, c.name, c.score)][i]));
  }

  /** `handleUpdateScore`: `teamId` is the select's value, `parsedDelta`
      the result of `parseInt` on the score field. */
  function UpdateScore(teamId: string, parsedDelta: Option<int>, increment: bool, cache: seq<Team>): (r: Outcome)
    ensures r.Rejected? || r.Write?
    ensures r.Write? ==> r.id == teamId != []
  {
    if teamId == [] then Rejected(NoTeamSelected)
    else if parsedDelta.None? then Rejected(InvalidScore)
    else
      var current := CachedScore(cache, teamId);
      Write(teamId, if increment then current + parsedDelta.value else parsedDelta.value)
  }

  /** Validation is ordered (no team first, then no number), neither refusal
      writes, and otherwise exactly one score is written to the selected
      team: the cached score plus the delta in increment mode, the entered
      value in absolute mode, with an uncached team counting as 0. */
  lemma UpdateScoreSpec(teamId: string, parsedDelta: Option<int>, increment: bool, cache: seq<Team>)
    ensures teamId == [] ==> UpdateScore(teamId, parsedDelta, increment, cache) == Rejected(NoTeamSelected)
    ensures teamId != [] && parsedDelta.None? ==>
      UpdateScore(teamId, parsedDelta, increment, cache) == Rejected(InvalidScore)
    ensures UpdateScore(teamId, parsedDelta, increment, cache).Write? <==> teamId != [] && parsedDelta.Some?
    ensures UpdateScore(teamId, parsedDelta, increment, cache).Rejected? <==> !(teamId != [] && parsedDelta.Some?)
    ensures teamId != [] && parsedDelta.Some? ==>
              var w := UpdateScore(teamId, parsedDelta, increment, cache);
              && w.id == teamId
              && (increment ==> w.score - parsedDelta.value == CachedScore(cache, teamId))
              && (!increment ==> w.score == parsedDelta.value)
              && ((forall t :: t in cache ==> t.id != teamId) ==> w.score == parsedDelta.value)
  {
    if teamId != [] && parsedDelta.Some? && (forall t :: t in cache ==> t.id != teamId) {
      assert forall i :: 0 <= i < |cache| ==> cache[i] in cache;
    }
  }

  /** Increment mode on a cached team writes its cached score plus the delta. */
  lemma IncrementAddsToCachedTeam(cache: seq<Team>, i: nat, delta: int)
    requires DistinctIds(cache) && i < |cache| && cache[i].id != []
    ensures UpdateScore(cache[i].id, Some(delta), true, cache) == Write(cache[i].id, cache[i].score + delta)
    ensures UpdateScore(cache[i].id, Some(delta), false, cache) == Write(cache[i].id, delta)
  {
    FindTeamAt(cache, i);
  }

  /** `handleDeleteTeam`: `confirmed` is the operator's answer, asked only
      once the team has been found. */
  function DeleteTeam(teamId: string, cache: seq<Team>, confirmed: bool): (r: Outcome)
    ensures !r.Write? && !r.Create?
    ensures r.Remove? ==> r.id == teamId != [] && confirmed
  {
    if teamId == [] then Rejected(NoTeamSelected)
    else
      match FindTeam(cache, teamId)
      case None => Rejected(TeamNotFound)
      case Some(_) => if confirmed then Remove(teamId) else NoOp
  }

  /** Delete issues exactly one removal, of the selected id, when the id is
      non-empty, cached and confirmed, and nothing otherwise. */
  lemma DeleteTeamSpec(teamId: string, cache: seq<Team>, confirmed: bool)
    ensures DeleteTeam(teamId, cache, confirmed).Remove? <==>
      teamId != [] && (exists i :: 0 <= i < |cache| && cache[i].id == teamId) && confirmed
    ensures DeleteTeam(teamId, cache, confirmed).Remove? ==> DeleteTeam(teamId, cache, confirmed) == Remove(teamId)
    ensures !DeleteTeam(teamId, cache, confirmed).Remove? ==>
              DeleteTeam(teamId, cache, confirmed) in {Rejected(NoTeamSelected), Rejected(TeamNotFound), NoOp}
    ensures teamId == [] ==> DeleteTeam(teamId, cache, confirmed) == Rejected(NoTeamSelected)
    ensures teamId != [] && (forall i :: 0 <= i < |cache| ==> cache[i].id != teamId) ==>
      DeleteTeam(teamId, cache, confirmed) == Rejected(TeamNotFound)
  {
  }

  /** Picking the option of a listed team hands that team's id to the
      handlers: delete removes it once confirmed and update writes it; the
      placeholder is refused by both. */
  lemma SelectedOptionTargetsTeam(cache: seq<Team>, i: nat, delta: int, increment: bool)
    requires DistinctIds(cache) && i < |cache| && cache[i].id != []
    ensures DeleteTeam(TeamOptions(cache)[i + 1].Value(), cache, true) == Remove(cache[i].id)
    ensures DeleteTeam(TeamOptions(cache)[i + 1].Value(), cache, false) == NoOp
    ensures UpdateScore(TeamOptions(cache)[i + 1].Value(), Some(delta), increment, cache).id == cache[i].id
    ensures DeleteTeam(TeamOptions(cache)[0].Value(), cache, true) == Rejected(NoTeamSelected)
    ensures UpdateScore(TeamOptions(cache)[0].Value(), Some(delta), increment, cache) == Rejected(NoTeamSelected)
  {
    FindTeamAt(cache, i);
  }

  // ---------------------------------------------------------------------
  // The session

  /** What the session observer and the login and logout handlers report. */
  datatype AuthEvent =
    | Observed(userPresent: bool)
    | SignIn(succeeded: bool)
    | SignOut(succeeded: bool)

  /** The value of `isAuthenticated` after one event. */
  function AuthStep(authenticated: bool, e: AuthEvent): (r: bool)
    ensures e in {SignIn(false), SignOut(false)} ==> r == authenticated
    ensures e in {Observed(true), SignIn(true)} ==> r
    ensures e in {Observed(false), SignOut(true)} ==> !r
  {
    match e
    case Observed(user) => user
    case SignIn(ok) => if ok then true else authenticated
    case SignOut(ok) => if ok then false else authenticated
  }

  /** The value after a run of events, in order. */
  function AuthRun(authenticated: bool, events: seq<AuthEvent>): bool {
    if events == [] then authenticated
    else AuthStep(AuthRun(authenticated, events[..|events| - 1]), events[|events| - 1])
  }

  /** The value the latest deciding event sets; failed sign-ins and
      sign-outs decide nothing. */
  function LastDecision(events: seq<AuthEvent>): Option<bool> {
    if events == [] then None
    else
      match events[|events| - 1]
      case Observed(user) => Some(user)
      case SignIn(ok) => if ok then Some(true) else LastDecision(events[..|events| - 1])
      case SignOut(ok) => if ok then Some(false) else LastDecision(events[..|events| - 1])
  }

  /** `isAuthenticated` is whatever the latest observation or successful
      sign-in or sign-out made it, and its initial value if there was none. */
  lemma {:induction false} AuthFollowsLastDecision(authenticated: bool, events: seq<AuthEvent>)
    ensures AuthRun(authenticated, events) == LastDecision(events).GetOr(authenticated)
  {
    if events != [] {
      AuthFollowsLastDecision(authenticated, events[..|events| - 1]);
    }
  }

  /** Failed sign-ins and sign-outs leave the flag where it was. */
  lemma {:induction false} FailuresKeepAuth(authenticated: bool, events: seq<AuthEvent>)
    requires forall i :: 0 <= i < |events| ==> events[i] in {SignIn(false), SignOut(false)}
    ensures AuthRun(authenticated, events) == authenticated
  {
    if events != [] {
      FailuresKeepAuth(authenticated, events[..|events| - 1]);
    }
  }

  /** Which form the page shows. */
  datatype Screen = Initial | LoginForm | Panel

  /** The `AdminPanel` object: the cached teams, the session flag, and what
      the page shows. `subscriptions` counts the `onValue` listeners that
      `loadTeams` has registered; none is ever removed. */
  class AdminPanel {
    var teams: seq<Team>
    var isAuthenticated: bool
    var screen: Screen
    var loginError: bool
    var subscriptions: nat
    var updateSelect: seq<SelectOption>
    var deleteSelect: seq<SelectOption>
    var teamsView: TeamsView

    /** The panel shows exactly when authenticated, and once rendered the
        listings are those of the cache. */
    ghost predicate Valid()
      reads this
    {
      (isAuthenticated <==> screen == Panel) &&
      (teamsView != Unrendered ==>
        teamsView == TeamsDisplay(teams) &&
        updateSelect == TeamOptions(teams) && deleteSelect == TeamOptions(teams))
    }

    constructor ()
      ensures Valid()
      ensures teams == [] && !isAuthenticated && screen == Initial && !loginError
      ensures subscriptions == 0 && teamsView == Unrendered
    {
      teams := [];
      isAuthenticated := false;
      screen := Initial;
      loginError := false;
      subscriptions := 0;
      updateSelect := [];
      deleteSelect := [];
      teamsView := Unrendered;
    }

    /** The `onAuthStateChanged` callback. */
    method OnAuthStateChanged(userPresent: bool)
      requires Valid()
      modifies this
      ensures Valid()
      ensures isAuthenticated == AuthStep(old(isAuthenticated), Observed(userPresent))
      ensures screen == (if userPresent then Panel else LoginForm)
      ensures subscriptions == old(subscriptions) + (if userPresent then 1 else 0)
      ensures updateSelect == old(updateSelect) && deleteSelect == old(deleteSelect)
      ensures teams == old(teams) && teamsView == old(teamsView) && loginError == old(loginError)
    {
      if userPresent {
        isAuthenticated := true;
        ShowAdminPanel();
        LoadTeams();
      } else {
        isAuthenticated := false;
        ShowLoginForm();
      }
    }

    /** `handleLogin`, given whether the sign-in call succeeded. */
    method HandleLogin(signInSucceeded: bool)
      requires Valid()
      modifies this
      ensures Valid()
      ensures isAuthenticated == AuthStep(old(isAuthenticated), SignIn(signInSucceeded))
      ensures loginError == !signInSucceeded
      ensures signInSucceeded ==> subscriptions == old(subscriptions) + 1
      ensures signInSucceeded ==> screen == Panel
      ensures !signInSucceeded ==> subscriptions == old(subscriptions) && screen == old(screen)
      ensures updateSelect == old(updateSelect) && deleteSelect == old(deleteSelect)
      ensures teams == old(teams) && teamsView == old(teamsView)
    {
      if signInSucceeded {
        isAuthenticated := true;
        ShowAdminPanel();
        LoadTeams();
        loginError := false;
      } else {
        loginError := true;
      }
    }

    /** `handleLogout`, given whether the sign-out call succeeded. The
        team listener stays registered. */
    method HandleLogout(signOutSucceeded: bool)
      requires Valid()
      modifies this
      ensures Valid()
      ensures isAuthenticated == AuthStep(old(isAuthenticated), SignOut(signOutSucceeded))
      ensures signOutSucceeded ==> screen == LoginForm
      ensures !signOutSucceeded ==> screen == old(screen)
      ensures updateSelect == old(updateSelect) && deleteSelect == old(deleteSelect)
      ensures subscriptions == old(subscriptions) && teams == old(teams) && teamsView == old(teamsView)
      ensures loginError == old(loginError)
    {
      if signOutSucceeded {
        isAuthenticated := false;
        ShowLoginForm();
      }
    }

    method ShowLoginForm()
      modifies this`screen
      ensures screen == LoginForm
    {
      screen := LoginForm;
    }

    method ShowAdminPanel()
      modifies this`screen
      ensures screen == Panel
    {
      screen := Panel;
    }

    /** `loadTeams` registers one more listener on the collection. */
    method LoadTeams()
      modifies this`subscriptions
      ensures subscriptions == old(subscriptions) + 1
    {
      subscriptions := subscriptions + 1;
    }

    /** The listener `loadTeams` registers: re-cache and re-list. */
    method OnTeamsSnapshot(data: Option<Snapshot>)
      requires Valid() && subscriptions > 0
      modifies this
      ensures Valid()
      ensures teams == CachedTeams(data)
      ensures updateSelect == TeamOptions(teams) && deleteSelect == TeamOptions(teams)
      ensures teamsView == TeamsDisplay(teams)
      ensures isAuthenticated == old(isAuthenticated) && screen == old(screen)
      ensures subscriptions == old(subscriptions) && loginError == old(loginError)
    {
      teams := CachedTeams(data);
      UpdateTeamSelects();
      RenderTeamsDisplay();
    }

    method UpdateTeamSelects()
      modifies this`updateSelect, this`deleteSelect
      ensures updateSelect == TeamOptions(teams) && deleteSelect == TeamOptions(teams)
    {
      var options := TeamOptions(teams);
      updateSelect := options;
      deleteSelect := options;
    }

    method RenderTeamsDisplay()
      modifies this`teamsView
      ensures teamsView == TeamsDisplay(teams)
    {
      if |teams| == 0 {
        teamsView := NoTeamsMessage;
        return;
      }
      teamsView := TeamsDisplay(teams);
    }

    /** `handleAddTeam`'s request; it does not read the cache. */
    method HandleAddTeam(nameInput: string, parsedScore: Option<int>) returns (o: Outcome)
      ensures o.Create? <==> !Blank(nameInput)
      ensures o.Create? ==> o == Create(Trim(nameInput), parsedScore.GetOr(0))
      ensures !o.Create? ==> o == Rejected(EmptyName)
    {
      o := AddTeam(nameInput, parsedScore);
      AddTeamSpec(nameInput, parsedScore);
    }

    /** `handleUpdateScore`'s request, with the mode resolved from the
        checkbox (when the page has one) or the saved preference. */
    method HandleUpdateScore(teamId: string, parsedDelta: Option<int>, checkbox: Option<bool>, saved: Option<string>)
      returns (o: Outcome)
      ensures o == UpdateScore(teamId, parsedDelta, ResolveIncrementMode(checkbox, saved), teams)
    {
      var increment := ResolveIncrementMode(checkbox, saved);
      o := UpdateScore(teamId, parsedDelta, increment, teams);
    }

    /** `handleDeleteTeam`'s request against the cache. */
    method HandleDeleteTeam(teamId: string, confirmed: bool) returns (o: Outcome)
      ensures o == DeleteTeam(teamId, teams, confirmed)
    {
      o := DeleteTeam(teamId, teams, confirmed);
    }
  }
}
