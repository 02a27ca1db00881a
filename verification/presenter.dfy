/** `SearchUserPresenter`: the list of users the search screen shows, and
    how the view's events and the model's completions change it. The view is
    an event log and the model a log of the queries sent to it. */
module Presenter {
  import opened Results
  import opened Entities

  /** The presenter's state: the users of the last successful search. */
  datatype Presenter = Presenter(users: seq<User>)

  /** Calls the presenter makes on its view (`SearchUserPresenterOutput`). */
  datatype ViewEvent = UpdateUsers(users: seq<User>) | TransitionToUserDetail(userName: string)

  /** The effect of one presenter call: the new state, the calls made on
      the view, and the queries passed to the model's `fetchUser`. */
  datatype Step = Step(presenter: Presenter, viewEvents: seq<ViewEvent>, fetches: seq<string>)

  /** A freshly initialised presenter has no users. */
  function Init(): (p: Presenter)
    ensures |p.users| == 0
  {
    Presenter([])
  }

  function NumberOfUsers(p: Presenter): (n: nat)
    ensures n == |p.users|
  {
    |p.users|
  }

  /** `user(forRow:)`: the user on `row`, or `None` past the end. A negative
      row is not guarded in the source (it traps), hence the precondition. */
  function UserForRow(p: Presenter, row: int): (u: Option<User>)
    requires 0 <= row
    ensures u.Some? <==> row < |p.users|
    ensures u.Some? ==> u.value == p.users[row]
  {
    if row < |p.users| then Some(p.users[row]) else None
  }

  /** `didSelectRow(at:)`: on a listed row, one transition to that user's
      detail screen; otherwise nothing. The state never changes. */
  function DidSelectRow(p: Presenter, row: int): (s: Step)
    requires 0 <= row
    ensures s.presenter == p && s.fetches == []
    ensures row >= |p.users| ==> s.viewEvents == []
    ensures row < |p.users| ==> s.viewEvents == [TransitionToUserDetail(p.users[row].login)]
  {
    match UserForRow(p, row)
    case None => Step(p, [], [])
    case Some(user) => Step(p, [TransitionToUserDetail(user.login)], [])
  }

  /** `didTapSearchButton(text:)`: asks the model for exactly the typed text,
      but only when there is text and it is not empty. The state changes
      only when the model completes (`FetchCompleted`). */
  function DidTapSearchButton(p: Presenter, text: Option<string>): (s: Step)
    ensures s.presenter == p && s.viewEvents == []
    ensures text.None? || text.value == [] ==> s.fetches == []
    ensures text.Some? && text.value != [] ==> s.fetches == [text.value]
  {
    match text
    case None => Step(p, [], [])
    case Some(query) => if query == [] then Step(p, [], []) else Step(p, [], [query])
  }

  /** The completion handler passed to `fetchUser`: a success replaces the
      list and tells the view; a failure is dropped. */
  function FetchCompleted<E>(p: Presenter, result: Result<seq<User>, E>): (s: Step)
    ensures s.fetches == []
    ensures result.Success? ==> s.presenter.users == result.value && s.viewEvents == [UpdateUsers(result.value)]
    ensures result.Failure? ==> s.presenter == p && s.viewEvents == []
  {
    match result
    case Success(users) => Step(Presenter(users), [UpdateUsers(users)], [])
    case Failure(_) => Step(p, [], [])
  }

  /** Completions applied in the order they arrive. */
  function ApplyCompletions<E>(p: Presenter, results: seq<Result<seq<User>, E>>): Presenter
    decreases |results|
  {
    if |results| == 0 then p
    else ApplyCompletions(FetchCompleted(p, results[0]).presenter, results[1..])
  }

  /** The users of the last successful result, or `fallback` if none
      succeeded. */
  function LastSuccess<E>(results: seq<Result<seq<User>, E>>, fallback: seq<User>): seq<User>
    decreases |results|
  {
    if |results| == 0 then fallback
    else if results[|results| - 1].Success? then results[|results| - 1].value
    else LastSuccess(results[..|results| - 1], fallback)
  }

  /** Whatever order successes and failures arrive in, the presenter ends up
      showing the last successful search, or what it showed before if no
      search succeeded. */
  lemma {:induction false} ApplyCompletionsKeepsLastSuccess<E>(p: Presenter, results: seq<Result<seq<User>, E>>)
    ensures ApplyCompletions(p, results).users == LastSuccess(results, p.users)
    decreases |results|
  {
    if |results| > 0 {
      var next := FetchCompleted(p, results[0]).presenter;
      ApplyCompletionsKeepsLastSuccess(next, results[1..]);
      LastSuccessSplit(results, p.users);
    }
  }

  /** Peeling the first result off: its effect is overridden by any later
      success and otherwise survives. */
  lemma {:induction false} LastSuccessSplit<E>(results: seq<Result<seq<User>, E>>, fallback: seq<User>)
    requires |results| > 0
    ensures LastSuccess(results[1..], if results[0].Success? then results[0].value else fallback)
            == LastSuccess(results, fallback)
    decreases |results|
  {
    if |results| > 1 {
      var init := results[..|results| - 1];
      assert init[1..] == results[1..][..|results[1..]| - 1];
      assert init[0] == results[0];
      LastSuccessSplit(init, fallback);
    }
  }

  /** A row is answered exactly when it is below the row count the table
      view asks for. */
  lemma RowsMatchCount(p: Presenter, row: int)
    requires 0 <= row
    ensures UserForRow(p, row).Some? <==> row < NumberOfUsers(p)
  {
  }

  /** A detail transition always names a user in the list. */
  lemma SelectionNamesListedUser(p: Presenter, row: int)
    requires 0 <= row
    ensures forall e :: e in DidSelectRow(p, row).viewEvents ==>
              e.TransitionToUserDetail? && exists u :: u in p.users && u.login == e.userName
  {
    if row < |p.users| {
      assert p.users[row] in p.users;
    }
  }

  /** Delivering the same completion twice leaves the same list as once. */
  lemma FetchCompletedIdempotent<E>(p: Presenter, result: Result<seq<User>, E>)
    ensures FetchCompleted(FetchCompleted(p, result).presenter, result).presenter == FetchCompleted(p, result).presenter
  {
  }

  /** A tap followed by the model's answer to it: the list becomes the
      answer on success and is unchanged on failure or when no fetch was
      issued. */
  lemma SearchRound<E>(p: Presenter, text: Option<string>, result: Result<seq<User>, E>)
    ensures var tap := DidTapSearchButton(p, text);
            var after := if tap.fetches == [] then tap.presenter else FetchCompleted(tap.presenter, result).presenter;
            && (tap.fetches == [] ==> after == p)
            && (tap.fetches != [] && result.Success? ==> after.users == result.value && tap.fetches[0] == text.value)
            && (result.Failure? ==> after == p)
  {
  }
}
