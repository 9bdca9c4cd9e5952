/**
 * The search form: the phrase and API inputs, the guards that decide whether
 * a submission searches, and the Search button's disabled predicate.
 */
module Header {
  import opened Js
  import opened Constants
  import opened Records
  import opened Storage
  import opened Remote
  import opened UiState
  import opened Google

  /** A submission repeating the last one exactly, while on the first page. */
  predicate Unchanged(start: int, newPhrase: string, oldPhrase: string, newAPI: string, oldAPI: Option<string>)
  {
    oldPhrase == newPhrase && oldAPI == Some(newAPI) && start == 1
  }

  /** `resetSearchPhrase`'s refusal: the same up to surrounding whitespace, same API, first page. */
  predicate ResetDeclined(start: int, newPhrase: string, oldPhrase: string, newAPI: string, oldAPI: Option<string>)
  {
    Trim(oldPhrase) == Trim(newPhrase) && oldAPI == Some(newAPI) && start == 1
  }

  /** A submission that goes on to search: the two guards of the handler and the reset all let it through. */
  predicate Accepted(start: int, newPhrase: string, oldPhrase: string, newAPI: string, oldAPI: Option<string>)
  {
    && !Unchanged(start, newPhrase, oldPhrase, newAPI, oldAPI)
    && |newPhrase| != 0
    && !ResetDeclined(start, newPhrase, oldPhrase, newAPI, oldAPI)
  }

  /** The `disabled` attribute of the Search button. */
  predicate ButtonDisabled(start: int, newPhrase: string, oldPhrase: string, newAPI: string, oldAPI: Option<string>)
  {
    && start == 1
    && ((Trim(newPhrase) == Trim(oldPhrase) && Trim(oldPhrase) != "") || Trim(newPhrase) == "")
    && ((oldAPI == Some(newAPI) && oldAPI != Some("")) || newAPI == "")
  }

  /** A phrase made only of whitespace, which `trim` turns into "". */
  predicate Blank(s: string)
  {
    forall k :: 0 <= k < |s| ==> IsWhitespace(s[k])
  }

  /**
   * The button is disabled only on page 1, when the phrase is blank or repeats
   * a non-blank old one up to surrounding whitespace, and the API is unpicked
   * or repeats a picked one; it is never disabled on another page.
   */
  lemma {:induction false} ButtonDisabledMeaning(start: int, newPhrase: string, oldPhrase: string, newAPI: string, oldAPI: Option<string>)
    ensures ButtonDisabled(start, newPhrase, oldPhrase, newAPI, oldAPI) <==>
      && start == 1
      && (Blank(newPhrase) || (Trim(newPhrase) == Trim(oldPhrase) && !Blank(oldPhrase)))
      && (newAPI == "" || (oldAPI == Some(newAPI) && newAPI != ""))
    ensures start != 1 ==> !ButtonDisabled(start, newPhrase, oldPhrase, newAPI, oldAPI)
  {
    TrimSpec(newPhrase);
    TrimSpec(oldPhrase);
  }

  /** The API a submission searches with: the one picked in the form, or else the current one. */
  function ChosenAPI(newAPI: string, selected: Option<string>): Option<string>
  {
    if newAPI != "" then Some(newAPI) else selected
  }

  /** The parameters an accepted submission searches with. */
  function SubmittedParams(p: Params, newPhrase: string, newAPI: string): (r: Params)
    ensures r == p.(selectedAPI := r.selectedAPI, searchPhrase := newPhrase, error := "")
    ensures newAPI != "" ==> r.selectedAPI == Some(newAPI)
    ensures newAPI == "" ==> r.selectedAPI == p.selectedAPI
  {
    p.(selectedAPI := ChosenAPI(newAPI, p.selectedAPI), searchPhrase := newPhrase, error := "")
  }

  /**
   * What the guards let through: never an empty phrase, never an exact
   * repetition on the first page, never one the reset declines; and off the
   * first page every non-empty phrase searches.
   */
  lemma {:induction false} GuardsMeaning(start: int, newPhrase: string, oldPhrase: string, newAPI: string, oldAPI: Option<string>)
    ensures newPhrase == "" ==> !Accepted(start, newPhrase, oldPhrase, newAPI, oldAPI)
    ensures Unchanged(start, newPhrase, oldPhrase, newAPI, oldAPI) ==> !Accepted(start, newPhrase, oldPhrase, newAPI, oldAPI)
    ensures Accepted(start, newPhrase, oldPhrase, newAPI, oldAPI) <==>
      newPhrase != "" && !ResetDeclined(start, newPhrase, oldPhrase, newAPI, oldAPI)
    ensures start != 1 ==> (Accepted(start, newPhrase, oldPhrase, newAPI, oldAPI) <==> newPhrase != "")
  {
    if Unchanged(start, newPhrase, oldPhrase, newAPI, oldAPI) {
      assert ResetDeclined(start, newPhrase, oldPhrase, newAPI, oldAPI);
    }
  }

  /** A click on an enabled button with a non-empty phrase always searches. */
  lemma {:induction false} EnabledButtonSearches(start: int, newPhrase: string, oldPhrase: string, newAPI: string, oldAPI: Option<string>)
    requires !ButtonDisabled(start, newPhrase, oldPhrase, newAPI, oldAPI) && newPhrase != ""
    ensures Accepted(start, newPhrase, oldPhrase, newAPI, oldAPI)
  {
  }

  /**
   * The button and the guards disagree when the API selector was never
   * touched: after a search with phrase `phrase` from the current API, the
   * button is disabled for the same phrase, yet Enter searches again, because
   * the remembered API is the current one and the untouched selector is `""`.
   */
  lemma RepeatWithUntouchedSelector(phrase: string, selected: string)
    requires Trim(phrase) != "" && selected != ""
    ensures var oldAPI := ChosenAPI("", Some(selected));
      && ButtonDisabled(1, phrase, phrase, "", oldAPI)
      && Accepted(1, phrase, phrase, "", oldAPI)
  {
  }

  /**
   * An accepted submission searches the new phrase from row 1, ten rows at a
   * time, and after a successful search the parameters say so.
   */
  lemma {:induction false} SubmissionSearchesFirstPage(p: Params, newPhrase: string, newAPI: string, catalog: Result<CatalogView>,
                                                       reply: SearchReply, parse: string -> Option<Json>, stringify: Json -> string)
    ensures var q := SubmittedParams(p, newPhrase, newAPI);
      var o := SearchAttempt(q, catalog, Some(1), Some(ROWS_PER_PAGE), reply, parse, stringify);
      var after := ParamsAfterSearch(q, Some(1), Some(ROWS_PER_PAGE), o);
      && (o.request.Some? ==>
            o.request.value.start == 1 && o.request.value.num == ROWS_PER_PAGE && o.request.value.query == newPhrase)
      && (o.result.Success? ==>
            && after.start == 1 && after.num == ROWS_PER_PAGE && after.searchPhrase == newPhrase
            && after.error == "" && after.selectedAPI == ChosenAPI(newAPI, p.selectedAPI))
      && (o.result.Failure? ==> after.error == o.result.error && after.searchPhrase == newPhrase)
  {
    var q := SubmittedParams(p, newPhrase, newAPI);
    SearchRequestShape(q, catalog, Some(1), Some(ROWS_PER_PAGE), reply, parse, stringify);
    SearchParamsRule(q, catalog, Some(1), Some(ROWS_PER_PAGE), reply, parse, stringify);
  }

  /** The Header component's own state, over the application state it is given. */
  class SearchForm {
    const app: AppState
    var newSearchPhrase: string
    var oldSearchPhrase: string
    var oldAPI: Option<string>
    var newAPI: string

    constructor(app: AppState)
      ensures this.app == app
      ensures newSearchPhrase == "" && oldSearchPhrase == "" && oldAPI == Some("") && newAPI == ""
    {
      this.app := app;
      newSearchPhrase := "";
      oldSearchPhrase := "";
      oldAPI := Some("");
      newAPI := "";
    }

    /** `handleChange`: the phrase input. */
    method HandleChange(value: string)
      modifies this`newSearchPhrase
      ensures newSearchPhrase == value
    {
      newSearchPhrase := value;
    }

    /** `handleChangeAPI`: remembers the pick and replaces only `selectedAPI` in a copy of the parameters. */
    method HandleChangeAPI(value: string)
      modifies this`newAPI, app`params
      ensures newAPI == value
      ensures app.params == old(app.params).(selectedAPI := Some(value))
    {
      newAPI := value;
      app.params := app.params.(selectedAPI := Some(value));
    }

    /** `resetSearchPhrase`: declines a repetition, otherwise stores the submission and reports whether the phrase is non-empty. */
    method ResetSearchPhrase() returns (reset: bool)
      modifies this`oldSearchPhrase, this`oldAPI, app`params
      ensures ResetDeclined(old(app.params).start, newSearchPhrase, old(oldSearchPhrase), newAPI, old(oldAPI)) ==>
        !reset && oldSearchPhrase == old(oldSearchPhrase) && oldAPI == old(oldAPI) && app.params == old(app.params)
      ensures !ResetDeclined(old(app.params).start, newSearchPhrase, old(oldSearchPhrase), newAPI, old(oldAPI)) ==>
        && reset == (newSearchPhrase != "")
        && oldSearchPhrase == newSearchPhrase
        && oldAPI == ChosenAPI(newAPI, old(app.params).selectedAPI)
        && app.params == SubmittedParams(old(app.params), newSearchPhrase, newAPI)
    {
      if Trim(oldSearchPhrase) == Trim(newSearchPhrase) && oldAPI == Some(newAPI) && app.params.start == 1 {
        return false;
      }
      var newParams := app.params;
      oldSearchPhrase := newSearchPhrase;
      oldAPI := if newAPI != "" then Some(newAPI) else newParams.selectedAPI;
      newParams := newParams.(selectedAPI := if newAPI != "" then Some(newAPI) else newParams.selectedAPI);
      newParams := newParams.(searchPhrase := newSearchPhrase);
      newParams := newParams.(error := "");
      app.params := newParams;
      return newSearchPhrase != "";
    }

    /** `handleClick`: the guards, the reset, then a search of the first page. */
    method Submit(store: LocalStorage, net: Network, reply: SearchReply, parse: string -> Option<Json>, stringify: Json -> string)
      returns (searched: bool)
      modifies this`oldSearchPhrase, this`oldAPI, app`params, app`showError, app`showQuery, app`searchResults, net
      ensures searched <==> Accepted(old(app.params).start, newSearchPhrase, old(oldSearchPhrase), newAPI, old(oldAPI))
      ensures !searched ==>
        && oldSearchPhrase == old(oldSearchPhrase) && oldAPI == old(oldAPI)
        && app.Current() == old(app.Current()) && net.sent == old(net.sent)
      ensures searched ==>
        var q := SubmittedParams(old(app.params), newSearchPhrase, newAPI);
        var o := SearchAttempt(q, ReadCatalog(store.items), Some(1), Some(ROWS_PER_PAGE), reply, parse, stringify);
        && oldSearchPhrase == newSearchPhrase && oldAPI == ChosenAPI(newAPI, old(app.params).selectedAPI)
        && net.sent == old(net.sent) + SentBy(o)
        && app.Current() == AfterSearch(old(app.Current()).(params := q), Some(1), Some(ROWS_PER_PAGE), o)
    {
      if oldSearchPhrase == newSearchPhrase && oldAPI == Some(newAPI) && app.params.start == 1 {
        return false;
      }
      if |newSearchPhrase| == 0 {
        return false;
      }
      ghost var before := app.Current();
      var reset := ResetSearchPhrase();
      if reset {
        ghost var q := SubmittedParams(before.params, newSearchPhrase, newAPI);
        ghost var o := SearchAttempt(q, ReadCatalog(store.items), Some(1), Some(ROWS_PER_PAGE), reply, parse, stringify);
        assert app.Current() == before.(params := q);
        var _ := Search(app, store, net, Some(1), Some(ROWS_PER_PAGE), reply, parse, stringify);
      } else {
        assert app.params == before.params;
      }
      return reset;
    }

    /** `handleKeyPress`: Enter submits like the button; every other key does nothing. */
    method HandleKeyPress(key: string, store: LocalStorage, net: Network,
                          reply: SearchReply, parse: string -> Option<Json>, stringify: Json -> string)
      returns (searched: bool)
      modifies this`oldSearchPhrase, this`oldAPI, app`params, app`showError, app`showQuery, app`searchResults, net
      ensures key != "Enter" ==>
        !searched && oldSearchPhrase == old(oldSearchPhrase) && oldAPI == old(oldAPI)
        && app.Current() == old(app.Current()) && net.sent == old(net.sent)
      ensures key == "Enter" ==>
        (searched <==> Accepted(old(app.params).start, newSearchPhrase, old(oldSearchPhrase), newAPI, old(oldAPI)))
      ensures key == "Enter" && !searched ==>
        && oldSearchPhrase == old(oldSearchPhrase) && oldAPI == old(oldAPI)
        && app.Current() == old(app.Current()) && net.sent == old(net.sent)
      ensures key == "Enter" && searched ==>
        var q := SubmittedParams(old(app.params), newSearchPhrase, newAPI);
        var o := SearchAttempt(q, ReadCatalog(store.items), Some(1), Some(ROWS_PER_PAGE), reply, parse, stringify);
        && oldSearchPhrase == newSearchPhrase && oldAPI == ChosenAPI(newAPI, old(app.params).selectedAPI)
        && net.sent == old(net.sent) + SentBy(o)
        && app.Current() == AfterSearch(old(app.Current()).(params := q), Some(1), Some(ROWS_PER_PAGE), o)
    {
      if key == "Enter" {
        searched := Submit(store, net, reply, parse, stringify);
      } else {
        searched := false;
      }
    }
  }
}
