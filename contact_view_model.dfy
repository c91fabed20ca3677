/**
 * `LWContactViewModel`: the published state a contact list screen binds to,
 * updated step by step by `requestAccess`, `loadContacts` and `refresh`.
 *
 * The service is seen through what its calls answer: `access` is what
 * `requestAccess()` returns or throws, and `load` maps the query handed to
 * `loadContacts(searchText:)` to what that call returns or throws.
 */
module ContactViewModel {
  import opened Wrappers
  import opened Text
  import opened ContactModel
  import ContactService

  /** `LWContactViewModel.AuthorizationStatus`. */
  datatype AccessState = NotDetermined | Authorized | Denied

  const AccessDeniedMessage: string := "Contacts access denied. Please enable in Settings."

  /** The message shown when `requestAccess()` throws. */
  function RequestFailedMessage(e: Error): string
  {
    "Failed to request access: " + e.localizedDescription
  }

  /** The message shown when `loadContacts(searchText:)` throws. */
  function LoadFailedMessage(e: Error): string
  {
    "Failed to load contacts: " + e.localizedDescription
  }

  /**
   * The query `loadContacts` hands to the service: the search text without
   * surrounding whitespace and newlines, or nil when nothing is left. Only
   * whitespace and newlines are cut before and after the query.
   */
  function SearchQuery(searchText: string): (r: Option<string>)
    ensures r.None? <==> forall k :: 0 <= k < |searchText| ==> IsWhitespaceOrNewline(searchText[k])
    ensures r.Some? ==>
      && r.value != []
      && !IsWhitespaceOrNewline(r.value[0])
      && !IsWhitespaceOrNewline(r.value[|r.value| - 1])
      && exists lo ::
           && OccursAt(searchText, r.value, lo)
           && (forall i :: 0 <= i < lo ==> IsWhitespaceOrNewline(searchText[i]))
           && (forall i :: lo + |r.value| <= i < |searchText| ==> IsWhitespaceOrNewline(searchText[i]))
  {
    var query := Trim(searchText, IsWhitespaceOrNewline);
    TrimEmpty(searchText, IsWhitespaceOrNewline);
    var lo := SkipLeading(searchText, IsWhitespaceOrNewline, 0);
    assert query == searchText[lo..lo + |query|];
    assert OccursAt(searchText, query, lo);
    if query == [] then None else Some(query)
  }

  /** A query the view model hands over is left unchanged by a second trimming. */
  lemma SearchQueryStable(searchText: string)
    requires SearchQuery(searchText).Some?
    ensures SearchQuery(SearchQuery(searchText).value) == SearchQuery(searchText)
  {
    TrimIdempotent(searchText, IsWhitespaceOrNewline);
  }

  /**
   * Because the view model trims the query first, the service's filter
   * reduces to a plain substring test with the trimmed query: a blank search
   * text matches every contact, any other matches by name or phone number.
   */
  lemma {:induction false} FilterWithViewModelQuery(c: Contact, searchText: string)
    ensures SearchQuery(searchText).None? ==> ContactService.Matches(c, SearchQuery(searchText))
    ensures SearchQuery(searchText).Some? ==>
      var q := Lowercased(SearchQuery(searchText).value);
      (ContactService.Matches(c, SearchQuery(searchText)) <==>
         || Contains(Lowercased(FullName(c)), q)
         || exists i :: 0 <= i < |c.phoneNumbers| && Contains(c.phoneNumbers[i].number, q))
  {
    var query := SearchQuery(searchText);
    ContactService.MatchesMeaning(c, query);
    if query.Some? {
      assert !IsWhitespaceOrNewline(query.value[0]);
    }
  }

  class ViewModel {
    var contacts: seq<Contact>
    var searchText: string
    var isLoading: bool
    var errorMessage: Option<string>
    var authorizationStatus: AccessState

    /** Between calls the loading flag is down. */
    ghost predicate Settled()
      reads this
    {
      !isLoading
    }

    /** The list and the message after a settled load: the list on success, else no list and the failure message. */
    ghost predicate Shows(outcome: Result<seq<Contact>>)
      reads this
    {
      match outcome
      case Success(list) => contacts == list && errorMessage == None
      case Failure(e) => contacts == [] && errorMessage == Some(LoadFailedMessage(e))
    }

    /** `init(primaryLanguage:)`: the initial published state. */
    constructor ()
      ensures Settled()
      ensures contacts == [] && searchText == "" && errorMessage == None && authorizationStatus == NotDetermined
    {
      contacts := [];
      searchText := "";
      isLoading := false;
      errorMessage := None;
      authorizationStatus := NotDetermined;
    }

    /** The `searchText` setter. */
    method SetSearchText(text: string)
      modifies this
      ensures searchText == text
      ensures contacts == old(contacts) && isLoading == old(isLoading)
      ensures errorMessage == old(errorMessage) && authorizationStatus == old(authorizationStatus)
    {
      searchText := text;
    }

    /**
     * `loadContacts()`: asks the service with the trimmed search text and
     * settles on its answer; an error never leaves a list behind.
     */
    method LoadContacts(load: Option<string> -> Result<seq<Contact>>)
      modifies this
      ensures Settled()
      ensures Shows(load(SearchQuery(old(searchText))))
      ensures errorMessage.Some? ==> contacts == []
      ensures searchText == old(searchText) && authorizationStatus == old(authorizationStatus)
    {
      isLoading := true;
      errorMessage := None;
      var query := Trim(searchText, IsWhitespaceOrNewline);
      var outcome := load(if query == [] then None else Some(query));
      match outcome {
        case Success(list) =>
          contacts := list;
        case Failure(e) =>
          errorMessage := Some(LoadFailedMessage(e));
          contacts := [];
      }
      isLoading := false;
    }

    /**
     * `requestAccess()`: records the decision; on a grant loads the contacts,
     * on a refusal or an error shows a message and keeps the list as it was.
     */
    method RequestAccess(access: Result<bool>, load: Option<string> -> Result<seq<Contact>>)
      modifies this
      ensures Settled()
      ensures searchText == old(searchText)
      ensures access == Success(true) ==> authorizationStatus == Authorized && Shows(load(SearchQuery(old(searchText))))
      ensures access == Success(false) ==>
        authorizationStatus == Denied && errorMessage == Some(AccessDeniedMessage) && contacts == old(contacts)
      ensures access.Failure? ==>
        authorizationStatus == Denied && errorMessage == Some(RequestFailedMessage(access.error)) && contacts == old(contacts)
    {
      isLoading := true;
      errorMessage := None;
      match access {
        case Success(granted) =>
          authorizationStatus := if granted then Authorized else Denied;
          if granted {
            LoadContacts(load);
          } else {
            errorMessage := Some(AccessDeniedMessage);
          }
        case Failure(e) =>
          errorMessage := Some(RequestFailedMessage(e));
          authorizationStatus := Denied;
      }
      isLoading := false;
    }

    /** `refresh()`: exactly a `loadContacts()`. */
    method Refresh(load: Option<string> -> Result<seq<Contact>>)
      modifies this
      ensures Settled()
      ensures Shows(load(SearchQuery(old(searchText))))
      ensures errorMessage.Some? ==> contacts == []
      ensures searchText == old(searchText) && authorizationStatus == old(authorizationStatus)
    {
      LoadContacts(load);
    }
  }
}
