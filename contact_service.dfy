/**
 * `LWContactService`: the permission gate, the search filter, the
 * language-dependent ordering and the two retrieval entry points (one
 * `async throws`, one with a completion handler).
 *
 * The platform is an input: the authorization status the store reports, the
 * reply of the permission prompt, what the store's enumeration delivers, the
 * label localizer, the pinyin initial-letter lookup and the locale collation.
 */
module ContactService {
  import opened Wrappers
  import opened Text
  import opened ContactModel
  import Sorting

  /** `CNAuthorizationStatus`; `Unknown` stands for every case reached through `@unknown default`. */
  datatype AuthorizationStatus = NotDetermined | Restricted | Denied | Authorized | Unknown

  /** `ComparisonResult`. */
  datatype Ordering = Ascending | Same | Descending

  /** What the permission prompt hands to its completion handler. */
  datatype PromptReply = PromptReply(granted: bool, error: Option<Error>)

  /**
   * What `enumerateContacts(with:usingBlock:)` does in one run: the records it
   * hands to the block, in order, and the error it then throws, if any.
   */
  datatype Enumeration = Enumeration(records: seq<RawRecord>, failure: Option<Error>)

  /** The platform state that one call of the service observes. */
  datatype Platform = Platform(
    status: AuthorizationStatus,
    prompt: PromptReply,
    enumeration: Enumeration,
    localizeLabel: string -> string)

  /** `PinyinHelper.pinyinFirstLetter(for:)` and `localizedCaseInsensitiveCompare(_:)`. */
  datatype Collation = Collation(
    pinyinFirstLetter: string -> char,
    localizedCompare: (string, string) -> Ordering)

  /** The contacts returned by the completion-handler form, with its error argument. */
  datatype Delivery = Delivery(contacts: seq<Contact>, error: Option<Error>)

  // ---------------------------------------------------------------------------
  // Authorization
  // ---------------------------------------------------------------------------

  /**
   * The `async throws` form of the prompt as Swift bridges it from the
   * completion-handler form: an error is thrown, otherwise `granted` is returned.
   */
  function Bridged(reply: PromptReply): (r: Result<bool>)
    ensures r.Failure? <==> reply.error.Some?
    ensures r.Failure? ==> r.error == reply.error.value
    ensures r.Success? ==> r.value == reply.granted
  {
    if reply.error.Some? then Failure(reply.error.value) else Success(reply.granted)
  }

  /**
   * `requestAccess() async throws -> Bool`: authorized answers true, denied,
   * restricted and unknown statuses answer false, and only an undetermined
   * status defers to the prompt.
   */
  function RequestAccess(status: AuthorizationStatus, prompt: Result<bool>): (r: Result<bool>)
    ensures r == Success(true) <==> status == Authorized || (status == NotDetermined && prompt == Success(true))
    ensures r.Failure? <==> status == NotDetermined && prompt.Failure?
    ensures r.Failure? ==> r == prompt
  {
    match status
    case Authorized => Success(true)
    case NotDetermined => prompt
    case Denied => Success(false)
    case Restricted => Success(false)
    case Unknown => Success(false)
  }

  /** `requestAccess(completion:)`: the same decision, reported as `(granted, error)`. */
  function RequestAccessWithCompletion(status: AuthorizationStatus, prompt: PromptReply): (r: PromptReply)
    ensures r.granted <==> status == Authorized || (status == NotDetermined && prompt.granted)
    ensures r.error.Some? ==> status == NotDetermined && r == prompt
  {
    match status
    case Authorized => PromptReply(true, None)
    case NotDetermined => prompt
    case Denied => PromptReply(false, None)
    case Restricted => PromptReply(false, None)
    case Unknown => PromptReply(false, None)
  }

  /** Every status but `NotDetermined` is answered without consulting the prompt. */
  lemma PromptOnlyWhenNotDetermined(status: AuthorizationStatus, p1: Result<bool>, p2: Result<bool>,
                                    q1: PromptReply, q2: PromptReply)
    requires status != NotDetermined
    ensures RequestAccess(status, p1) == RequestAccess(status, p2)
    ensures RequestAccessWithCompletion(status, q1) == RequestAccessWithCompletion(status, q2)
  {
  }

  /** The two forms of `requestAccess` take the same decision. */
  lemma {:induction false} AccessFormsAgree(status: AuthorizationStatus, reply: PromptReply)
    ensures RequestAccess(status, Bridged(reply)) == Bridged(RequestAccessWithCompletion(status, reply))
  {
    match status
    case Authorized =>
    case NotDetermined =>
    case Denied =>
    case Restricted =>
    case Unknown =>
  }

  // ---------------------------------------------------------------------------
  // Search filter
  // ---------------------------------------------------------------------------

  /** The loop over the phone numbers: some number contains `query`, verbatim. */
  function AnyPhoneContains(phones: seq<PhoneNumber>, query: string): (r: bool)
    ensures r <==> exists i :: 0 <= i < |phones| && Contains(phones[i].number, query)
  {
    if phones == [] then false
    else if Contains(phones[0].number, query) then true
    else
      var found := AnyPhoneContains(phones[1..], query);
      assert forall i :: 1 <= i < |phones| ==> phones[1..][i - 1] == phones[i];
      found
  }

  /** `matchesSearchCriteria(contact:searchText:)`. */
  function Matches(c: Contact, searchText: Option<string>): bool
  {
    if searchText.None? || Trim(searchText.value, IsWhitespaceOrNewline) == [] then true
    else
      var search := Lowercased(searchText.value);
      if Contains(Lowercased(FullName(c)), search) then true
      else AnyPhoneContains(c.phoneNumbers, search)
  }

  /**
   * A missing query, or one made only of whitespace and newlines, matches
   * every contact. Any other query matches exactly when its lower-cased form,
   * untrimmed, occurs in the lower-cased full name or, as it is, in one of the
   * phone numbers.
   */
  lemma MatchesMeaning(c: Contact, searchText: Option<string>)
    ensures searchText.None? ==> Matches(c, searchText)
    ensures searchText.Some? && (forall k :: 0 <= k < |searchText.value| ==> IsWhitespaceOrNewline(searchText.value[k])) ==>
      Matches(c, searchText)
    ensures searchText.Some? && (exists k :: 0 <= k < |searchText.value| && !IsWhitespaceOrNewline(searchText.value[k])) ==>
      (Matches(c, searchText) <==>
         || Contains(Lowercased(FullName(c)), Lowercased(searchText.value))
         || exists i :: 0 <= i < |c.phoneNumbers| && Contains(c.phoneNumbers[i].number, Lowercased(searchText.value)))
  {
    if searchText.Some? {
      TrimEmpty(searchText.value, IsWhitespaceOrNewline);
    }
  }

  /**
   * A query holding a character that, lower-cased, appears neither in the
   * lower-cased full name nor in any phone number rules the contact out,
   * unless the query is blank.
   */
  lemma ForeignCharExcludes(c: Contact, query: string, j: int)
    requires exists k :: 0 <= k < |query| && !IsWhitespaceOrNewline(query[k])
    requires 0 <= j < |query|
    requires forall k :: 0 <= k < |FullName(c)| ==> LowerChar(FullName(c)[k]) != LowerChar(query[j])
    requires forall i, k :: 0 <= i < |c.phoneNumbers| && 0 <= k < |c.phoneNumbers[i].number| ==>
      c.phoneNumbers[i].number[k] != LowerChar(query[j])
    ensures !Matches(c, Some(query))
  {
    var q := Lowercased(query);
    var name := Lowercased(FullName(c));
    assert q[j] == LowerChar(query[j]);
    NotContainsForeignChar(name, q, j);
    forall i | 0 <= i < |c.phoneNumbers|
      ensures !Contains(c.phoneNumbers[i].number, q)
    {
      NotContainsForeignChar(c.phoneNumbers[i].number, q, j);
    }
    MatchesMeaning(c, Some(query));
  }

  /**
   * The search ignores ASCII case: two queries that lower-case to the same
   * string match the same contacts.
   */
  lemma MatchesIgnoresCase(c: Contact, q1: string, q2: string)
    requires Lowercased(q1) == Lowercased(q2)
    ensures Matches(c, Some(q1)) == Matches(c, Some(q2))
  {
    LowercasedKeepsBlanks(q1);
    LowercasedKeepsBlanks(q2);
    TrimEmpty(q1, IsWhitespaceOrNewline);
    TrimEmpty(q2, IsWhitespaceOrNewline);
  }

  // ---------------------------------------------------------------------------
  // Ordering
  // ---------------------------------------------------------------------------

  /** The sort key: the first name, or the last name when the first name is empty. */
  function SortKey(c: Contact): (r: string)
    ensures c.firstName != [] ==> r == c.firstName
    ensures c.firstName == [] ==> r == c.lastName
    ensures r == [] <==> c.firstName == [] && c.lastName == []
  {
    if c.firstName == [] then c.lastName else c.firstName
  }

  /** `primaryLanguage.hasPrefix("zh")`. */
  predicate IsChinese(language: string)
  {
    |language| >= 2 && language[..2] == "zh"
  }

  /**
   * The Chinese comparator: when either key is empty, a contact comes first
   * exactly when its own key is empty and the other is not; otherwise the
   * upper-cased pinyin initials of the keys are compared.
   */
  predicate PinyinBefore(a: Contact, b: Contact, pinyinFirstLetter: string -> char)
  {
    var name1 := SortKey(a);
    var name2 := SortKey(b);
    if name1 == [] || name2 == [] then name1 == [] && name2 != []
    else UpperChar(pinyinFirstLetter(name1)) < UpperChar(pinyinFirstLetter(name2))
  }

  /** The comparator for every other language: the collation ranks the first key before the second. */
  predicate CollationBefore(a: Contact, b: Contact, compare: (string, string) -> Ordering)
  {
    compare(SortKey(a), SortKey(b)) == Ascending
  }

  /** The comparator `sortContacts` hands to `sorted(by:)` for `language`. */
  function Comparator(language: string, collation: Collation): (Contact, Contact) -> bool
  {
    if IsChinese(language) then (a, b) => PinyinBefore(a, b, collation.pinyinFirstLetter)
    else (a, b) => CollationBefore(a, b, collation.localizedCompare)
  }

  /** `sortContacts(_:)`. */
  function SortContacts(contacts: seq<Contact>, language: string, collation: Collation): (r: seq<Contact>)
    ensures multiset(r) == multiset(contacts)
  {
    Sorting.Sort(contacts, Comparator(language, collation))
  }

  /** The position the Chinese comparator gives a contact: -1 for an empty key, else the code of its initial. */
  function PinyinRank(c: Contact, pinyinFirstLetter: string -> char): int
  {
    if SortKey(c) == [] then -1 else UpperChar(pinyinFirstLetter(SortKey(c))) as int
  }

  /** The Chinese comparator orders contacts by their rank. */
  lemma PinyinBeforeIsRankOrder(a: Contact, b: Contact, pinyinFirstLetter: string -> char)
    ensures PinyinBefore(a, b, pinyinFirstLetter) <==> PinyinRank(a, pinyinFirstLetter) < PinyinRank(b, pinyinFirstLetter)
  {
  }

  /** The Chinese comparator is irreflexive, asymmetric and transitive. */
  lemma PinyinOrderIsStrict(pinyinFirstLetter: string -> char)
    ensures forall a :: !PinyinBefore(a, a, pinyinFirstLetter)
    ensures forall a, b :: PinyinBefore(a, b, pinyinFirstLetter) ==> !PinyinBefore(b, a, pinyinFirstLetter)
    ensures Sorting.StrictOrder((a, b) => PinyinBefore(a, b, pinyinFirstLetter))
  {
    forall a, b
      ensures PinyinBefore(a, b, pinyinFirstLetter) <==> PinyinRank(a, pinyinFirstLetter) < PinyinRank(b, pinyinFirstLetter)
    {
      PinyinBeforeIsRankOrder(a, b, pinyinFirstLetter);
    }
  }

  /** What `sorted(by:)` needs of the collation: it never ranks a key before itself, and it chains. */
  ghost predicate CollationIsStrict(compare: (string, string) -> Ordering)
  {
    && (forall s :: compare(s, s) != Ascending)
    && (forall s, t, u :: compare(s, t) == Ascending && compare(t, u) == Ascending ==> compare(s, u) == Ascending)
  }

  /**
   * Chinese ordering: the output is a permutation of the input, contacts with an
   * empty key come before all others, and the others have non-decreasing
   * upper-cased pinyin initials.
   */
  lemma ChineseSortOrder(contacts: seq<Contact>, language: string, collation: Collation)
    requires IsChinese(language)
    ensures var r := SortContacts(contacts, language, collation);
      && multiset(r) == multiset(contacts)
      && (forall i, j :: 0 <= i < j < |r| && SortKey(r[j]) == [] ==> SortKey(r[i]) == [])
      && (forall i, j :: 0 <= i < j < |r| && SortKey(r[i]) != [] && SortKey(r[j]) != [] ==>
            UpperChar(collation.pinyinFirstLetter(SortKey(r[i]))) <= UpperChar(collation.pinyinFirstLetter(SortKey(r[j]))))
  {
    var less := (a, b) => PinyinBefore(a, b, collation.pinyinFirstLetter);
    PinyinOrderIsStrict(collation.pinyinFirstLetter);
    Sorting.SortSorted(contacts, less);
    var r := SortContacts(contacts, language, collation);
    forall i, j | 0 <= i < j < |r|
      ensures !PinyinBefore(r[j], r[i], collation.pinyinFirstLetter)
    {
    }
  }

  /**
   * Every other language: the output is a permutation of the input in which no
   * key is ranked by the collation before the key of an earlier contact.
   */
  lemma CollationSortOrder(contacts: seq<Contact>, language: string, collation: Collation)
    requires !IsChinese(language)
    requires CollationIsStrict(collation.localizedCompare)
    ensures var r := SortContacts(contacts, language, collation);
      && multiset(r) == multiset(contacts)
      && forall i, j :: 0 <= i < j < |r| ==> collation.localizedCompare(SortKey(r[j]), SortKey(r[i])) != Ascending
  {
    var less := (a, b) => CollationBefore(a, b, collation.localizedCompare);
    Sorting.SortSorted(contacts, less);
  }

  // ---------------------------------------------------------------------------
  // Retrieval
  // ---------------------------------------------------------------------------

  /**
   * The contacts the enumeration block appends, in enumeration order: each
   * record that converts to a contact, when that contact matches the query.
   */
  function Collected(records: seq<RawRecord>, searchText: Option<string>, localize: string -> string): (r: seq<Contact>)
    ensures |r| <= |records|
    ensures forall c :: c in r ==> c.phoneNumbers != [] && Matches(c, searchText)
  {
    if records == [] then []
    else
      var prefix := Collected(records[..|records| - 1], searchText, localize);
      match ToContact(records[|records| - 1], localize)
      case Some(c) => if Matches(c, searchText) then prefix + [c] else prefix
      case None => prefix
  }

  /** Record `i` of `records` converts to the contact `c`. */
  predicate ConvertsTo(records: seq<RawRecord>, i: int, localize: string -> string, c: Contact)
  {
    0 <= i < |records| && ToContact(records[i], localize) == Some(c)
  }

  /** A contact is collected exactly when some record converts to it and it matches the query. */
  lemma {:induction false} CollectedExactly(records: seq<RawRecord>, searchText: Option<string>,
                                           localize: string -> string, c: Contact)
    ensures c in Collected(records, searchText, localize) <==>
      Matches(c, searchText) && exists i :: ConvertsTo(records, i, localize, c)
  {
    if records != [] {
      var n := |records| - 1;
      var init := records[..n];
      CollectedExactly(init, searchText, localize, c);
      if ToContact(records[n], localize) == Some(c) {
        assert ConvertsTo(records, n, localize, c);
      }
      if exists i :: ConvertsTo(records, i, localize, c) {
        var i :| ConvertsTo(records, i, localize, c);
        if i < n {
          assert ConvertsTo(init, i, localize, c);
        }
      }
      if exists i :: ConvertsTo(init, i, localize, c) {
        var i :| ConvertsTo(init, i, localize, c);
        assert ConvertsTo(records, i, localize, c);
      }
    }
  }

  /**
   * The enumeration loop shared by both forms of `loadContacts`: the block
   * appends each converted, matching contact; an error thrown by the
   * enumeration discards what was gathered.
   */
  method EnumerateMatching(enumeration: Enumeration, searchText: Option<string>, localize: string -> string)
    returns (r: Result<seq<Contact>>)
    ensures enumeration.failure.Some? ==> r == Failure(enumeration.failure.value)
    ensures enumeration.failure.None? ==> r == Success(Collected(enumeration.records, searchText, localize))
  {
    var records := enumeration.records;
    var contacts: seq<Contact> := [];
    var i := 0;
    while i < |records|
      invariant 0 <= i <= |records|
      invariant contacts == Collected(records[..i], searchText, localize)
    {
      assert records[..i + 1][..i] == records[..i];
      var converted := ToContact(records[i], localize);
      if converted.Some? && Matches(converted.value, searchText) {
        contacts := contacts + [converted.value];
      }
      i := i + 1;
    }
    assert records[..|records|] == records;
    if enumeration.failure.Some? {
      return Failure(enumeration.failure.value);
    }
    return Success(contacts);
  }

  /** The outcome of `loadContacts(searchText:) async throws`. */
  function LoadOutcome(language: string, platform: Platform, collation: Collation, searchText: Option<string>): Result<seq<Contact>>
  {
    if platform.status != Authorized then
      match RequestAccess(platform.status, Bridged(platform.prompt))
      case Failure(e) => Failure(e)
      case Success(_) => Success([])
    else if platform.enumeration.failure.Some? then Failure(platform.enumeration.failure.value)
    else Success(SortContacts(Collected(platform.enumeration.records, searchText, platform.localizeLabel), language, collation))
  }

  /**
   * The outcome of `loadContacts(searchText:completion:)`. When access is not
   * yet authorized it asks for it, and on a grant runs again; the platform then
   * reports the status as authorized.
   */
  function DeliveryOutcome(language: string, platform: Platform, collation: Collation, searchText: Option<string>): Delivery
    decreases if platform.status == Authorized then 0 else 1
  {
    if platform.status != Authorized then
      var reply := RequestAccessWithCompletion(platform.status, platform.prompt);
      if reply.granted then DeliveryOutcome(language, platform.(status := Authorized), collation, searchText)
      else Delivery([], reply.error)
    else if platform.enumeration.failure.Some? then Delivery([], platform.enumeration.failure)
    else Delivery(SortContacts(Collected(platform.enumeration.records, searchText, platform.localizeLabel), language, collation), None)
  }

  /**
   * Without authorization the `async` form returns an empty list, or rethrows
   * the prompt's error, whatever the store holds and even when the prompt grants.
   */
  lemma LoadWithoutAuthorization(language: string, platform: Platform, collation: Collation, searchText: Option<string>)
    requires platform.status != Authorized
    ensures LoadOutcome(language, platform, collation, searchText) ==
      if platform.status == NotDetermined && platform.prompt.error.Some? then Failure(platform.prompt.error.value)
      else Success([])
  {
  }

  /**
   * Whatever the `async` form returns is a contact list in which every contact
   * has a phone number and matches the query; with access and a clean
   * enumeration it is a permutation of the collected contacts.
   */
  lemma LoadResultSound(language: string, platform: Platform, collation: Collation, searchText: Option<string>)
    ensures var r := LoadOutcome(language, platform, collation, searchText);
      && (r.Success? ==> forall c :: c in r.value ==> c.phoneNumbers != [] && Matches(c, searchText))
      && (platform.status == Authorized && platform.enumeration.failure.None? ==>
            r.Success? && multiset(r.value) == multiset(Collected(platform.enumeration.records, searchText, platform.localizeLabel)))
  {
    var r := LoadOutcome(language, platform, collation, searchText);
    if r.Success? && platform.status == Authorized {
      var collected := Collected(platform.enumeration.records, searchText, platform.localizeLabel);
      forall c | c in r.value
        ensures c in collected
      {
        assert c in multiset(r.value);
      }
    }
  }

  /**
   * The completion form never delivers a partial list: an error comes with an
   * empty list, an authorized clean enumeration with the sorted list and no
   * error, a refusal with an empty list and the prompt's error, if any, and a
   * grant with what the authorized call delivers. Every delivered contact has
   * a phone number and matches the query.
   */
  lemma {:induction false} DeliveryOutcomes(language: string, platform: Platform, collation: Collation, searchText: Option<string>)
    ensures var d := DeliveryOutcome(language, platform, collation, searchText);
      && (d.error.Some? ==> d.contacts == [])
      && (platform.status == Authorized && platform.enumeration.failure.Some? ==> d == Delivery([], platform.enumeration.failure))
      && (platform.status == Authorized && platform.enumeration.failure.None? ==>
            d == Delivery(SortContacts(Collected(platform.enumeration.records, searchText, platform.localizeLabel), language, collation), None))
      && (platform.status != Authorized && !RequestAccessWithCompletion(platform.status, platform.prompt).granted ==>
            d == Delivery([], RequestAccessWithCompletion(platform.status, platform.prompt).error))
      && (platform.status != Authorized && RequestAccessWithCompletion(platform.status, platform.prompt).granted ==>
            d == DeliveryOutcome(language, platform.(status := Authorized), collation, searchText))
      && (forall c :: c in d.contacts ==> c.phoneNumbers != [] && Matches(c, searchText))
    decreases if platform.status == Authorized then 0 else 1
  {
    if platform.status != Authorized && RequestAccessWithCompletion(platform.status, platform.prompt).granted {
      DeliveryOutcomes(language, platform.(status := Authorized), collation, searchText);
    } else if platform.status == Authorized && platform.enumeration.failure.None? {
      var d := DeliveryOutcome(language, platform, collation, searchText);
      var collected := Collected(platform.enumeration.records, searchText, platform.localizeLabel);
      forall c | c in d.contacts
        ensures c in collected
      {
        assert c in multiset(d.contacts);
      }
    }
  }

  /**
   * Once access is authorized the two forms agree: the completion form delivers
   * the list the `async` form returns, or an empty list with the error it throws.
   */
  lemma LoadFormsAgreeWhenAuthorized(language: string, platform: Platform, collation: Collation, searchText: Option<string>)
    requires platform.status == Authorized
    ensures var r := LoadOutcome(language, platform, collation, searchText);
      DeliveryOutcome(language, platform, collation, searchText) ==
        if r.Success? then Delivery(r.value, None) else Delivery([], Some(r.error))
  {
  }

  /** The language chosen at initialization: a non-empty requested language, else the bundle's first, else "en". */
  function ChooseLanguage(requested: Option<string>, preferredLocalizations: seq<string>): (r: string)
    ensures requested.Some? && requested.value != [] ==> r == requested.value
    ensures (requested.None? || requested.value == []) && preferredLocalizations != [] ==> r == preferredLocalizations[0]
    ensures (requested.None? || requested.value == []) && preferredLocalizations == [] ==> r == "en"
  {
    if requested.Some? && requested.value != [] then requested.value
    else if preferredLocalizations != [] then preferredLocalizations[0]
    else "en"
  }

  /** `LWContactService`: the contact store is the platform input; the sort language is fixed at creation. */
  class Service {
    const primaryLanguage: string

    /** `init(primaryLanguage:)`; `preferredLocalizations` is `Bundle.main.preferredLocalizations`. */
    constructor (requested: Option<string>, preferredLocalizations: seq<string>)
      ensures primaryLanguage == ChooseLanguage(requested, preferredLocalizations)
    {
      primaryLanguage := ChooseLanguage(requested, preferredLocalizations);
    }

    /**
     * `loadContacts(searchText:) async throws`. `enumerated` tells whether the
     * store was enumerated: only when the status is already authorized.
     */
    method LoadContacts(platform: Platform, collation: Collation, searchText: Option<string>)
      returns (r: Result<seq<Contact>>, enumerated: bool)
      ensures enumerated <==> platform.status == Authorized
      ensures r == LoadOutcome(primaryLanguage, platform, collation, searchText)
    {
      if platform.status != Authorized {
        var access := RequestAccess(platform.status, Bridged(platform.prompt));
        if access.Failure? {
          return Failure(access.error), false;
        }
        return Success([]), false;
      }
      var collected := EnumerateMatching(platform.enumeration, searchText, platform.localizeLabel);
      if collected.Failure? {
        return Failure(collected.error), true;
      }
      r := Success(SortContacts(collected.value, primaryLanguage, collation));
      enumerated := true;
    }

    /**
     * `loadContacts(searchText:completion:)`: returns the arguments the
     * completion handler receives. The store is enumerated when the status is
     * authorized or the prompt grants access.
     */
    method LoadContactsWithCompletion(platform: Platform, collation: Collation, searchText: Option<string>)
      returns (contacts: seq<Contact>, error: Option<Error>, enumerated: bool)
      ensures enumerated <==> platform.status == Authorized || RequestAccessWithCompletion(platform.status, platform.prompt).granted
      ensures Delivery(contacts, error) == DeliveryOutcome(primaryLanguage, platform, collation, searchText)
      decreases if platform.status == Authorized then 0 else 1
    {
      if platform.status != Authorized {
        var reply := RequestAccessWithCompletion(platform.status, platform.prompt);
        if reply.granted {
          contacts, error, enumerated := LoadContactsWithCompletion(platform.(status := Authorized), collation, searchText);
        } else {
          contacts, error, enumerated := [], reply.error, false;
        }
        return;
      }
      var collected := EnumerateMatching(platform.enumeration, searchText, platform.localizeLabel);
      enumerated := true;
      if collected.Failure? {
        contacts, error := [], Some(collected.error);
      } else {
        contacts, error := SortContacts(collected.value, primaryLanguage, collation), None;
      }
    }
  }

  // ---------------------------------------------------------------------------
  // Worked scenarios
  // ---------------------------------------------------------------------------

  /** A contact known only by the family name 张三, with a number starting 138. */
  const Zhang: Contact := Contact("zhang", "", "张三", [PhoneNumber("13800138000", None)], None)

  /** Bob Smith, with a number starting 650. */
  const Bob: Contact := Contact("bob", "Bob", "Smith", [PhoneNumber("6502530000", None)], None)

  /** In Chinese, with 张三 read as Z and Bob as B, Bob sorts before 张三. */
  lemma ChineseScenario(collation: Collation)
    requires collation.pinyinFirstLetter("张三") == 'Z'
    requires collation.pinyinFirstLetter("Bob") == 'B'
    ensures SortContacts([Zhang, Bob], "zh", collation) == [Bob, Zhang]
  {
    var less := Comparator("zh", collation);
    assert !less(Zhang, Bob);
    assert Sorting.Sort([Bob], less) == [Bob];
    assert [Zhang, Bob][1..] == [Bob];
  }

  /** 赵四, another contact known only by a family name read as Z. */
  const Zhao: Contact := Contact("zhao", "", "赵四", [PhoneNumber("13900139000", None)], None)

  /** In Chinese, two contacts with the same pinyin initial stay in enumeration order. */
  lemma ChineseTieScenario(collation: Collation)
    requires collation.pinyinFirstLetter("张三") == 'Z'
    requires collation.pinyinFirstLetter("赵四") == 'Z'
    ensures SortContacts([Zhang, Zhao], "zh", collation) == [Zhang, Zhao]
  {
    Sorting.SortKeepsTiedPair(Zhang, Zhao, Comparator("zh", collation));
  }

  /** The query "138" keeps the contact whose number contains it. */
  lemma PhoneQueryKeeps()
    ensures Matches(Zhang, Some("138"))
  {
    assert OccursAt(Zhang.phoneNumbers[0].number, "138", 0);
    assert AnyPhoneContains(Zhang.phoneNumbers, "138");
    assert Lowercased("138") == "138";
  }

  /** The query "650" drops 张三: neither the name nor the number contains a 6. */
  lemma PhoneQueryDrops()
    ensures !Matches(Zhang, Some("650"))
  {
    var query := "650";
    FullNameOfTrimmedNames(Zhang);
    assert FullName(Zhang) == "张三" && LowerChar(query[0]) == '6';
    assert !IsWhitespaceOrNewline(query[0]);
    ForeignCharExcludes(Zhang, query, 0);
  }

  /**
   * Only the blank test trims the query: "138" keeps 张三, but "138 " with a
   * trailing blank drops the contact, since neither its name nor its number has a blank.
   */
  lemma TrailingBlankQueryDrops()
    ensures !Matches(Zhang, Some("138 "))
  {
    var query := "138 ";
    FullNameOfTrimmedNames(Zhang);
    assert FullName(Zhang) == "张三" && LowerChar(query[3]) == ' ';
    assert !IsWhitespaceOrNewline(query[0]);
    ForeignCharExcludes(Zhang, query, 3);
  }
}
