# LWContactManager in Dafny

A model of the retrieval core of LWContactManager, a Swift library that reads the
iOS address book and presents it as a searchable, language-sorted contact list.
It has three layers:

- **The contact value layer** (`LWContact`, `LWPhoneNumber`, `CNContact.toLWContact`)
  lives in `contact_model.dfy`. Contacts are datatypes. The full name is the family
  name, a space and the given name, with blanks and tabs trimmed. The display name
  falls back to `"Unknown"`. Identity and hashing use the identifier only. A raw
  record without phone numbers converts to nothing.
- **The service** (`LWContactService`) lives in `contact_service.dfy`.
  - The permission gate comes in an `async throws` form and a completion-handler form.
  - The search filter compares the lower-cased full name and the raw phone numbers
    with the lower-cased query.
  - The ordering depends on the language: pinyin initials for a `zh` language, the
    locale collation otherwise. It is applied through `sorted(by:)`, which is
    modelled in `sorting.dfy`.
  - The two `loadContacts` entry points enumerate the store, convert, filter,
    append in a loop and sort.
- **The view model** (`LWContactViewModel`) lives in `contact_view_model.dfy`. It is
  a class whose published fields `requestAccess`, `loadContacts` and `refresh`
  overwrite step by step.

`text.dfy` models the Foundation string operations the code uses:

- `trimmingCharacters(in:)` over the whitespace and newline character sets;
- `lowercased()` and `uppercased()`;
- `contains(_:)`.

`wrappers.dfy` holds `Option` and `Result`.

Everything the platform decides becomes an input:

- the authorization status the contact store reports;
- the reply of the permission prompt;
- the records the enumeration delivers and the error it throws;
- the label localizer;
- `PinyinHelper.pinyinFirstLetter(for:)`;
- `localizedCaseInsensitiveCompare(_:)`;
- the bundle's preferred localizations.

In the view model, the service is seen only through what its calls return or throw.

## Model

Source paths are relative to the repository root.

| member | source | states |
|---|---|---|
| Text.IsWhitespace | Swift/Sources/LWContactManager/LWContactModel.swift:21 | `CharacterSet.whitespaces`: the tab and the Unicode space separators (a definition, no contract) |
| Text.IsNewline | LWContactManager_swift/Sources/LWContactManager/LWContactService.swift:152 | `CharacterSet.newlines`: U+000A to U+000D, U+0085, U+2028 and U+2029; `whitespacesAndNewlines` is the union of the two sets (a definition, no contract) |
| Text.LowerChar | LWContactManager_swift/Sources/LWContactManager/LWContactService.swift:156-157 | `lowercased()` of one character: a capital ASCII letter becomes a small letter; every other character stays |
| Text.UpperChar | LWContactManager_swift/Sources/LWContactManager/LWContactService.swift:186-187 | `uppercased()` of one character: a lower-case ASCII letter becomes its capital, which lower-cases back to it; every other character stays |
| Text.Trim | Swift/Sources/LWContactManager/LWContactModel.swift:21 | `trimmingCharacters(in:)`: the result is a contiguous run of the input; everything cut before and after it belongs to the set; the run neither starts nor ends with a set character |
| Text.TrimEmpty | LWContactManager_swift/Sources/LWContactManager/LWContactService.swift:152 | trimming yields the empty string exactly when every character is in the set |
| Text.TrimIdempotent | Swift/Sources/LWContactManager/LWContactViewModel.swift:78 | trimming twice is trimming once |
| Text.Lowercased | LWContactManager_swift/Sources/LWContactManager/LWContactService.swift:156-157 | lower-casing keeps the length, turns each capital into the small letter that upper-cases back to it, keeps every other character, and leaves no capital |
| Text.LowercasedKeepsBlanks | LWContactManager_swift/Sources/LWContactManager/LWContactService.swift:152-157 | lower-casing neither creates nor removes whitespace or newlines, so the blank-query guard sees the same query either way |
| Text.Contains | LWContactManager_swift/Sources/LWContactManager/LWContactService.swift:160 | `contains(_:)` holds exactly when the needle occurs at some index of the string |
| ContactModel.FullName | Swift/Sources/LWContactManager/LWContactModel.swift:20-22 | a non-empty full name neither starts nor ends with a blank or tab |
| ContactModel.FullNameWithinJoined | Swift/Sources/LWContactManager/LWContactModel.swift:20-22 | the full name is a run of `lastName + " " + firstName`, and only blanks and tabs lie around it |
| ContactModel.FullNameOfNoNames | Swift/Sources/LWContactManager/LWContactModel.swift:20-22 | two empty names give an empty full name |
| ContactModel.FullNameOfTrimmedNames | Swift/Sources/LWContactManager/LWContactModel.swift:20-22 | with names that have no blanks at their ends: both names joined by one space, or the one present name alone |
| ContactModel.DisplayName | Swift/Sources/LWContactManager/LWContactModel.swift:24-26 | `"Unknown"` exactly when the full name is empty, the full name otherwise; never empty |
| ContactModel.SameContactIsEquivalence | Swift/Sources/LWContactManager/LWContactModel.swift:40-42 | `==` is reflexive, symmetric and transitive, and ignores every field but `id` |
| ContactModel.EqualContactsHashEqually | Swift/Sources/LWContactManager/LWContactModel.swift:36-42 | equal contacts hash equally, whatever the hasher |
| ContactModel.SameContact | Swift/Sources/LWContactManager/LWContactModel.swift:40-42 | `==`: two contacts are equal when their identifiers are (a definition; its properties are in SameContactIsEquivalence) |
| ContactModel.HashValue | Swift/Sources/LWContactManager/LWContactModel.swift:36-38 | `hash(into:)`: the hash is a function of the identifier alone (a definition; see EqualContactsHashEqually) |
| ContactModel.ToPhoneNumber | Swift/Sources/LWContactManager/LWContactModel.swift:66-71 | one phone entry: the number verbatim, no label exactly when the raw phone has none, else the localized label |
| ContactModel.ToContact | Swift/Sources/LWContactManager/LWContactModel.swift:63-80 | nothing exactly when the record has no phone numbers; otherwise the following are copied over: id, names and thumbnail; the phone list in the same length and order with each number verbatim; no label exactly when the raw phone has none, else the localized label |
| ContactService.Bridged | LWContactManager_swift/Sources/LWContactManager/LWContactService.swift:39 | the `async` prompt: throws exactly when the reply carries an error, and then that error; otherwise returns `granted` |
| ContactService.RequestAccess | LWContactManager_swift/Sources/LWContactManager/LWContactService.swift:32-45 | `true` exactly when authorized or (undetermined and the prompt grants); it throws exactly when undetermined and the prompt throws, and then rethrows the prompt's error |
| ContactService.RequestAccessWithCompletion | LWContactManager_swift/Sources/LWContactManager/LWContactService.swift:49-62 | `granted` exactly when authorized or (undetermined and the prompt grants); an error only comes from the prompt when undetermined |
| ContactService.PromptOnlyWhenNotDetermined | LWContactManager_swift/Sources/LWContactManager/LWContactService.swift:33-61 | for every status but undetermined, both forms answer the same whatever the prompt would reply |
| ContactService.AccessFormsAgree | LWContactManager_swift/Sources/LWContactManager/LWContactService.swift:32-62 | the `async` form is the completion form bridged (error thrown, else `granted` returned) |
| ContactService.AnyPhoneContains | LWContactManager_swift/Sources/LWContactManager/LWContactService.swift:165-169 | the phone loop succeeds exactly when some number contains the query |
| ContactService.Matches | LWContactManager_swift/Sources/LWContactManager/LWContactService.swift:151-172 | `matchesSearchCriteria`: the guard, the name test and the phone loop (a definition; its meaning is stated by MatchesMeaning) |
| ContactService.MatchesMeaning | LWContactManager_swift/Sources/LWContactManager/LWContactService.swift:151-172 | no query, or one of only whitespace and newlines, matches every contact; any other query matches exactly when its lower-cased, untrimmed form occurs in the lower-cased full name or in some number |
| ContactService.MatchesIgnoresCase | LWContactManager_swift/Sources/LWContactManager/LWContactService.swift:156-160 | the search ignores ASCII case: two queries with the same lower-cased form match the same contacts |
| ContactService.ForeignCharExcludes | LWContactManager_swift/Sources/LWContactManager/LWContactService.swift:156-171 | a non-blank query with a character that appears neither in the lower-cased name nor in any number rules the contact out |
| ContactService.SortKey | LWContactManager_swift/Sources/LWContactManager/LWContactService.swift:179-180 | the sort key is the first name when it is non-empty and the last name otherwise, so it is empty exactly when both names are |
| ContactService.IsChinese | LWContactManager_swift/Sources/LWContactManager/LWContactService.swift:176 | `hasPrefix("zh")` (a definition, no contract) |
| ContactService.PinyinBefore | LWContactManager_swift/Sources/LWContactManager/LWContactService.swift:178-190 | the `zh` comparator closure (a definition; see PinyinBeforeIsRankOrder and PinyinOrderIsStrict) |
| ContactService.CollationBefore | LWContactManager_swift/Sources/LWContactManager/LWContactService.swift:193-197 | the comparator closure for other languages (a definition; see CollationSortOrder) |
| ContactService.Comparator | LWContactManager_swift/Sources/LWContactManager/LWContactService.swift:175-199 | the choice of closure by language prefix (a definition; see ChineseSortOrder and CollationSortOrder) |
| ContactService.PinyinBeforeIsRankOrder | LWContactManager_swift/Sources/LWContactManager/LWContactService.swift:182-189 | the Chinese comparator orders contacts by a rank: empty key lowest, then the upper-cased pinyin initial |
| ContactService.PinyinOrderIsStrict | LWContactManager_swift/Sources/LWContactManager/LWContactService.swift:178-190 | the Chinese comparator is irreflexive, asymmetric and transitive |
| ContactService.SortContacts | LWContactManager_swift/Sources/LWContactManager/LWContactService.swift:175-199 | the sorted list is a permutation of the input |
| ContactService.ChineseSortOrder | LWContactManager_swift/Sources/LWContactManager/LWContactService.swift:176-190 | for a `zh` language: a permutation, contacts with an empty key first, then non-decreasing upper-cased pinyin initials |
| ContactService.CollationSortOrder | LWContactManager_swift/Sources/LWContactManager/LWContactService.swift:191-197 | for any other language: a permutation in which no key is ranked by the collation before the key of an earlier contact |
| Sorting.Sort | LWContactManager_swift/Sources/LWContactManager/LWContactService.swift:178 | `sorted(by:)` returns a permutation of its input, of the same length |
| Sorting.SortSorted | LWContactManager_swift/Sources/LWContactManager/LWContactService.swift:178 | under a strict order no later element is ordered before an earlier one |
| Sorting.SortKeepsTiedPair | LWContactManager_swift/Sources/LWContactManager/LWContactService.swift:178 | two elements neither of which is ordered before the other come out in their input order |
| ContactService.Collected | LWContactManager_swift/Sources/LWContactManager/LWContactService.swift:84-93 | no more contacts than records; each collected contact has a phone number and matches the query |
| ContactService.CollectedExactly | LWContactManager_swift/Sources/LWContactManager/LWContactService.swift:87-93 | a contact is collected exactly when it matches and some record converts to it |
| ContactService.EnumerateMatching | LWContactManager_swift/Sources/LWContactManager/LWContactService.swift:84-93 | the append loop gathers exactly the collected contacts in enumeration order; a thrown enumeration error is returned instead |
| ContactService.LoadOutcome | LWContactManager_swift/Sources/LWContactManager/LWContactService.swift:69-96 | the result of the `async` `loadContacts` (a definition; see LoadWithoutAuthorization and LoadResultSound) |
| ContactService.DeliveryOutcome | LWContactManager_swift/Sources/LWContactManager/LWContactService.swift:102-146 | the arguments the completion handler of `loadContacts` receives (a definition; see DeliveryOutcomes) |
| ContactService.LoadWithoutAuthorization | LWContactManager_swift/Sources/LWContactManager/LWContactService.swift:72-75 | without authorization the `async` form returns `[]`, even when the prompt grants; it throws only the prompt's error |
| ContactService.LoadResultSound | LWContactManager_swift/Sources/LWContactManager/LWContactService.swift:84-95 | every returned contact has a phone number and matches the query; with access and a clean enumeration the result is a permutation of the collected contacts |
| ContactService.DeliveryOutcomes | LWContactManager_swift/Sources/LWContactManager/LWContactService.swift:105-145 | the completion form delivers an error only with an empty list, `([], error)` on an enumeration error, `(sorted, nil)` on success, `([], prompt error)` on a refusal, and after a grant exactly what the re-entered, authorized call delivers; every delivered contact has a phone number and matches the query |
| ContactService.LoadFormsAgreeWhenAuthorized | LWContactManager_swift/Sources/LWContactManager/LWContactService.swift:69-146 | once authorized, the completion form delivers what the `async` form returns or throws |
| ContactService.ChooseLanguage | LWContactManager_swift/Sources/LWContactManager/LWContactService.swift:20-26 | a non-empty requested language wins; otherwise the first preferred localization; otherwise `"en"` |
| ContactService.Service.constructor | LWContactManager_swift/Sources/LWContactManager/LWContactService.swift:20-26 | the sort language is the one chosen at initialization |
| ContactService.Service.LoadContacts | LWContactManager_swift/Sources/LWContactManager/LWContactService.swift:69-96 | the store is enumerated exactly when already authorized, and the result is the `async` outcome |
| ContactService.Service.LoadContactsWithCompletion | LWContactManager_swift/Sources/LWContactManager/LWContactService.swift:102-146 | the store is enumerated exactly when authorized or the prompt grants, and the handler receives the completion outcome |
| ContactService.ChineseScenario | LWContactManager_swift/Sources/LWContactManager/LWContactService.swift:176-190 | in Chinese, with 张三 read as Z and Bob as B, Bob sorts before 张三 |
| ContactService.ChineseTieScenario | LWContactManager_swift/Sources/LWContactManager/LWContactService.swift:186-189 | in Chinese, 张三 and 赵四, both read as Z, stay in enumeration order |
| ContactService.PhoneQueryKeeps | LWContactManager_swift/Sources/LWContactManager/LWContactService.swift:164-168 | the query "138" keeps the contact whose number starts with it |
| ContactService.PhoneQueryDrops | LWContactManager_swift/Sources/LWContactManager/LWContactService.swift:156-171 | the query "650" drops a contact whose name and number have no 6 |
| ContactService.TrailingBlankQueryDrops | LWContactManager_swift/Sources/LWContactManager/LWContactService.swift:152-171 | the query "138 " drops the contact that "138" keeps, because only the blank test trims |
| ContactViewModel.SearchQuery | Swift/Sources/LWContactManager/LWContactViewModel.swift:78-79 | nil exactly when the search text is all whitespace and newlines; otherwise a non-empty run of the search text with no whitespace or newline at either end, and only whitespace and newlines before and after it |
| ContactViewModel.SearchQueryStable | Swift/Sources/LWContactManager/LWContactViewModel.swift:78-79 | the query handed over is left as it is by trimming it again |
| ContactViewModel.FilterWithViewModelQuery | Swift/Sources/LWContactManager/LWContactViewModel.swift:78-79 | with the view model's trimmed query, a blank search text matches everything and any other matches by name or number substring |
| ContactViewModel.ViewModel.constructor | Swift/Sources/LWContactManager/LWContactViewModel.swift:18-22 | empty list, empty search text, not loading, no message, undetermined status |
| ContactViewModel.ViewModel.SetSearchText | Swift/Sources/LWContactManager/LWContactViewModel.swift:19 | only the search text changes |
| ContactViewModel.ViewModel.LoadContacts | Swift/Sources/LWContactManager/LWContactViewModel.swift:73-86 | loading is cleared and the service gets the trimmed query or nil; on success the list is the result and there is no message; on failure the list is empty and the message is set; the search text and status are untouched |
| ContactViewModel.ViewModel.RequestAccess | Swift/Sources/LWContactManager/LWContactViewModel.swift:50-69 | loading is cleared. A grant authorizes and loads. A refusal is denied with the Settings message. A thrown error is denied with the "Failed to request access" message. Both keep the list |
| ContactViewModel.ViewModel.Refresh | Swift/Sources/LWContactManager/LWContactViewModel.swift:90-92 | exactly the effect of `loadContacts` |

## Left out

- Concurrency is not modelled: `DispatchQueue` hops, `@MainActor`, `async` suspension and main-queue delivery. Only the sequential outcome of each call is modelled.
- The view model's intermediate state is not modelled. In the source, `isLoading = true` and `errorMessage = nil` are published and visible to the UI while `await service.requestAccess()` or `await service.loadContacts(...)` is suspended (LWContactViewModel.swift:51-55, 74-79). The model states only the settled state after each call.
- The Combine pipeline in `LWContactViewModel.init` is not modelled: the 300 ms debounce, `removeDuplicates` and the `Task` that reloads on each search text change. It is timing-based plumbing.
- The random `UUID` of `LWPhoneNumber` and its hash are left out. They have no role in the retrieval logic.
- `CNContactStore`, the permission prompt, `Bundle.main.preferredLocalizations` and `CNLabeledValue.localizedString(forLabel:)` become inputs; the key descriptors of the fetch request are not modelled.
- `PinyinHelper` is not part of this model. Its initial-letter lookup is an uninterpreted function, and so is `localizedCaseInsensitiveCompare(_:)`.
- Strings are sequences of Unicode scalars, compared scalar by scalar. Swift compares `Character`s under canonical equivalence in `contains` (LWContactService.swift:160, 166), `==`, `hasPrefix` (176) and `<` (189). So a name stored with a decomposed accent (`e` followed by U+0301) and a query with the precomposed `é` match in the source but not in the model.
- `lowercased()` and `uppercased()` are modelled on ASCII letters only. Unicode case mapping, which can change a string's length, is not captured.
- The whitespace set is the Unicode space separators plus the tab. The newline set is U+000A to U+000D, U+0085, U+2028 and U+2029. Other members Foundation may include are not modelled.
- Sorting.Sort: Swift's `sorted(by:)` is modelled by an insertion sort that inserts each element after the elements already placed that it is not ordered before, so ties keep their input order. Full stability is proved only for a pair (Sorting.SortKeepsTiedPair), not for sequences of any length.
- ContactService.CollationSortOrder: requires that the collation never ranks a key before itself and that its ranking chains. That is, it assumes the collation's `orderedAscending` is a strict partial order. This is weaker than the strict weak ordering `sorted(by:)` documents for its predicate. Outside a strict weak ordering the order Swift returns is unspecified, so the sortedness proved here is a property of the model's insertion sort and not of Swift's sort.
- ContactService.Service.LoadContactsWithCompletion, ContactService.DeliveryOutcome and ContactService.DeliveryOutcomes: after the prompt grants access, the re-entered call is modelled as seeing the status as authorized. Another refusal on re-entry, and so repeated prompting, is not modelled.
- The `zh` comparator places contacts with an empty sort key before the others (LWContactService.swift:182-184). The model follows the code.
- The `async` `loadContacts` returns an empty list when not yet authorized, even after a grant, while the completion form re-enters and loads. The model keeps both behaviours as written and states the difference in ContactService.LoadWithoutAuthorization.
- ContactViewModel.ViewModel.RequestAccess: "an error message implies an empty list" holds after `loadContacts` and `refresh`, but it is not a class invariant. A refusal or a thrown prompt error sets a message and keeps the previous list, as the code does.
- The view model's service is abstracted: `requestAccess` is given the result or error of the service's call, and `loadContacts` a function from query to result or error. The service's own behaviour is modelled separately in `contact_service.dfy`.
