/**
 * The contact value layer: `LWContact`, `LWPhoneNumber` and the conversion
 * of a raw address-book record (`CNContact`) into a contact.
 */
module ContactModel {
  import opened Wrappers
  import opened Text

  /** The opaque thumbnail bytes (`Data`), copied and never interpreted. */
  type Bytes = seq<bv8>

  /** `LWPhoneNumber`: the raw number text and an optional localized label. */
  datatype PhoneNumber = PhoneNumber(number: string, localizedLabel: Option<string>)

  /** `LWContact`: an immutable value; identity is carried by `id`. */
  datatype Contact = Contact(
    id: string,
    firstName: string,
    lastName: string,
    phoneNumbers: seq<PhoneNumber>,
    thumbnailImageData: Option<Bytes>)

  /** A labelled phone entry of a raw record: the number text and the raw label key. */
  datatype RawPhone = RawPhone(value: string, labelKey: Option<string>)

  /** The fields of a `CNContact` that the library fetches. */
  datatype RawRecord = RawRecord(
    identifier: string,
    givenName: string,
    familyName: string,
    phoneNumbers: seq<RawPhone>,
    thumbnailImageData: Option<Bytes>)

  const Placeholder: string := "Unknown"

  /** `fullName`: family name, a space, given name, with blanks and tabs trimmed at both ends. */
  function FullName(c: Contact): (r: string)
    ensures r != [] ==> !IsWhitespace(r[0]) && !IsWhitespace(r[|r| - 1])
  {
    Trim(c.lastName + " " + c.firstName, IsWhitespace)
  }

  /**
   * The full name is a run of `lastName + " " + firstName`; only blanks and
   * tabs are cut off around it.
   */
  lemma FullNameWithinJoined(c: Contact)
    ensures var joined := c.lastName + " " + c.firstName;
      var name := FullName(c);
      exists lo ::
        && OccursAt(joined, name, lo)
        && (forall i :: 0 <= i < lo ==> IsWhitespace(joined[i]))
        && (forall i :: lo + |name| <= i < |joined| ==> IsWhitespace(joined[i]))
  {
    var joined := c.lastName + " " + c.firstName;
    var lo := SkipLeading(joined, IsWhitespace, 0);
    assert OccursAt(joined, FullName(c), lo);
  }

  /** When both names are empty the full name is empty. */
  lemma FullNameOfNoNames(c: Contact)
    requires c.firstName == [] && c.lastName == []
    ensures FullName(c) == []
  {
    TrimEmpty(c.lastName + " " + c.firstName, IsWhitespace);
  }

  /**
   * When neither name has blanks or tabs at its ends, the full name is exactly
   * `lastName + " " + firstName` if both are present, and the present one otherwise.
   */
  lemma FullNameOfTrimmedNames(c: Contact)
    requires c.firstName == [] || (!IsWhitespace(c.firstName[0]) && !IsWhitespace(c.firstName[|c.firstName| - 1]))
    requires c.lastName == [] || (!IsWhitespace(c.lastName[0]) && !IsWhitespace(c.lastName[|c.lastName| - 1]))
    ensures c.firstName != [] && c.lastName != [] ==> FullName(c) == c.lastName + " " + c.firstName
    ensures c.firstName == [] ==> FullName(c) == c.lastName
    ensures c.lastName == [] ==> FullName(c) == c.firstName
  {
    TrimJoined(c.lastName, ' ', c.firstName, IsWhitespace);
  }

  /** `displayName`: the full name, or the placeholder when the full name is empty. */
  function DisplayName(c: Contact): (r: string)
    ensures FullName(c) == [] ==> r == Placeholder
    ensures FullName(c) != [] ==> r == FullName(c)
    ensures r != []
  {
    var name := FullName(c);
    if name == [] then Placeholder else name
  }

  /** `==`: two contacts are the same contact when their identifiers agree. */
  predicate SameContact(a: Contact, b: Contact)
  {
    a.id == b.id
  }

  /** `hash(into:)`: only the identifier is fed to the hasher, here the function `hashId`. */
  function HashValue(c: Contact, hashId: string -> int): int
  {
    hashId(c.id)
  }

  /** The identity relation is an equivalence that ignores every field but `id`. */
  lemma SameContactIsEquivalence(a: Contact, b: Contact, c: Contact)
    ensures SameContact(a, a)
    ensures SameContact(a, b) ==> SameContact(b, a)
    ensures SameContact(a, b) && SameContact(b, c) ==> SameContact(a, c)
    ensures SameContact(a, a.(firstName := b.firstName, lastName := b.lastName,
                              phoneNumbers := b.phoneNumbers, thumbnailImageData := b.thumbnailImageData))
  {
  }

  /** Equal contacts hash equally, whatever hasher is used. */
  lemma EqualContactsHashEqually(a: Contact, b: Contact, hashId: string -> int)
    requires SameContact(a, b)
    ensures HashValue(a, hashId) == HashValue(b, hashId)
  {
  }

  /** The phone entry built for one raw phone; `localize` stands for `CNLabeledValue.localizedString(forLabel:)`. */
  function ToPhoneNumber(p: RawPhone, localize: string -> string): (r: PhoneNumber)
    ensures r.number == p.value
    ensures r.localizedLabel.None? <==> p.labelKey.None?
    ensures p.labelKey.Some? ==> r.localizedLabel == Some(localize(p.labelKey.value))
  {
    PhoneNumber(p.value, MapOption(p.labelKey, localize))
  }

  /** `toLWContact()`: `nil` for a record without phone numbers, else its fields copied over. */
  function ToContact(rec: RawRecord, localize: string -> string): (r: Option<Contact>)
    ensures r.None? <==> rec.phoneNumbers == []
    ensures r.Some? ==>
      && r.value.id == rec.identifier
      && r.value.firstName == rec.givenName
      && r.value.lastName == rec.familyName
      && r.value.thumbnailImageData == rec.thumbnailImageData
      && |r.value.phoneNumbers| == |rec.phoneNumbers|
      && forall i :: 0 <= i < |rec.phoneNumbers| ==>
           && r.value.phoneNumbers[i].number == rec.phoneNumbers[i].value
           && (rec.phoneNumbers[i].labelKey.None? <==> r.value.phoneNumbers[i].localizedLabel.None?)
           && (rec.phoneNumbers[i].labelKey.Some? ==>
                 r.value.phoneNumbers[i].localizedLabel.value == localize(rec.phoneNumbers[i].labelKey.value))
  {
    if rec.phoneNumbers == [] then None
    else
      var phones := seq(|rec.phoneNumbers|, i requires 0 <= i < |rec.phoneNumbers| =>
                          ToPhoneNumber(rec.phoneNumbers[i], localize));
      Some(Contact(rec.identifier, rec.givenName, rec.familyName, phones, rec.thumbnailImageData))
  }
}
