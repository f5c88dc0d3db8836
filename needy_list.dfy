/**
 * The "Needy People List" page: the search over the fetched registrants,
 * the masked Aadhaar number on each card and the three counters.
 */
module NeedyList {

  import opened Wrappers
  import opened JsStrings
  import opened Seqs

  /** A registrant as fetched; every field may be absent. */
  datatype Person = Person(name: Option<string>, email: Option<string>,
                           contact: Option<string>, aadhar: Option<string>)

  /**
   * `filterList`'s test: name or email contain the term ignoring case;
   * contact or Aadhaar number contain it exactly as typed.
   */
  predicate PersonMatches(p: Person, term: string) {
    || (Truthy(p.name) && Includes(Lower(p.name.value), Lower(term)))
    || (Truthy(p.email) && Includes(Lower(p.email.value), Lower(term)))
    || (Truthy(p.contact) && Includes(p.contact.value, term))
    || (Truthy(p.aadhar) && Includes(p.aadhar.value, term))
  }

  function PersonTest(term: string): Person -> bool {
    (p: Person) => PersonMatches(p, term)
  }

  /** What `filterList` stores as `filteredList`: the search runs only for a non-blank term. */
  function FilterList(needyList: seq<Person>, searchTerm: string): seq<Person> {
    if Blank(searchTerm) then needyList else Keep(needyList, PersonTest(searchTerm))
  }

  function Shown(searchTerm: string): Person -> bool {
    (p: Person) => Blank(searchTerm) || PersonMatches(p, searchTerm)
  }

  lemma {:induction false} FilterListIsShown(needyList: seq<Person>, searchTerm: string)
    ensures FilterList(needyList, searchTerm) == Keep(needyList, Shown(searchTerm))
  {
    if Blank(searchTerm) {
      KeepAllTrue(needyList, Shown(searchTerm));
    } else {
      KeepExtensional(needyList, PersonTest(searchTerm), Shown(searchTerm));
    }
  }

  /** With a blank or white-space term the whole list is shown. */
  lemma BlankSearchShowsAll(needyList: seq<Person>, searchTerm: string)
    requires Blank(searchTerm)
    ensures FilterList(needyList, searchTerm) == needyList
  {
  }

  /**
   * The result is an order-preserving subsequence of the list; for a
   * non-blank term a person is in it iff one of the four fields matches,
   * and as often as in the list.
   */
  lemma {:induction false} FilterListIsOrderedSelection(needyList: seq<Person>, searchTerm: string, p: Person)
    ensures IsSubsequence(FilterList(needyList, searchTerm), needyList)
    ensures multiset(FilterList(needyList, searchTerm))[p] ==
              if Blank(searchTerm) || PersonMatches(p, searchTerm) then multiset(needyList)[p] else 0
    ensures !Blank(searchTerm) ==>
              (p in FilterList(needyList, searchTerm) <==>
                 p in needyList
                 && (|| (p.name.Some? && p.name.value != "" && Includes(Lower(p.name.value), Lower(searchTerm)))
                     || (p.email.Some? && p.email.value != "" && Includes(Lower(p.email.value), Lower(searchTerm)))
                     || (p.contact.Some? && p.contact.value != "" && Includes(p.contact.value, searchTerm))
                     || (p.aadhar.Some? && p.aadhar.value != "" && Includes(p.aadhar.value, searchTerm))))
  {
    FilterListIsShown(needyList, searchTerm);
    KeepIsSubsequence(needyList, Shown(searchTerm));
    KeepMultiplicity(needyList, Shown(searchTerm), p);
    KeepMembership(needyList, Shown(searchTerm), p);
  }

  /** A person whose four searched fields are all absent or empty is never found. */
  lemma {:induction false} AbsentFieldsNeverMatch(needyList: seq<Person>, searchTerm: string, p: Person)
    requires !Truthy(p.name) && !Truthy(p.email) && !Truthy(p.contact) && !Truthy(p.aadhar)
    requires !Blank(searchTerm)
    ensures p !in FilterList(needyList, searchTerm)
  {
    KeepMembership(needyList, PersonTest(searchTerm), p);
  }

  /** Searching the shown list again with the same term returns it unchanged. */
  lemma {:induction false} FilterListIdempotent(needyList: seq<Person>, searchTerm: string)
    ensures FilterList(FilterList(needyList, searchTerm), searchTerm) == FilterList(needyList, searchTerm)
  {
    if !Blank(searchTerm) {
      KeepIdempotent(needyList, PersonTest(searchTerm));
    }
  }

  // ---------------------------------------------------------------------------
  // Counters

  function HasContact(): Person -> bool {
    (p: Person) => Truthy(p.contact)
  }

  /** "With Contact Info": `needyList.filter(person => person.contact).length`. */
  function WithContactCount(needyList: seq<Person>): nat {
    |Keep(needyList, HasContact())|
  }

  /** "Showing Results" and "With Contact Info" never exceed "Total Registered". */
  lemma CountersBounded(needyList: seq<Person>, searchTerm: string)
    ensures |FilterList(needyList, searchTerm)| <= |needyList|
    ensures WithContactCount(needyList) <= |needyList|
  {
  }

  // ---------------------------------------------------------------------------
  // Aadhaar mask

  /** `aadhar.slice(-4)`: the last four characters, or the whole string when shorter. */
  function LastFour(a: string): (r: string)
    ensures |r| == if |a| < 4 then |a| else 4
    ensures a == a[..|a| - |r|] + r
  {
    if |a| < 4 then a else a[|a| - 4..]
  }

  const MaskPrefix: string := "****-****-"

  /** The Aadhaar line of a card, shown only when the number is present and non-empty. */
  function AadhaarDisplay(p: Person): Option<string> {
    if Truthy(p.aadhar) then Some(MaskPrefix + LastFour(p.aadhar.value)) else None
  }

  /**
   * The display is the fixed prefix and then the number's last (at most)
   * four characters; no character before those reaches the display.
   */
  lemma {:induction false} MaskRevealsOnlyLastFour(p: Person, i: nat, c: char)
    requires Truthy(p.aadhar) && i + 4 < |p.aadhar.value|
    ensures AadhaarDisplay(p).Some?
    ensures AadhaarDisplay(p).value[..|MaskPrefix|] == MaskPrefix
    ensures |AadhaarDisplay(p).value| == |MaskPrefix| + 4
    ensures AadhaarDisplay(p).value[|MaskPrefix|..] == p.aadhar.value[|p.aadhar.value| - 4..]
    ensures AadhaarDisplay(p.(aadhar := Some(p.aadhar.value[i := c]))) == AadhaarDisplay(p)
  {
    var a := p.aadhar.value;
    assert a[i := c][|a| - 4..] == a[|a| - 4..];
  }

  lemma MaskExample()
    ensures AadhaarDisplay(Person(None, None, None, Some("123456789012"))) == Some("****-****-9012")
    ensures AadhaarDisplay(Person(None, None, None, Some("12"))) == Some("****-****-12")
    ensures AadhaarDisplay(Person(None, None, None, Some(""))) == None
  {
    assert LastFour("123456789012") == "9012";
    assert MaskPrefix + "9012" == "****-****-9012";
    assert MaskPrefix + "12" == "****-****-12";
  }

  /** Name and email ignore case, contact and Aadhaar number do not. */
  lemma CaseSensitivityExample(p: Person, q: Person)
    requires p.name == Some("Ravi") && p.email == None && p.contact == None && p.aadhar == None
    requires q.name == None && q.email == None && q.contact == None && q.aadhar == Some("AB12")
    ensures PersonMatches(p, "RAVI")
    ensures PersonMatches(q, "AB") && !PersonMatches(q, "ab")
  {
    assert Lower("Ravi") == "ravi";
    assert Lower("RAVI") == "ravi";
    assert OccursAt("ravi", "ravi", 0);
    assert OccursAt("AB12", "AB", 0);
    forall i | 0 <= i <= 2 ensures !OccursAt("AB12", "ab", i) {
      assert "AB12"[i..i + 2][0] == "AB12"[i];
    }
  }
}
