/**
 * The "Available Medicines" page: the three-stage filter over the fetched
 * medicine snapshot, the status counters, and the donor lookup by email.
 */
module ListedMed {

  import opened Wrappers
  import opened JsStrings
  import opened Seqs
  import opened Expiry

  /** One donated medicine as fetched; every text field may be absent. */
  datatype Medicine = Medicine(emailid: Option<string>, medicine: Option<string>,
                               company: Option<string>, expdate: ExpDate)

  /** A donor profile as fetched. */
  datatype Donor = Donor(emailid: Option<string>, name: Option<string>)

  /**
   * The outcome of a fetch: the server's `status` flag and its `data`
   * (absent when the body has none), or a request that threw.
   */
  datatype Response<T> = Response(status: bool, data: Option<T>) | RequestFailed

  /** The criteria the page holds: donor email, search text and status filter. */
  datatype Criteria = Criteria(emailFilter: string, searchTerm: string, filterBy: string)

  const AnonymousDonor: string := "Anonymous Donor"

  // ---------------------------------------------------------------------------
  // The three stages of `filterMedicines`

  /** Donor email stage: the email is present and contains the filter, both lower-cased, untrimmed. */
  predicate EmailMatches(m: Medicine, emailFilter: string) {
    Truthy(m.emailid) && Includes(Lower(m.emailid.value), Lower(emailFilter))
  }

  /** Search stage: the medicine name or the company contains the term, both lower-cased. */
  predicate SearchMatches(m: Medicine, term: string) {
    || (Truthy(m.medicine) && Includes(Lower(m.medicine.value), Lower(term)))
    || (Truthy(m.company) && Includes(Lower(m.company.value), Lower(term)))
  }

  function EmailTest(emailFilter: string): Medicine -> bool {
    m => EmailMatches(m, emailFilter)
  }

  function SearchTest(term: string): Medicine -> bool {
    m => SearchMatches(m, term)
  }

  function StatusTest(filterBy: string, now: int): Medicine -> bool {
    (m: Medicine) => PassesStatusFilter(m.expdate, filterBy, now)
  }

  /** Each stage runs only when its criterion is set: a non-blank text, a status other than "all". */
  function EmailStage(meds: seq<Medicine>, emailFilter: string): seq<Medicine> {
    if Blank(emailFilter) then meds else Keep(meds, EmailTest(emailFilter))
  }

  function SearchStage(meds: seq<Medicine>, term: string): seq<Medicine> {
    if Blank(term) then meds else Keep(meds, SearchTest(term))
  }

  function StatusStage(meds: seq<Medicine>, filterBy: string, now: int): seq<Medicine> {
    if filterBy == "all" then meds else Keep(meds, StatusTest(filterBy, now))
  }

  /** What `filterMedicines` stores as `filteredMedicines`, at clock reading `now`. */
  function FilteredMedicines(meds: seq<Medicine>, c: Criteria, now: int): seq<Medicine> {
    StatusStage(SearchStage(EmailStage(meds, c.emailFilter), c.searchTerm), c.filterBy, now)
  }

  /** A record is shown when it satisfies every criterion that is set. */
  predicate Selected(m: Medicine, c: Criteria, now: int) {
    && (Blank(c.emailFilter) || EmailMatches(m, c.emailFilter))
    && (Blank(c.searchTerm) || SearchMatches(m, c.searchTerm))
    && (c.filterBy == "all" || PassesStatusFilter(m.expdate, c.filterBy, now))
  }

  function Selector(c: Criteria, now: int): Medicine -> bool {
    m => Selected(m, c, now)
  }

  /** Each stage as one filter whose test holds trivially when the criterion is not set. */
  function EmailGate(emailFilter: string): Medicine -> bool {
    (m: Medicine) => Blank(emailFilter) || EmailMatches(m, emailFilter)
  }

  function SearchGate(term: string): Medicine -> bool {
    (m: Medicine) => Blank(term) || SearchMatches(m, term)
  }

  function StatusGate(filterBy: string, now: int): Medicine -> bool {
    (m: Medicine) => filterBy == "all" || PassesStatusFilter(m.expdate, filterBy, now)
  }

  function EmailSearchGate(c: Criteria): Medicine -> bool {
    (m: Medicine) => EmailGate(c.emailFilter)(m) && SearchGate(c.searchTerm)(m)
  }

  lemma {:induction false} EmailStageIsGate(meds: seq<Medicine>, emailFilter: string)
    ensures EmailStage(meds, emailFilter) == Keep(meds, EmailGate(emailFilter))
  {
    if Blank(emailFilter) {
      KeepAllTrue(meds, EmailGate(emailFilter));
    } else {
      KeepExtensional(meds, EmailTest(emailFilter), EmailGate(emailFilter));
    }
  }

  lemma {:induction false} SearchStageIsGate(meds: seq<Medicine>, term: string)
    ensures SearchStage(meds, term) == Keep(meds, SearchGate(term))
  {
    if Blank(term) {
      KeepAllTrue(meds, SearchGate(term));
    } else {
      KeepExtensional(meds, SearchTest(term), SearchGate(term));
    }
  }

  lemma {:induction false} StatusStageIsGate(meds: seq<Medicine>, filterBy: string, now: int)
    ensures StatusStage(meds, filterBy, now) == Keep(meds, StatusGate(filterBy, now))
  {
    if filterBy == "all" {
      KeepAllTrue(meds, StatusGate(filterBy, now));
    } else {
      KeepExtensional(meds, StatusTest(filterBy, now), StatusGate(filterBy, now));
    }
  }

  /** The three stages together are one filter by the conjunction of the criteria. */
  lemma {:induction false} FilteredIsSelection(meds: seq<Medicine>, c: Criteria, now: int)
    ensures FilteredMedicines(meds, c, now) == Keep(meds, Selector(c, now))
  {
    var a := EmailStage(meds, c.emailFilter);
    var b := SearchStage(a, c.searchTerm);
    EmailStageIsGate(meds, c.emailFilter);
    SearchStageIsGate(a, c.searchTerm);
    KeepFuse(meds, EmailGate(c.emailFilter), SearchGate(c.searchTerm), EmailSearchGate(c));
    assert b == Keep(meds, EmailSearchGate(c));
    StatusStageIsGate(b, c.filterBy, now);
    KeepFuse(meds, EmailSearchGate(c), StatusGate(c.filterBy, now), Selector(c, now));
  }

  /**
   * The shown list is an order-preserving subsequence of the snapshot that
   * holds each selected record as often as the snapshot does and no other
   * record: nothing is re-sorted or deduplicated.
   */
  lemma {:induction false} FilteredIsOrderedSelection(meds: seq<Medicine>, c: Criteria, now: int, m: Medicine)
    ensures IsSubsequence(FilteredMedicines(meds, c, now), meds)
    ensures multiset(FilteredMedicines(meds, c, now))[m] == if Selected(m, c, now) then multiset(meds)[m] else 0
    ensures m in FilteredMedicines(meds, c, now) <==> m in meds && Selected(m, c, now)
  {
    FilteredIsSelection(meds, c, now);
    KeepIsSubsequence(meds, Selector(c, now));
    KeepMultiplicity(meds, Selector(c, now), m);
    KeepMembership(meds, Selector(c, now), m);
  }

  /** With no criterion set the page shows the whole snapshot. */
  lemma NoCriteriaShowsAll(meds: seq<Medicine>, c: Criteria, now: int)
    requires Blank(c.emailFilter) && Blank(c.searchTerm) && c.filterBy == "all"
    ensures FilteredMedicines(meds, c, now) == meds
  {
  }

  /** Filtering the shown list again with the same criteria changes nothing. */
  lemma {:induction false} FilterIdempotent(meds: seq<Medicine>, c: Criteria, now: int)
    ensures FilteredMedicines(FilteredMedicines(meds, c, now), c, now) == FilteredMedicines(meds, c, now)
  {
    FilteredIsSelection(meds, c, now);
    FilteredIsSelection(FilteredMedicines(meds, c, now), c, now);
    KeepIdempotent(meds, Selector(c, now));
  }

  /**
   * The email stage alone keeps exactly the records whose email is present
   * and, lower-cased, contains the lower-cased filter as typed: blankness is
   * judged on the trimmed filter, the match uses it untrimmed.
   */
  lemma {:induction false} EmailFilterExact(meds: seq<Medicine>, emailFilter: string, m: Medicine)
    requires !Blank(emailFilter)
    ensures m in EmailStage(meds, emailFilter) <==>
              m in meds && m.emailid.Some? && m.emailid.value != ""
              && Includes(Lower(m.emailid.value), Lower(emailFilter))
  {
    KeepMembership(meds, EmailTest(emailFilter), m);
  }

  /** The search stage alone keeps a record iff its name or its company matches; absent fields never match. */
  lemma {:induction false} SearchExact(meds: seq<Medicine>, term: string, m: Medicine)
    requires !Blank(term)
    ensures m in SearchStage(meds, term) <==>
              m in meds
              && ((m.medicine.Some? && m.medicine.value != "" && Includes(Lower(m.medicine.value), Lower(term)))
                  || (m.company.Some? && m.company.value != "" && Includes(Lower(m.company.value), Lower(term))))
    ensures m.medicine.None? && m.company.None? ==> m !in SearchStage(meds, term)
  {
    KeepMembership(meds, SearchTest(term), m);
  }

  /** A record without an expiry date survives every status filter, "expired" and "expiring" included. */
  lemma {:induction false} UndatedPassesStatusFilter(meds: seq<Medicine>, c: Criteria, now: int, m: Medicine)
    requires m in meds && m.expdate.NoExpiry?
    requires Blank(c.emailFilter) || EmailMatches(m, c.emailFilter)
    requires Blank(c.searchTerm) || SearchMatches(m, c.searchTerm)
    ensures m in FilteredMedicines(meds, c, now)
  {
    FilteredIsOrderedSelection(meds, c, now, m);
  }

  // ---------------------------------------------------------------------------
  // Counters, computed over the whole snapshot

  function ExpiringSoonTest(now: int): Medicine -> bool {
    (m: Medicine) => CountsAsExpiringSoon(m.expdate, now)
  }

  function ExpiredTest(now: int): Medicine -> bool {
    (m: Medicine) => CountsAsExpired(m.expdate, now)
  }

  function BadgeTest(s: Status, now: int): Medicine -> bool {
    (m: Medicine) => CardBadge(m.expdate, now) == s
  }

  /** `expiringSoon`. */
  function ExpiringSoonCount(meds: seq<Medicine>, now: int): nat {
    |Keep(meds, ExpiringSoonTest(now))|
  }

  /** `expired`. */
  function ExpiredCount(meds: seq<Medicine>, now: int): nat {
    |Keep(meds, ExpiredTest(now))|
  }

  /** The two counters never overlap, so together they never exceed `totalMedicines`. */
  lemma {:induction false} CountersBounded(meds: seq<Medicine>, now: int)
    ensures ExpiringSoonCount(meds, now) + ExpiredCount(meds, now) <= |meds|
  {
    forall m: Medicine ensures !(ExpiringSoonTest(now)(m) && ExpiredTest(now)(m)) {
      CounterTestsAreClassification(m.expdate, now);
    }
    KeepDisjointCount(meds, ExpiringSoonTest(now), ExpiredTest(now));
  }

  /**
   * The counters agree with the cards: the snapshot splits into cards
   * badged Valid (records without a date among them), the "Expiring Soon"
   * count and the "Expired" count.
   */
  lemma {:induction false} CountersMatchBadges(meds: seq<Medicine>, now: int)
    ensures ExpiringSoonCount(meds, now) == |Keep(meds, BadgeTest(ExpiringSoon, now))|
    ensures ExpiredCount(meds, now) == |Keep(meds, BadgeTest(Expired, now))|
    ensures |meds| == |Keep(meds, BadgeTest(Valid, now))| + ExpiringSoonCount(meds, now) + ExpiredCount(meds, now)
  {
    forall m: Medicine
      ensures ExpiringSoonTest(now)(m) == BadgeTest(ExpiringSoon, now)(m)
      ensures ExpiredTest(now)(m) == BadgeTest(Expired, now)(m)
    {
      CounterTestsAreClassification(m.expdate, now);
      CardBadgeIsClassification(m.expdate, now);
    }
    KeepExtensional(meds, ExpiringSoonTest(now), BadgeTest(ExpiringSoon, now));
    KeepExtensional(meds, ExpiredTest(now), BadgeTest(Expired, now));
    KeepPartitionCount(meds, BadgeTest(Valid, now), BadgeTest(ExpiringSoon, now), BadgeTest(Expired, now));
  }

  /**
   * The "Expired" counter and the "expired" filter disagree by the records
   * without a date: the filter shows them, the counter does not count them.
   */
  lemma {:induction false} ExpiredFilterVersusCounter(meds: seq<Medicine>, now: int)
    ensures |FilteredMedicines(meds, Criteria("", "", "expired"), now)|
            == ExpiredCount(meds, now) + |Keep(meds, (m: Medicine) => m.expdate.NoExpiry?)|
  {
    assert Blank("");
    KeepDisjointUnion(meds, ExpiredTest(now), (m: Medicine) => m.expdate.NoExpiry?, StatusTest("expired", now));
  }

  // ---------------------------------------------------------------------------
  // Donor lookup

  /** The index of the last donor in the snapshot whose email is `e`. */
  function LastDonorWith(ds: seq<Donor>, e: string): (r: Option<nat>)
    ensures r.Some? ==> r.value < |ds| && ds[r.value].emailid == Some(e)
    ensures r.Some? ==> forall j :: r.value < j < |ds| ==> ds[j].emailid != Some(e)
    ensures r.None? ==> forall j :: 0 <= j < |ds| ==> ds[j].emailid != Some(e)
    decreases |ds|
  {
    if ds == [] then None
    else if ds[|ds| - 1].emailid == Some(e) then Some(|ds| - 1)
    else LastDonorWith(ds[..|ds| - 1], e)
  }

  /** `donorMap` after the `forEach` over the donor snapshot. */
  function DonorIndex(ds: seq<Donor>): map<string, Donor>
    decreases |ds|
  {
    if ds == [] then map[]
    else
      var m := DonorIndex(ds[..|ds| - 1]);
      var d := ds[|ds| - 1];
      if Truthy(d.emailid) then m[d.emailid.value := d] else m
  }

  /**
   * The donor map holds exactly the non-empty emails of the snapshot, each
   * bound to the last donor carrying it: on duplicates the last one wins.
   */
  lemma {:induction false} DonorIndexLastWins(ds: seq<Donor>, e: string)
    ensures e in DonorIndex(ds) <==> e != "" && LastDonorWith(ds, e).Some?
    ensures e in DonorIndex(ds) ==> DonorIndex(ds)[e] == ds[LastDonorWith(ds, e).value]
    decreases |ds|
  {
    if ds != [] {
      DonorIndexLastWins(ds[..|ds| - 1], e);
    }
  }

  /** `loadDonors` on a successful fetch: fills the map one donor at a time. */
  method BuildDonorMap(ds: seq<Donor>) returns (donorMap: map<string, Donor>)
    ensures donorMap == DonorIndex(ds)
    ensures forall e :: e in donorMap ==> e != "" && donorMap[e].emailid == Some(e)
  {
    donorMap := map[];
    for i := 0 to |ds|
      invariant donorMap == DonorIndex(ds[..i])
    {
      assert ds[..i + 1][..i] == ds[..i];
      var donor := ds[i];
      if Truthy(donor.emailid) {
        donorMap := donorMap[donor.emailid.value := donor];
      }
    }
    assert ds[..|ds|] == ds;
    forall e | e in donorMap ensures e != "" && donorMap[e].emailid == Some(e) {
      DonorIndexLastWins(ds, e);
    }
  }

  /**
   * `getDonorName`: the donor's name when the email is set, known and the
   * name non-empty; "Anonymous Donor" otherwise, never an error.
   */
  function GetDonorName(donors: map<string, Donor>, email: Option<string>): (name: string)
    ensures name != ""
    ensures name == AnonymousDonor || (Truthy(email) && email.value in donors && donors[email.value].name == Some(name))
    ensures !Truthy(email) || email.value !in donors ==> name == AnonymousDonor
    ensures Truthy(email) && email.value in donors && Truthy(donors[email.value].name) ==>
              name == donors[email.value].name.value
  {
    if Truthy(email) && email.value in donors then
      var donor := donors[email.value];
      if Truthy(donor.name) then donor.name.value else AnonymousDonor
    else AnonymousDonor
  }

  /** Looking up a medicine's email in the map built from a donor snapshot names the last such donor. */
  lemma {:induction false} DonorNameFromSnapshot(ds: seq<Donor>, e: string)
    ensures GetDonorName(DonorIndex(ds), Some(e)) ==
              match LastDonorWith(ds, e)
              case Some(i) => if e != "" && Truthy(ds[i].name) then ds[i].name.value else AnonymousDonor
              case None => AnonymousDonor
  {
    DonorIndexLastWins(ds, e);
  }

  // ---------------------------------------------------------------------------
  // The page's state

  /**
   * The component's state. Changing the snapshot or a criterion re-runs
   * `filterMedicines`, as the page's effect on those four values does;
   * `now` is the clock reading `new Date()` takes.
   */
  class Listing {
    var medicines: seq<Medicine>
    var filteredMedicines: seq<Medicine>
    var donors: map<string, Donor>
    var searchTerm: string
    var filterBy: string
    var emailFilter: string

    function Current(): Criteria
      reads this
    {
      Criteria(emailFilter, searchTerm, filterBy)
    }

    /** The shown list is the filter of the snapshot by the criteria held. */
    predicate ViewCurrent(now: int)
      reads this
    {
      filteredMedicines == FilteredMedicines(medicines, Current(), now)
    }

    constructor ()
      ensures medicines == [] && filteredMedicines == [] && donors == map[]
      ensures searchTerm == "" && filterBy == "all" && emailFilter == ""
    {
      medicines, filteredMedicines, donors := [], [], map[];
      searchTerm, filterBy, emailFilter := "", "all", "";
    }

    /** `filterMedicines`: three stages over a local list, then the state is written. */
    method FilterMedicines(now: int)
      modifies this`filteredMedicines
      ensures ViewCurrent(now)
    {
      var filtered := medicines;
      if !Blank(emailFilter) {
        filtered := Keep(filtered, EmailTest(emailFilter));
      }
      assert filtered == EmailStage(medicines, emailFilter);
      if !Blank(searchTerm) {
        filtered := Keep(filtered, SearchTest(searchTerm));
      }
      assert filtered == SearchStage(EmailStage(medicines, emailFilter), searchTerm);
      if filterBy != "all" {
        filtered := Keep(filtered, StatusTest(filterBy, now));
      }
      filteredMedicines := filtered;
    }

    /** `loadMedicines`: the snapshot is replaced wholesale; a failure leaves it empty. */
    method LoadMedicines(response: Response<seq<Medicine>>, now: int)
      modifies this`medicines, this`filteredMedicines
      ensures medicines == match response
                           case Response(true, Some(data)) => data
                           case _ => []
      ensures ViewCurrent(now)
    {
      medicines := match response
                   case Response(true, Some(data)) => data
                   case _ => [];
      FilterMedicines(now);
    }

    /**
     * `loadDonors`: on success the map built from the snapshot; on a
     * failure, or a successful reply without data (the `forEach` throws),
     * the empty map. The shown list does not depend on donors.
     */
    method LoadDonors(response: Response<seq<Donor>>)
      modifies this`donors
      ensures donors == match response
                        case Response(true, Some(data)) => DonorIndex(data)
                        case _ => map[]
    {
      match response
      case Response(true, Some(data)) =>
        donors := BuildDonorMap(data);
      case _ =>
        donors := map[];
    }

    method SetEmailFilter(value: string, now: int)
      modifies this`emailFilter, this`filteredMedicines
      ensures emailFilter == value && ViewCurrent(now)
    {
      emailFilter := value;
      FilterMedicines(now);
    }

    /** `clearEmailFilter`. */
    method ClearEmailFilter(now: int)
      modifies this`emailFilter, this`filteredMedicines
      ensures emailFilter == "" && ViewCurrent(now)
    {
      SetEmailFilter("", now);
    }

    method SetSearchTerm(value: string, now: int)
      modifies this`searchTerm, this`filteredMedicines
      ensures searchTerm == value && ViewCurrent(now)
    {
      searchTerm := value;
      FilterMedicines(now);
    }

    method SetFilterBy(value: string, now: int)
      modifies this`filterBy, this`filteredMedicines
      ensures filterBy == value && ViewCurrent(now)
    {
      filterBy := value;
      FilterMedicines(now);
    }

    /** The donor name shown in the detail view of `m`. */
    function DonorNameOf(m: Medicine): (name: string)
      reads this
      ensures name != ""
      ensures Truthy(m.emailid) && m.emailid.value in donors && Truthy(donors[m.emailid.value].name) ==>
                name == donors[m.emailid.value].name.value
      ensures !(Truthy(m.emailid) && m.emailid.value in donors && Truthy(donors[m.emailid.value].name)) ==>
                name == AnonymousDonor
    {
      GetDonorName(donors, m.emailid)
    }
  }
}
