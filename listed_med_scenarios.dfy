/** Worked cases of the listing page's filter, counters and donor lookup. */
module ListedMedScenarios {

  import opened Wrappers
  import opened JsStrings
  import opened Seqs
  import opened Expiry
  import opened ListedMed

  /** Filtering three records unrolls to three tests. */
  lemma {:induction false} KeepThree<T>(a: T, b: T, c: T, p: T -> bool)
    ensures Keep([a, b, c], p) == (if p(a) then [a] else []) + (if p(b) then [b] else []) + (if p(c) then [c] else [])
  {
    assert [a, b, c][1..] == [b, c];
    assert [b, c][1..] == [c];
    assert [c][1..] == [];
    assert Keep([c], p) == if p(c) then [c] else [];
    assert Keep([b, c], p) == (if p(b) then [b] else []) + Keep([c], p);
  }

  /** Lower-casing a string with no upper-case ASCII letter leaves it as it is. */
  lemma {:induction false} LowerOfLowercase(s: string)
    requires forall i :: 0 <= i < |s| ==> !('A' <= s[i] <= 'Z')
    ensures Lower(s) == s
  {
  }

  lemma {:induction false} EmailOnlyCriteria(meds: seq<Medicine>, e: string, now: int)
    requires !Blank(e)
    ensures FilteredMedicines(meds, Criteria(e, "", "all"), now) == Keep(meds, EmailTest(e))
  {
  }

  lemma {:induction false} SearchOnlyCriteria(meds: seq<Medicine>, t: string, now: int)
    requires !Blank(t)
    ensures FilteredMedicines(meds, Criteria("", t, "all"), now) == Keep(meds, SearchTest(t))
  {
  }

  /** Three records from a@x.com, b@x.com and a@x.com: the owner filter keeps the first and the third, in order. */
  lemma OwnerFilterScenario(r0: Medicine, r1: Medicine, r2: Medicine, now: int)
    requires r0.emailid == Some("a@x.com") && r1.emailid == Some("b@x.com") && r2.emailid == Some("a@x.com")
    ensures FilteredMedicines([r0, r1, r2], Criteria("a@x.com", "", "all"), now) == [r0, r2]
  {
    var p := EmailTest("a@x.com");
    assert p(r0) && p(r2) by {
      LowerOfLowercase("a@x.com");
      assert OccursAt("a@x.com", "a@x.com", 0);
    }
    assert !p(r1) by {
      LowerOfLowercase("b@x.com");
      assert "b@x.com"[0..7][0] == 'b';
      assert !OccursAt("b@x.com", "a@x.com", 0);
    }
    assert Keep([r0, r1, r2], p) == [r0, r2] by {
      KeepThree(r0, r1, r2, p);
    }
    assert FilteredMedicines([r0, r1, r2], Criteria("a@x.com", "", "all"), now) == Keep([r0, r1, r2], p) by {
      assert !Blank("a@x.com") by {
        assert !IsJsSpace("a@x.com"[0]);
      }
      EmailOnlyCriteria([r0, r1, r2], "a@x.com", now);
    }
  }

  /**
   * On 2024-01-01 (UTC midnight), records expiring 2023-12-20, 2024-01-15
   * and 2025-01-01: "expiring" keeps only the second, and the counters
   * read one expiring and one expired.
   */
  lemma StatusScenario()
    ensures var now := 1704067200000;
            var r0 := Medicine(None, Some("A"), None, At(1703030400000));
            var r1 := Medicine(None, Some("B"), None, At(1705276800000));
            var r2 := Medicine(None, Some("C"), None, At(1735689600000));
            && FilteredMedicines([r0, r1, r2], Criteria("", "", "expiring"), now) == [r1]
            && ExpiringSoonCount([r0, r1, r2], now) == 1
            && ExpiredCount([r0, r1, r2], now) == 1
  {
    var now := 1704067200000;
    var r0 := Medicine(None, Some("A"), None, At(1703030400000));
    var r1 := Medicine(None, Some("B"), None, At(1705276800000));
    var r2 := Medicine(None, Some("C"), None, At(1735689600000));
    assert CeilDays(1703030400000 - now) == -12;
    assert CeilDays(1705276800000 - now) == 14;
    assert CeilDays(1735689600000 - now) == 366;
    assert [r0, r1, r2][1..] == [r1, r2];
    assert [r1, r2][1..] == [r2];
  }

  lemma {:induction false} NotPara(s: string)
    requires |s| >= 4
    requires forall i :: 0 <= i <= |s| - 4 ==> s[i] != 'p' || s[i + 1] != 'a'
    ensures !Includes(s, "para")
  {
    forall i | 0 <= i <= |s| - 4 ensures !OccursAt(s, "para", i) {
      assert s[i..i + 4][0] == s[i] && s[i..i + 4][1] == s[i + 1];
    }
  }

  /**
   * "para" finds "Paracetamol" whatever its case, and finds "Ibuprofen" from
   * "ParaLabs" through the company: the search is across both fields.
   */
  lemma SearchScenario(r0: Medicine, r1: Medicine, r2: Medicine, now: int)
    requires r0.medicine == Some("Paracetamol") && r0.company == Some("GSK")
    requires r1.medicine == Some("Ibuprofen") && r1.company == Some("ParaLabs")
    requires r2.medicine == Some("Ibuprofen") && r2.company == Some("Cipla")
    ensures FilteredMedicines([r0, r1, r2], Criteria("", "para", "all"), now) == [r0, r1]
  {
    var p := SearchTest("para");
    ParaFound(r0);
    ParaFound(r1);
    ParaNotFound(r2);
    KeepThree(r0, r1, r2, p);
    assert !Blank("para") by {
      assert !IsJsSpace("para"[0]);
    }
    SearchOnlyCriteria([r0, r1, r2], "para", now);
  }

  lemma ParaFound(r: Medicine)
    requires r.medicine == Some("Paracetamol") || r.company == Some("ParaLabs")
    ensures SearchMatches(r, "para")
  {
    LowerOfLowercase("para");
    if r.medicine == Some("Paracetamol") {
      assert Lower("Paracetamol")[0..4] == "para";
      assert OccursAt(Lower("Paracetamol"), "para", 0);
    } else {
      assert Lower("ParaLabs")[0..4] == "para";
      assert OccursAt(Lower("ParaLabs"), "para", 0);
    }
  }

  lemma ParaNotFound(r: Medicine)
    requires r.medicine == Some("Ibuprofen") && r.company == Some("Cipla")
    ensures !SearchMatches(r, "para")
  {
    LowerOfLowercase("para");
    assert Lower("Ibuprofen") == "ibuprofen";
    NotPara("ibuprofen");
    assert Lower("Cipla") == "cipla";
    NotPara("cipla");
  }

  /**
   * A filter with a trailing space is not blank, yet the space takes part in
   * the match. The page's `type="email"` box strips such white space, so this
   * case is reached only when the filter is set by other means.
   */
  lemma UntrimmedEmailFilter(r: Medicine, now: int)
    requires r.emailid == Some("a@x.com")
    ensures FilteredMedicines([r], Criteria("a@x.com ", "", "all"), now) == []
  {
    assert !Blank("a@x.com ") by {
      assert !IsJsSpace("a@x.com "[0]);
    }
    assert !EmailTest("a@x.com ")(r) by {
      if Includes(Lower("a@x.com"), Lower("a@x.com ")) {
        IncludesNotLonger(Lower("a@x.com"), Lower("a@x.com "));
      }
    }
    assert [r][1..] == [];
    EmailOnlyCriteria([r], "a@x.com ", now);
  }

  /** An empty donor map names everyone "Anonymous Donor"; a known donor is named. */
  lemma DonorLookupScenario(e: Option<string>)
    ensures GetDonorName(map[], e) == AnonymousDonor
    ensures GetDonorName(DonorIndex([Donor(Some("d@x.com"), Some("Asha"))]), Some("d@x.com")) == "Asha"
    ensures GetDonorName(DonorIndex([Donor(Some("d@x.com"), Some("Asha")), Donor(Some("d@x.com"), None)]),
                         Some("d@x.com")) == AnonymousDonor
  {
    var ds := [Donor(Some("d@x.com"), Some("Asha")), Donor(Some("d@x.com"), None)];
    assert ds[..1] == [Donor(Some("d@x.com"), Some("Asha"))];
    assert [Donor(Some("d@x.com"), Some("Asha"))][..0] == [];
  }
}
