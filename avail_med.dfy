/**
 * The medicine donation form: `formData` is replaced one field at a time,
 * "Avail To Public" validates before posting, "Update" posts as it is.
 */
module AvailMed {

  import opened JsStrings
  import opened JsNumber

  const SaveEndpoint: string := "/medicine/save"
  const UpdateEndpoint: string := "/medicine/update"

  const MissingFieldsAlert: string := "Please fill all the required fields including contact number"
  const QuantityAlert: string := "Quantity must be greater than 0"

  /** The fields `doSave` requires; `info` is not among them. */
  const RequiredFields: seq<string> := ["emailid", "contactno", "medicine", "company", "expdate", "packing", "qty"]

  /** `formData` as the page starts: every field present and empty. */
  const InitialForm: map<string, string> :=
    map["emailid" := "", "contactno" := "", "medicine" := "", "company" := "",
        "expdate" := "", "packing" := "", "qty" := "", "info" := ""]

  /** A multipart post: the endpoint and every entry of `formData`. */
  datatype Post = Post(endpoint: string, body: map<string, string>)

  datatype SaveOutcome = MissingFields | NonPositiveQuantity | Posted

  /** `formData[k]` is truthy: present (not undefined) and not the empty string. */
  predicate Filled(form: map<string, string>, k: string) {
    k in form && form[k] != ""
  }

  /**
   * `doSave`'s two guards in order: any required field empty is reported
   * first; only then is `qty <= 0` tested, which a non-numeric quantity
   * passes because NaN compares false.
   */
  function SaveCheck(form: map<string, string>): (r: SaveOutcome)
    ensures r == MissingFields <==> exists k :: k in RequiredFields && !Filled(form, k)
    ensures r == NonPositiveQuantity <==>
              (forall k :: k in RequiredFields ==> Filled(form, k)) && AtMostZero(form["qty"])
    ensures r == Posted <==>
              (forall k :: k in RequiredFields ==> Filled(form, k)) && !AtMostZero(form["qty"])
  {
    if !Filled(form, "emailid") || !Filled(form, "contactno") || !Filled(form, "medicine")
       || !Filled(form, "company") || !Filled(form, "expdate") || !Filled(form, "packing")
       || !Filled(form, "qty")
    then MissingFields
    else if AtMostZero(form["qty"]) then NonPositiveQuantity
    else Posted
  }

  /** The message `alert` shows for an outcome, if any. */
  function AlertsFor(outcome: SaveOutcome): seq<string> {
    match outcome
    case MissingFields => [MissingFieldsAlert]
    case NonPositiveQuantity => [QuantityAlert]
    case Posted => []
  }

  /** The fresh form is rejected for missing fields. */
  lemma InitialFormIsIncomplete()
    ensures SaveCheck(InitialForm) == MissingFields
  {
    assert "emailid" in RequiredFields && !Filled(InitialForm, "emailid");
  }

  /** `info` takes no part in validation. */
  lemma {:induction false} InfoNotRequired(form: map<string, string>, v: string)
    ensures SaveCheck(form["info" := v]) == SaveCheck(form)
  {
  }

  /** An empty quantity is a missing field, whatever else is filled. */
  lemma {:induction false} EmptyQuantityIsMissing(form: map<string, string>)
    requires "qty" in form && form["qty"] == ""
    ensures SaveCheck(form) == MissingFields
  {
    assert "qty" in RequiredFields;
  }

  /** Every required field is filled. */
  predicate Complete(form: map<string, string>) {
    forall k :: k in RequiredFields ==> Filled(form, k)
  }

  /** On a complete form only the quantity's sign decides, with `qty` set to `q`. */
  lemma {:induction false} CompleteWithQuantity(form: map<string, string>, q: string)
    requires Complete(form) && q != ""
    ensures SaveCheck(form["qty" := q]) == if AtMostZero(q) then NonPositiveQuantity else Posted
  {
    var f := form["qty" := q];
    forall k | k in RequiredFields ensures Filled(f, k) {
      if k != "qty" {
        assert Filled(form, k);
      }
    }
  }

  /**
   * With every other required field filled, a quantity typed as digits is
   * rejected exactly when it is all zeros ("0" gets the quantity message,
   * not the missing-field one), and one with a minus sign always is.
   */
  lemma {:induction false} DigitQuantity(form: map<string, string>, d: string)
    requires Complete(form)
    requires d != [] && DecimalDigits(d)
    ensures SaveCheck(form["qty" := d]) == if AllZeros(d) then NonPositiveQuantity else Posted
    ensures SaveCheck(form["qty" := "-" + d]) == NonPositiveQuantity
  {
    DigitsSign(d);
    CompleteWithQuantity(form, d);
    CompleteWithQuantity(form, "-" + d);
  }

  /** A quantity of spaces is filled, so it passes the first guard, yet converts to 0. */
  lemma {:induction false} SpacesQuantity(form: map<string, string>, q: string)
    requires Complete(form)
    requires q != "" && Blank(q)
    ensures SaveCheck(form["qty" := q]) == NonPositiveQuantity
  {
    BlankIsZero(q);
    CompleteWithQuantity(form, q);
  }

  /** A quantity that is a word converts to NaN, passes `qty <= 0`, and the form is posted. */
  lemma {:induction false} WordQuantityIsPosted(form: map<string, string>, q: string)
    requires Complete(form)
    requires q != [] && ('a' <= q[0] <= 'z' || 'A' <= q[0] <= 'Z') && Trim(q) != "Infinity"
    ensures SaveCheck(form["qty" := q]) == Posted
  {
    WordIsNaN(q);
    CompleteWithQuantity(form, q);
  }

  /** The form component's state, with what it has sent and shown. */
  class DonationForm {
    var formData: map<string, string>
    /** The requests sent to the server, oldest first. */
    var posts: seq<Post>
    /** The messages shown with `alert` before any request, oldest first. */
    var alerts: seq<string>

    constructor ()
      ensures formData == InitialForm && posts == [] && alerts == []
    {
      formData, posts, alerts := InitialForm, [], [];
    }

    /** `handleChange`: `{ ...formData, [name]: value }`. */
    method HandleChange(name: string, value: string)
      modifies this`formData
      ensures formData == old(formData)[name := value]
      ensures forall k :: k != name ==> (k in formData <==> k in old(formData))
      ensures forall k :: k != name && k in formData ==> formData[k] == old(formData)[k]
    {
      formData := formData[name := value];
    }

    /** `doSave`: two early-return guards, then the post. */
    method DoSave() returns (outcome: SaveOutcome)
      modifies this`posts, this`alerts
      ensures outcome == SaveCheck(formData)
      ensures posts == old(posts) + if outcome == Posted then [Post(SaveEndpoint, formData)] else []
      ensures alerts == old(alerts) + AlertsFor(outcome)
    {
      if !Filled(formData, "emailid") || !Filled(formData, "contactno") || !Filled(formData, "medicine")
         || !Filled(formData, "company") || !Filled(formData, "expdate") || !Filled(formData, "packing")
         || !Filled(formData, "qty")
      {
        alerts := alerts + [MissingFieldsAlert];
        return MissingFields;
      }
      if AtMostZero(formData["qty"]) {
        alerts := alerts + [QuantityAlert];
        return NonPositiveQuantity;
      }
      posts := posts + [Post(SaveEndpoint, formData)];
      outcome := Posted;
    }

    /** `doUpdate`: no validation; the form is always posted. */
    method DoUpdate()
      modifies this`posts
      ensures posts == old(posts) + [Post(UpdateEndpoint, formData)]
    {
      posts := posts + [Post(UpdateEndpoint, formData)];
    }
  }
}
