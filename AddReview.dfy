/**
 * The state logic of the add-review page: the facility tags, the photo list
 * and its previews, the checks made before submitting, the fields of the
 * multipart request and the message shown when submitting fails. The pure
 * rules are functions; the page's state (`formData`, `imagePreviews`,
 * `errorMessage`, `isLoading`) is the class ReviewForm, whose methods are the
 * page's handlers, each taken as one atomic transition.
 */
module AddReview {
  import opened Wrappers

  const MaxPhotos: nat := 5

  const TooManyPhotosMessage := "Maksimal 5 foto yang dapat diunggah."
  const MissingPlaceMessage := "Data tempat tidak ditemukan."
  const MissingRatingMessage := "Silakan berikan rating terlebih dahulu."
  const LoginRequiredMessage := "Anda perlu login terlebih dahulu"
  const SubmitFailedMessage := "Gagal menambahkan ulasan"
  const NoConnectionMessage := "Tidak dapat terhubung ke server"
  const SetupFailedMessage := "Terjadi kesalahan saat menambahkan ulasan"

  type FacilityId = int

  /** An entry of the facility catalogue `FACILITIES`. */
  datatype Facility = Facility(id: FacilityId, name: string)

  /** A selected image file. */
  datatype Photo = Photo(name: string)

  // ---------------------------------------------------------------------
  // Initial facilities
  // ---------------------------------------------------------------------

  /** `FACILITIES.find((f) => f.name === name)?.id`: the id of the first
      catalogue entry with that name. */
  function FindFacilityId(catalog: seq<Facility>, name: string): (r: Option<FacilityId>)
    ensures r.None? <==> forall i :: 0 <= i < |catalog| ==> catalog[i].name != name
    ensures r.Some? ==> exists i :: 0 <= i < |catalog| && catalog[i].name == name && catalog[i].id == r.value &&
                                   (forall j :: 0 <= j < i ==> catalog[j].name != name)
  {
    if catalog == [] then None
    else if catalog[0].name == name then Some(catalog[0].id)
    else
      var r := FindFacilityId(catalog[1..], name);
      assert forall i :: 1 <= i < |catalog| ==> catalog[i] == catalog[1..][i - 1];
      r
  }

  /** The facility ids preselected from the place's facility names: each name
      mapped to its catalogue id, unmatched names dropped. */
  function InitialFacilities(catalog: seq<Facility>, names: seq<string>): seq<FacilityId> {
    if names == [] then []
    else
      (match FindFacilityId(catalog, names[0]) case Some(id) => [id] case None => []) +
      InitialFacilities(catalog, names[1..])
  }

  /** The mapping keeps the place's order: the ids for `a + b` are the ids for
      `a` followed by the ids for `b`. */
  lemma {:induction false} InitialFacilitiesConcat(catalog: seq<Facility>, a: seq<string>, b: seq<string>)
    ensures InitialFacilities(catalog, a + b) == InitialFacilities(catalog, a) + InitialFacilities(catalog, b)
  {
    if a != [] {
      assert (a + b)[0] == a[0];
      assert (a + b)[1..] == a[1..] + b;
      InitialFacilitiesConcat(catalog, a[1..], b);
    } else {
      assert a + b == b;
    }
  }

  /** An id is preselected exactly when some place facility's name maps to
      it; there are never more ids than names. */
  lemma {:induction false} InitialFacilitiesMembers(catalog: seq<Facility>, names: seq<string>)
    ensures |InitialFacilities(catalog, names)| <= |names|
    ensures forall x :: x in InitialFacilities(catalog, names) <==>
      exists k :: 0 <= k < |names| && FindFacilityId(catalog, names[k]) == Some(x)
  {
    if names != [] {
      InitialFacilitiesMembers(catalog, names[1..]);
      forall x ensures x in InitialFacilities(catalog, names) <==>
        exists k :: 0 <= k < |names| && FindFacilityId(catalog, names[k]) == Some(x)
      {
        if exists k :: 0 <= k < |names[1..]| && FindFacilityId(catalog, names[1..][k]) == Some(x) {
          var k :| 0 <= k < |names[1..]| && FindFacilityId(catalog, names[1..][k]) == Some(x);
          assert names[k + 1] == names[1..][k];
        }
        if exists k :: 0 <= k < |names| && FindFacilityId(catalog, names[k]) == Some(x) {
          var k :| 0 <= k < |names| && FindFacilityId(catalog, names[k]) == Some(x);
          if k > 0 { assert names[1..][k - 1] == names[k]; }
        }
      }
    }
  }

  // ---------------------------------------------------------------------
  // Facility toggle
  // ---------------------------------------------------------------------

  /** `filter((id) => id !== facilityId)`. */
  function RemoveAll(s: seq<FacilityId>, id: FacilityId): (r: seq<FacilityId>)
    ensures forall x :: x in r <==> x in s && x != id
  {
    if s == [] then []
    else (if s[0] == id then [] else [s[0]]) + RemoveAll(s[1..], id)
  }

  /** `handleFacilityToggle`: drop every occurrence of a selected id, append
      an unselected one. */
  function ToggleFacility(selected: seq<FacilityId>, id: FacilityId): seq<FacilityId> {
    if id in selected then RemoveAll(selected, id) else selected + [id]
  }

  lemma {:induction false} RemoveAllAbsent(s: seq<FacilityId>, id: FacilityId)
    requires id !in s
    ensures RemoveAll(s, id) == s
  {
    if s != [] {
      RemoveAllAbsent(s[1..], id);
    }
  }

  lemma {:induction false} RemoveAllConcat(a: seq<FacilityId>, b: seq<FacilityId>, id: FacilityId)
    ensures RemoveAll(a + b, id) == RemoveAll(a, id) + RemoveAll(b, id)
  {
    if a == [] {
      assert a + b == b;
    } else {
      assert (a + b)[0] == a[0];
      assert (a + b)[1..] == a[1..] + b;
      RemoveAllConcat(a[1..], b, id);
    }
  }

  /** Toggling flips the membership of `id` and of no other id. */
  lemma ToggleFlipsMembership(selected: seq<FacilityId>, id: FacilityId)
    ensures id in ToggleFacility(selected, id) <==> id !in selected
    ensures forall x :: x != id ==> (x in ToggleFacility(selected, id) <==> x in selected)
  {
  }

  /** The other ids keep their relative order: with `id` taken out, the list
      is the same before and after the toggle. */
  lemma ToggleKeepsOthersInOrder(selected: seq<FacilityId>, id: FacilityId)
    ensures RemoveAll(ToggleFacility(selected, id), id) == RemoveAll(selected, id)
  {
    if id in selected {
      RemoveAllAbsent(RemoveAll(selected, id), id);
    } else {
      RemoveAllConcat(selected, [id], id);
      assert RemoveAll([id], id) == [];
    }
  }

  /** Toggling an unselected id twice restores the list. */
  lemma ToggleTwiceRestores(selected: seq<FacilityId>, id: FacilityId)
    requires id !in selected
    ensures ToggleFacility(ToggleFacility(selected, id), id) == selected
  {
    RemoveAllConcat(selected, [id], id);
    assert RemoveAll([id], id) == [];
    RemoveAllAbsent(selected, id);
  }

  predicate Distinct(s: seq<FacilityId>) {
    forall i, j :: 0 <= i < j < |s| ==> s[i] != s[j]
  }

  lemma {:induction false} RemoveAllDistinct(s: seq<FacilityId>, id: FacilityId)
    requires Distinct(s)
    ensures Distinct(RemoveAll(s, id))
  {
    if s != [] {
      assert Distinct(s[1..]) by {
        forall i, j | 0 <= i < j < |s[1..]| ensures s[1..][i] != s[1..][j] {
          assert s[1..][i] == s[i + 1] && s[1..][j] == s[j + 1];
        }
      }
      RemoveAllDistinct(s[1..], id);
      assert s[0] !in s[1..] by {
        forall k | 0 <= k < |s[1..]| ensures s[1..][k] != s[0] { assert s[1..][k] == s[k + 1]; }
      }
    }
  }

  /** A selection without repeated ids keeps that property under toggling. */
  lemma ToggleKeepsDistinct(selected: seq<FacilityId>, id: FacilityId)
    requires Distinct(selected)
    ensures Distinct(ToggleFacility(selected, id))
  {
    if id in selected {
      RemoveAllDistinct(selected, id);
    }
  }

  // ---------------------------------------------------------------------
  // Removing a photo: Array.prototype.splice(index, 1)
  // ---------------------------------------------------------------------

  /** Where `splice(index, 1)` starts on a list of length `len`: a negative
      index counts from the end (and is clamped to 0), a large one is clamped
      to `len`, in which case nothing is removed. */
  function SpliceStart(len: nat, index: int): (k: nat)
    ensures k <= len
    // an element is removed exactly when the list is non-empty and the index
    // is below its length: an index before the front still removes the first
    ensures k < len <==> len > 0 && index < len
    ensures 0 <= index < len ==> k == index
    ensures index < 0 && len + index >= 0 ==> k == len + index
    ensures len + index < 0 ==> k == 0
  {
    if index < 0 then (if len + index > 0 then len + index else 0)
    else if index < len then index else len
  }

  /** The list after `splice(index, 1)`. */
  function SplicedOut<T>(s: seq<T>, index: int): seq<T> {
    var k := SpliceStart(|s|, index);
    if k < |s| then s[..k] + s[k + 1..] else s
  }

  /** `splice(index, 1)` on a copy of `s`: the element at the start position
      is overwritten by shifting the rest one place left, then the last slot
      is dropped. */
  method SpliceCopy<T>(s: seq<T>, index: int) returns (r: seq<T>)
    ensures r == SplicedOut(s, index)
  {
    var a := new T[|s|](i requires 0 <= i < |s| => s[i]);
    var k := SpliceStart(|s|, index);
    if k == |s| {
      return a[..];
    }
    var j := k;
    while j + 1 < a.Length
      invariant k <= j < a.Length
      invariant a.Length == |s|
      invariant forall m :: 0 <= m < k ==> a[m] == s[m]
      invariant forall m :: k <= m < j ==> a[m] == s[m + 1]
      invariant forall m :: j <= m < a.Length ==> a[m] == s[m]
    {
      a[j] := a[j + 1];
      j := j + 1;
    }
    ShiftedLeft(s, a[..], k);
    r := a[..a.Length - 1];
  }

  /** A copy of `s` whose tail from `k` is shifted one place left, with its
      last slot dropped, is `s` without the element at `k`. */
  lemma ShiftedLeft<T>(s: seq<T>, b: seq<T>, k: nat)
    requires k < |s| == |b|
    requires forall m :: 0 <= m < k ==> b[m] == s[m]
    requires forall m :: k <= m < |s| - 1 ==> b[m] == s[m + 1]
    ensures b[..|b| - 1] == s[..k] + s[k + 1..]
  {
  }

  /** Removing at a valid index takes out exactly that element and keeps the
      others in order; an index at or past the end removes nothing; lists of
      equal length stay of equal length; a negative index counts from the
      end. */
  lemma SplicedOutSpec<T, U>(s: seq<T>, t: seq<U>, index: int)
    requires |s| == |t|
    ensures |SplicedOut(s, index)| == |SplicedOut(t, index)|
    ensures 0 <= index < |s| ==> SplicedOut(s, index) == s[..index] + s[index + 1..]
    ensures index >= |s| ==> SplicedOut(s, index) == s
    ensures -|s| <= index < 0 ==> SplicedOut(s, index) == s[..|s| + index] + s[|s| + index + 1..]
    ensures index < |s| && |s| > 0 ==> |SplicedOut(s, index)| == |s| - 1
    ensures index < -|s| && |s| > 0 ==> SplicedOut(s, index) == s[1..]
  {
  }

  // ---------------------------------------------------------------------
  // Submitting
  // ---------------------------------------------------------------------

  /** The checks made before anything is sent, in order: the place, then the
      rating. An empty place id stands for a missing one. */
  function ValidationError(placeId: string, rating: int): (r: Option<string>)
    ensures r.None? <==> placeId != "" && rating != 0
    ensures placeId == "" ==> r == Some(MissingPlaceMessage)
    ensures placeId != "" && rating == 0 ==> r == Some(MissingRatingMessage)
  {
    if placeId == "" then Some(MissingPlaceMessage)
    else if rating == 0 then Some(MissingRatingMessage)
    else None
  }

  /** The value of a multipart field. The facility ids go out as their JSON
      text; the rating as its decimal text. */
  datatype FieldValue = Text(text: string) | Number(n: int) | FacilitiesJson(ids: seq<FacilityId>) | File(photo: Photo)

  datatype Field = Field(name: string, value: FieldValue)

  function DigitChar(d: nat): char
    requires d < 10
  {
    "0123456789"[d]
  }

  /** The decimal text of `n`. */
  function Decimal(n: nat): (r: string)
    ensures |r| >= 1
    ensures forall c :: c in r ==> '0' <= c <= '9'
  {
    if n < 10 then [DigitChar(n)] else Decimal(n / 10) + [DigitChar(n % 10)]
  }

  /** Distinct numbers have distinct decimal texts. */
  lemma {:induction false} DecimalInjective(m: nat, n: nat)
    ensures Decimal(m) == Decimal(n) ==> m == n
  {
    if Decimal(m) == Decimal(n) {
      if m >= 10 && n >= 10 {
        var dm, dn := Decimal(m), Decimal(n);
        assert dm[..|dm| - 1] == Decimal(m / 10);
        assert dn[..|dn| - 1] == Decimal(n / 10);
        assert DigitChar(m % 10) == dm[|dm| - 1] == dn[|dn| - 1] == DigitChar(n % 10);
        DecimalInjective(m / 10, n / 10);
      } else if m < 10 && n < 10 {
        assert DigitChar(m) == Decimal(m)[0] == Decimal(n)[0] == DigitChar(n);
      }
    }
  }

  /** The field name of the `i`-th photo. */
  function ImageField(i: nat): string {
    "images[" + Decimal(i) + "]"
  }

  /** Every photo goes under a name of its own. */
  lemma ImageFieldDistinct(m: nat, n: nat)
    ensures m != n ==> ImageField(m) != ImageField(n)
  {
    if ImageField(m) == ImageField(n) {
      var a, b := ImageField(m), ImageField(n);
      assert |Decimal(m)| == |Decimal(n)|;
      assert Decimal(m) == a[7..|a| - 1] == b[7..|b| - 1] == Decimal(n);
      DecimalInjective(m, n);
    }
  }

  /** The fields appended before the photos. */
  function HeaderFields(placeId: string, rating: int, comment: string, facilities: seq<FacilityId>): seq<Field> {
    [Field("place_id", Text(placeId)), Field("rating", Number(rating)), Field("comment", Text(comment))] +
    (if |facilities| > 0 then [Field("facilities", FacilitiesJson(facilities))] else [])
  }

  /** The request's fields: `place_id`, `rating` and `comment` always and in
      that order, then `facilities` only when some are selected, then each
      photo as `images[i]` in list order, and nothing else. */
  predicate IsPayload(p: seq<Field>, placeId: string, rating: int, comment: string, facilities: seq<FacilityId>, photos: seq<Photo>) {
    var header := HeaderFields(placeId, rating, comment, facilities);
    && |p| == |header| + |photos|
    && p[..|header|] == header
    && forall k :: 0 <= k < |photos| ==> p[|header| + k] == Field(ImageField(k), File(photos[k]))
  }

  /** The `append` calls of the submit handler, with the `forEach` over the
      photos. */
  method BuildPayload(placeId: string, rating: int, comment: string, facilities: seq<FacilityId>, photos: seq<Photo>)
    returns (p: seq<Field>)
    ensures IsPayload(p, placeId, rating, comment, facilities, photos)
    ensures p[0] == Field("place_id", Text(placeId)) && p[1] == Field("rating", Number(rating)) && p[2] == Field("comment", Text(comment))
    ensures (exists k :: 0 <= k < |p| && p[k].name == "facilities") <==> |facilities| > 0
  {
    p := [Field("place_id", Text(placeId)), Field("rating", Number(rating)), Field("comment", Text(comment))];
    if |facilities| > 0 {
      p := p + [Field("facilities", FacilitiesJson(facilities))];
    }
    var header := p;
    assert header == HeaderFields(placeId, rating, comment, facilities);
    var i := 0;
    while i < |photos|
      invariant 0 <= i <= |photos|
      invariant |p| == |header| + i
      invariant p[..|header|] == header
      invariant forall k :: 0 <= k < i ==> p[|header| + k] == Field(ImageField(k), File(photos[k]))
    {
      p := p + [Field(ImageField(i), File(photos[i]))];
      i := i + 1;
    }
    forall k | |header| <= k < |p| ensures p[k].name != "facilities" {
      assert p[k] == Field(ImageField(k - |header|), File(photos[k - |header|]));
      assert ImageField(k - |header|)[0] == 'i';
    }
    if |facilities| > 0 {
      assert p[3] == header[3];
    } else {
      forall k | 0 <= k < |header| ensures p[k].name != "facilities" {
        assert p[k] == header[k];
      }
    }
  }

  /** The error thrown while submitting: a response with a status and an
      optional body, a request that got no response, or an error raised
      before the request (its message, "" when empty). */
  datatype SubmitError = HttpError(status: int, body: Option<ErrorBody>) | NoResponse | SetupError(message: string)

  /** The fields `error` and `message` of a response body, "" when absent. */
  datatype ErrorBody = ErrorBody(error: string, message: string)

  /** The message shown for a failed submission. */
  function ErrorMessage(e: SubmitError): (m: string)
    ensures m != ""
    ensures e.HttpError? && e.status == 401 ==> m == LoginRequiredMessage
    ensures e.NoResponse? ==> m == NoConnectionMessage
    ensures e.SetupError? && e.message != "" ==> m == e.message
  {
    match e
    case HttpError(status, body) =>
      if status == 401 then LoginRequiredMessage
      else if body.Some? && body.value.error != "" then body.value.error
      else if body.Some? && body.value.message != "" then body.value.message
      else SubmitFailedMessage
    case NoResponse => NoConnectionMessage
    case SetupError(message) => if message != "" then message else SetupFailedMessage
  }

  /** A response other than 401 shows the body's `error`, else its `message`,
      else the generic failure; a setup error without message shows the
      generic setup failure; a missing token reads like a 401. */
  lemma ErrorMessageCases(e: SubmitError)
    ensures e.HttpError? && e.status != 401 ==>
      ErrorMessage(e) == (if e.body.Some? && e.body.value.error != "" then e.body.value.error
                          else if e.body.Some? && e.body.value.message != "" then e.body.value.message
                          else SubmitFailedMessage)
    ensures e.SetupError? && e.message == "" ==> ErrorMessage(e) == SetupFailedMessage
    ensures ErrorMessage(SetupError(LoginRequiredMessage)) == ErrorMessage(HttpError(401, None))
  {
  }

  /** What the request produced. */
  datatype RequestOutcome = Accepted | Rejected(error: SubmitError)

  // ---------------------------------------------------------------------
  // The page's state
  // ---------------------------------------------------------------------

  class ReviewForm {
    const placeId: string
    const placeFacilities: seq<string>
    const catalog: seq<Facility>

    var rating: int
    var ulasan: string
    var selectedFacilities: seq<FacilityId>
    var foto: seq<Photo>
    var imagePreviews: seq<string>
    var errorMessage: string
    var isLoading: bool

    /** At most five photos, each with its preview. */
    predicate Valid()
      reads this
    {
      |foto| <= MaxPhotos && |foto| == |imagePreviews|
    }

    constructor(placeId: string, placeFacilities: seq<string>, catalog: seq<Facility>)
      ensures Valid()
      ensures this.placeId == placeId && this.placeFacilities == placeFacilities && this.catalog == catalog
      ensures rating == 0 && ulasan == "" && selectedFacilities == [] && foto == []
      ensures imagePreviews == [] && errorMessage == "" && !isLoading
    {
      this.placeId := placeId;
      this.placeFacilities := placeFacilities;
      this.catalog := catalog;
      rating := 0;
      ulasan := "";
      selectedFacilities := [];
      foto := [];
      imagePreviews := [];
      errorMessage := "";
      isLoading := false;
    }

    /** The effect that preselects the place's facilities; it does nothing
        when the place lists none. */
    method ApplyPlaceFacilities()
      modifies this`selectedFacilities
      ensures |placeFacilities| > 0 ==> selectedFacilities == InitialFacilities(catalog, placeFacilities)
      ensures |placeFacilities| == 0 ==> selectedFacilities == old(selectedFacilities)
    {
      if |placeFacilities| > 0 {
        selectedFacilities := InitialFacilities(catalog, placeFacilities);
      }
    }

    /** `handleInputChange` for the review text. */
    method HandleInputChange(value: string)
      modifies this`ulasan
      ensures ulasan == value
    {
      ulasan := value;
    }

    method HandleFacilityToggle(id: FacilityId)
      modifies this`selectedFacilities
      ensures selectedFacilities == ToggleFacility(old(selectedFacilities), id)
      ensures id in selectedFacilities <==> id !in old(selectedFacilities)
    {
      selectedFacilities := ToggleFacility(selectedFacilities, id);
    }

    method HandleRatingChange(value: int)
      modifies this`rating
      ensures rating == value
    {
      rating := value;
    }

    /** `handleFotoChange` with the chosen files and the preview URL made for
        each of them. */
    method HandleFotoChange(files: seq<Photo>, previews: seq<string>)
      requires Valid()
      requires |previews| == |files|
      modifies this`foto, this`imagePreviews, this`errorMessage
      ensures Valid()
      ensures |old(foto)| + |files| > MaxPhotos ==>
        errorMessage == TooManyPhotosMessage && foto == old(foto) && imagePreviews == old(imagePreviews)
      ensures |old(foto)| + |files| <= MaxPhotos ==>
        foto == old(foto) + files && imagePreviews == old(imagePreviews) + previews && errorMessage == old(errorMessage)
    {
      if |foto| + |files| > MaxPhotos {
        errorMessage := TooManyPhotosMessage;
        return;
      }
      foto := foto + files;
      imagePreviews := imagePreviews + previews;
    }

    method HandleRemoveImage(index: int)
      requires Valid()
      modifies this`foto, this`imagePreviews
      ensures Valid()
      ensures foto == SplicedOut(old(foto), index)
      ensures imagePreviews == SplicedOut(old(imagePreviews), index)
    {
      SplicedOutSpec(foto, imagePreviews, index);
      foto := SpliceCopy(foto, index);
      imagePreviews := SpliceCopy(imagePreviews, index);
    }

    method HandleClearReview()
      modifies this`ulasan
      ensures ulasan == ""
    {
      ulasan := "";
    }

    /** The submit handler up to the request: the checks, then `isLoading`
        and the cleared error, then the request's fields. */
    method BeginSubmit() returns (payload: Option<seq<Field>>)
      modifies this`errorMessage, this`isLoading
      ensures ValidationError(placeId, rating).Some? ==>
        payload.None? && errorMessage == ValidationError(placeId, rating).value && isLoading == old(isLoading)
      ensures ValidationError(placeId, rating).None? ==>
        payload.Some? && isLoading && errorMessage == "" &&
        IsPayload(payload.value, placeId, rating, ulasan, selectedFacilities, foto)
    {
      var invalid := ValidationError(placeId, rating);
      if invalid.Some? {
        errorMessage := invalid.value;
        return None;
      }
      isLoading := true;
      errorMessage := "";
      var fields := BuildPayload(placeId, rating, ulasan, selectedFacilities, foto);
      payload := Some(fields);
    }

    /** The rest of the submit handler: without a token the request is not
        made and the login message is shown; a rejected request shows its
        message; `isLoading` ends false in every case. */
    method FinishSubmit(hasToken: bool, outcome: RequestOutcome)
      modifies this`errorMessage, this`isLoading
      ensures !isLoading
      ensures !hasToken ==> errorMessage == LoginRequiredMessage
      ensures hasToken && outcome.Rejected? ==> errorMessage == ErrorMessage(outcome.error) && errorMessage != ""
      ensures hasToken && outcome.Accepted? ==> errorMessage == old(errorMessage)
    {
      var failure: Option<SubmitError> :=
        if !hasToken then Some(SetupError(LoginRequiredMessage))
        else if outcome.Rejected? then Some(outcome.error)
        else None;
      if failure.Some? {
        errorMessage := ErrorMessage(failure.value);
      }
      isLoading := false;
    }
  }
}
