/**
 * The admin console: a component whose state is the listing array, the
 * add/edit form (a partial listing), the listing being edited and whether
 * the form is shown. The list transformations its handlers apply are pure
 * functions here; the handlers themselves are methods of `AdminStore`.
 */
module AdminDashboard {
  import opened Wrappers
  import opened PGTypes
  import Seqs
  import Dashboard

  /** A listing with every field optional: the form's data. */
  datatype ListingPatch = ListingPatch(
    id: Option<string>,
    name: Option<string>,
    images: Option<seq<string>>,
    monthlyRent: Option<int>,
    genderPreference: Option<Gender>,
    location: Option<string>,
    area: Option<string>,
    phoneNumber: Option<string>,
    googleMapsLink: Option<string>,
    rating: Option<real>,
    amenities: Option<seq<string>>,
    roomType: Option<RoomType>,
    description: Option<string>,
    verified: Option<bool>,
    availability: Option<Availability>)

  function EmptyPatch(): ListingPatch {
    ListingPatch(None, None, None, None, None, None, None, None, None, None, None, None, None, None, None)
  }

  /** A whole listing seen as a patch that sets every field. */
  function PatchOf(l: Listing): ListingPatch {
    ListingPatch(Some(l.id), Some(l.name), Some(l.images), Some(l.monthlyRent),
      Some(l.genderPreference), Some(l.location), Some(l.area), Some(l.phoneNumber),
      Some(l.googleMapsLink), Some(l.rating), Some(l.amenities), Some(l.roomType),
      Some(l.description), Some(l.verified), Some(l.availability))
  }

  /** The blank form the page starts with and returns to after submit or
      cancel: every field present, no id, no amenities and no images. */
  function DefaultForm(): (r: ListingPatch)
    ensures FormComplete(r) && r.id == None
    ensures r.amenities == Some([]) && r.images == Some([])
  {
    ListingPatch(None, Some(""), Some([]), Some(0), Some(Coed), Some(""), Some(""), Some(""),
      Some(""), Some(4.0), Some([]), Some(Single), Some(""), Some(true), Some(Available))
  }

  /** The patch field `f`, when set, holds `v`. */
  predicate Fits<T(==)>(f: Option<T>, v: T) {
    f.Some? ==> f.value == v
  }

  /** Every field that `p` sets has the value `l` has. */
  predicate Agrees(l: Listing, p: ListingPatch) {
    && Fits(p.id, l.id)
    && Fits(p.name, l.name)
    && Fits(p.images, l.images)
    && Fits(p.monthlyRent, l.monthlyRent)
    && Fits(p.genderPreference, l.genderPreference)
    && Fits(p.location, l.location)
    && Fits(p.area, l.area)
    && Fits(p.phoneNumber, l.phoneNumber)
    && Fits(p.googleMapsLink, l.googleMapsLink)
    && Fits(p.rating, l.rating)
    && Fits(p.amenities, l.amenities)
    && Fits(p.roomType, l.roomType)
    && Fits(p.description, l.description)
    && Fits(p.verified, l.verified)
    && Fits(p.availability, l.availability)
  }

  /** `v` when the patch field `f` is unset, nothing when it is set. */
  function Unset<T>(f: Option<T>, v: T): Option<T> {
    if f.Some? then None else Some(v)
  }

  /** The fields of `b` that `p` leaves unset, as a patch. */
  function Outside(b: Listing, p: ListingPatch): ListingPatch {
    ListingPatch(
      Unset(p.id, b.id),
      Unset(p.name, b.name),
      Unset(p.images, b.images),
      Unset(p.monthlyRent, b.monthlyRent),
      Unset(p.genderPreference, b.genderPreference),
      Unset(p.location, b.location),
      Unset(p.area, b.area),
      Unset(p.phoneNumber, b.phoneNumber),
      Unset(p.googleMapsLink, b.googleMapsLink),
      Unset(p.rating, b.rating),
      Unset(p.amenities, b.amenities),
      Unset(p.roomType, b.roomType),
      Unset(p.description, b.description),
      Unset(p.verified, b.verified),
      Unset(p.availability, b.availability))
  }

  /** Every field but the id and the images is set, as the form always has
      them; the add branch copes with missing images itself. */
  predicate FormComplete(p: ListingPatch) {
    && p.name.Some? && p.monthlyRent.Some? && p.genderPreference.Some?
    && p.location.Some? && p.area.Some? && p.phoneNumber.Some? && p.googleMapsLink.Some?
    && p.rating.Some? && p.amenities.Some? && p.roomType.Some? && p.description.Some?
    && p.verified.Some? && p.availability.Some?
  }

  /** The object spread `{ ...base, ...p }`: the fields `p` sets take its
      values, every other field keeps the one of `base`. */
  function Merge(base: Listing, p: ListingPatch): (r: Listing)
    ensures Agrees(r, p)
    ensures Agrees(r, Outside(base, p))
  {
    Listing(
      p.id.GetOr(base.id), p.name.GetOr(base.name), p.images.GetOr(base.images),
      p.monthlyRent.GetOr(base.monthlyRent), p.genderPreference.GetOr(base.genderPreference),
      p.location.GetOr(base.location), p.area.GetOr(base.area),
      p.phoneNumber.GetOr(base.phoneNumber), p.googleMapsLink.GetOr(base.googleMapsLink),
      p.rating.GetOr(base.rating), p.amenities.GetOr(base.amenities),
      p.roomType.GetOr(base.roomType), p.description.GetOr(base.description),
      p.verified.GetOr(base.verified), p.availability.GetOr(base.availability))
  }

  /** The patch spread `{ ...p, ...q }`, which is how each form field's
      change handler updates the form: it keeps a complete form complete, and
      a patch without an id keeps the form's id. */
  function Overlay(p: ListingPatch, q: ListingPatch): (r: ListingPatch)
    ensures FormComplete(p) ==> FormComplete(r)
    ensures q.id == None ==> r.id == p.id
  {
    ListingPatch(
      q.id.OrElse(p.id),
      q.name.OrElse(p.name),
      q.images.OrElse(p.images),
      q.monthlyRent.OrElse(p.monthlyRent),
      q.genderPreference.OrElse(p.genderPreference),
      q.location.OrElse(p.location),
      q.area.OrElse(p.area),
      q.phoneNumber.OrElse(p.phoneNumber),
      q.googleMapsLink.OrElse(p.googleMapsLink),
      q.rating.OrElse(p.rating),
      q.amenities.OrElse(p.amenities),
      q.roomType.OrElse(p.roomType),
      q.description.OrElse(p.description),
      q.verified.OrElse(p.verified),
      q.availability.OrElse(p.availability))
  }

  /** An empty patch on either side of an overlay changes nothing. */
  lemma OverlayIdentity(p: ListingPatch)
    ensures Overlay(p, EmptyPatch()) == p
    ensures Overlay(EmptyPatch(), p) == p
  {
  }

  /** The two agreements in Merge's contract determine its result. */
  lemma MergeIsDetermined(base: Listing, p: ListingPatch, l: Listing)
    requires Agrees(l, p) && Agrees(l, Outside(base, p))
    ensures l == Merge(base, p)
  {
  }

  /** An empty patch changes nothing; a patch of a whole listing replaces
      everything; merging twice is merging the overlaid patches once. */
  lemma MergeLaws(base: Listing, l: Listing, p: ListingPatch, q: ListingPatch)
    ensures Merge(base, EmptyPatch()) == base
    ensures Merge(base, PatchOf(l)) == l
    ensures Merge(Merge(base, p), q) == Merge(base, Overlay(p, q))
  {
  }

  /** The update map: every entry with the edited id becomes `v`, every other
      entry stays where it is. */
  function ReplaceMatching(s: seq<Listing>, id: string, v: Listing): (r: seq<Listing>)
    ensures |r| == |s|
    ensures forall i :: 0 <= i < |s| ==> r[i] == (if s[i].id == id then v else s[i])
    decreases |s|
  {
    if s == [] then []
    else [if s[0].id == id then v else s[0]] + ReplaceMatching(s[1..], id, v)
  }

  /** Updating an id that is not in the list is a silent no-op. */
  lemma ReplaceAbsentIdIsNoOp(s: seq<Listing>, id: string, v: Listing)
    requires id !in Ids(s)
    ensures ReplaceMatching(s, id, v) == s
  {
    var r := ReplaceMatching(s, id, v);
    forall i | 0 <= i < |s| ensures r[i] == s[i] {
      assert Ids(s)[i] == s[i].id;
    }
  }

  /** An update whose new value keeps the id keeps every id in place. */
  lemma ReplaceKeepsIds(s: seq<Listing>, id: string, v: Listing)
    requires v.id == id
    ensures Ids(ReplaceMatching(s, id, v)) == Ids(s)
  {
  }

  function HasOtherId(id: string): Listing -> bool {
    (pg: Listing) => pg.id != id
  }

  /** The delete filter: drops exactly the entries with the id, keeping the
      others in order. */
  function RemoveById(s: seq<Listing>, id: string): (r: seq<Listing>)
    ensures forall pg :: pg in r <==> pg in s && pg.id != id
    ensures Seqs.IsSubsequence(r, s)
  {
    Seqs.FilterIsSubsequence(HasOtherId(id), s);
    Seqs.Filter(HasOtherId(id), s)
  }

  /** Deleting an absent id, or the same id a second time, changes nothing. */
  lemma RemoveIsIdempotent(s: seq<Listing>, id: string)
    ensures id !in Ids(s) ==> RemoveById(s, id) == s
    ensures RemoveById(RemoveById(s, id), id) == RemoveById(s, id)
  {
    Seqs.FilterIdempotent(HasOtherId(id), s);
    if id !in Ids(s) {
      forall pg | pg in s ensures pg.id != id {
        var i :| 0 <= i < |s| && s[i] == pg;
        assert Ids(s)[i] == pg.id;
      }
      Seqs.FilterKeepsAll(HasOtherId(id), s);
    }
  }

  /** Deleting removes as many entries as carried the id. */
  lemma RemoveCount(s: seq<Listing>, id: string)
    ensures |RemoveById(s, id)| + |Seqs.Filter((pg: Listing) => pg.id == id, s)| == |s|
  {
    var all := (pg: Listing) => true;
    Seqs.FilterLengthUnion(HasOtherId(id), (pg: Listing) => pg.id == id, all, s);
    Seqs.FilterKeepsAll(all, s);
  }

  /** Any filter of a list with distinct ids has distinct ids. */
  lemma {:induction false} FilterKeepsUniqueIds(p: Listing -> bool, s: seq<Listing>)
    requires UniqueIds(s)
    ensures UniqueIds(Seqs.Filter(p, s))
    decreases |s|
  {
    if s != [] {
      var t := s[1..];
      assert UniqueIds(t) by {
        forall i, j | 0 <= i < j < |t| ensures t[i].id != t[j].id {
          assert t[i] == s[i + 1] && t[j] == s[j + 1];
        }
      }
      FilterKeepsUniqueIds(p, t);
      if p(s[0]) {
        var r := Seqs.Filter(p, s);
        var ft := Seqs.Filter(p, t);
        assert r == [s[0]] + ft;
        forall k | 0 <= k < |ft| ensures ft[k].id != s[0].id {
          assert ft[k] in t;
          var m :| 0 <= m < |t| && t[m] == ft[k];
          assert t[m] == s[m + 1];
        }
        forall i, j | 0 <= i < j < |r| ensures r[i].id != r[j].id {
          if i == 0 {
            assert r[j] == ft[j - 1];
          } else {
            assert r[i] == ft[i - 1] && r[j] == ft[j - 1];
          }
        }
      }
    }
  }

  /** Toggling an amenity flips its membership and leaves every other tag's
      membership alone. A present one loses all its occurrences while the
      other tags keep their order and their repeats; an absent one goes to
      the end. */
  function ToggleTag(tags: seq<string>, a: string): (r: seq<string>)
    ensures a in r <==> a !in tags
    ensures forall t :: t != a ==> (t in r <==> t in tags)
    ensures a in tags ==> Seqs.IsSubsequence(r, tags) && multiset(r) == multiset(tags)[a := 0]
    ensures a !in tags ==> r == tags + [a]
  {
    if a in tags then
      var ne := (t: string) => t != a;
      Seqs.FilterIsSubsequence(ne, tags);
      Seqs.FilterCounts(ne, tags);
      var r := Seqs.Filter(ne, tags);
      assert multiset(r) == multiset(tags)[a := 0] by {
        forall t ensures multiset(r)[t] == multiset(tags)[a := 0][t] {
          assert ne(t) <==> t != a;
        }
      }
      r
    else tags + [a]
  }

  /** Toggling an absent amenity twice restores the list. */
  lemma ToggleAbsentTwice(tags: seq<string>, a: string)
    requires a !in tags
    ensures ToggleTag(ToggleTag(tags, a), a) == tags
  {
    var ne := (t: string) => t != a;
    Seqs.FilterAppend(ne, tags, [a]);
    Seqs.FilterKeepsAll(ne, tags);
    assert Seqs.Filter(ne, [a]) == [];
  }

  /** Toggling a present amenity twice drops all its occurrences and appends
      one at the end, so it restores the list only when the amenity occurs
      once, as the last tag. */
  lemma TogglePresentTwice(tags: seq<string>, a: string)
    requires a in tags
    ensures ToggleTag(ToggleTag(tags, a), a) == Seqs.Filter((t: string) => t != a, tags) + [a]
  {
  }

  /** Exactly when double toggling a present amenity restores the list. */
  lemma TogglePresentTwiceRestores(tags: seq<string>, a: string)
    requires a in tags
    ensures ToggleTag(ToggleTag(tags, a), a) == tags <==>
            multiset(tags)[a] == 1 && tags[|tags| - 1] == a
  {
    TogglePresentTwice(tags, a);
    var ne := (t: string) => t != a;
    var f := Seqs.Filter(ne, tags);
    if f + [a] == tags {
      Seqs.FilterCounts(ne, tags);
      assert multiset(tags) == multiset(f) + multiset{a};
    }
    if multiset(tags)[a] == 1 && tags[|tags| - 1] == a {
      LastOnlyOccurrence(tags, a);
    }
  }

  lemma SingleCopyIsLast(tags: seq<string>, a: string)
    requires tags != [] && multiset(tags)[a] == 1 && tags[|tags| - 1] == a
    ensures a !in tags[..|tags| - 1]
  {
    var front := tags[..|tags| - 1];
    assert tags == front + [a];
    assert multiset(tags) == multiset(front) + multiset{a};
  }

  lemma LastOnlyOccurrence(tags: seq<string>, a: string)
    requires tags != [] && multiset(tags)[a] == 1 && tags[|tags| - 1] == a
    ensures Seqs.Filter((t: string) => t != a, tags) + [a] == tags
  {
    var ne := (t: string) => t != a;
    var front := tags[..|tags| - 1];
    assert tags == front + [a];
    SingleCopyIsLast(tags, a);
    Seqs.FilterDropsLast(ne, front, a);
  }

  /** The listing the add branch builds: the form's fields, the given id, and
      the placeholder image when the form has no images. */
  function NewListing(form: ListingPatch, newId: string): (r: Listing)
    requires FormComplete(form)
    ensures r.id == newId
    ensures r.images == if form.images.GetOr([]) == [] then ["/placeholder.svg"] else form.images.value
    ensures Agrees(r, form.(id := None, images := None))
  {
    Listing(newId, form.name.value,
      if form.images.Some? && |form.images.value| != 0 then form.images.value else ["/placeholder.svg"],
      form.monthlyRent.value, form.genderPreference.value, form.location.value,
      form.area.value, form.phoneNumber.value, form.googleMapsLink.value, form.rating.value,
      form.amenities.value, form.roomType.value, form.description.value, form.verified.value,
      form.availability.value)
  }

  /** Appending a listing whose id is new keeps ids distinct. */
  lemma AppendKeepsUniqueIds(s: seq<Listing>, pg: Listing)
    requires UniqueIds(s) && pg.id !in Ids(s)
    ensures UniqueIds(s + [pg])
  {
    var r := s + [pg];
    forall i, j | 0 <= i < j < |r| ensures r[i].id != r[j].id {
      if j == |s| {
        assert Ids(s)[i] == s[i].id;
      }
    }
  }

  datatype AdminStats = AdminStats(total: nat, available: nat, limited: nat, verified: nat)

  /** The admin console's state. */
  class AdminStore {
    var listings: seq<Listing>
    var showAddForm: bool
    var editing: Option<Listing>
    var formData: ListingPatch

    /** The form always holds every field, and while editing it carries the
        edited listing's id. */
    ghost predicate Valid()
      reads this
    {
      && FormComplete(formData)
      && (editing.Some? ==> formData.id == Some(editing.value.id))
    }

    constructor (initial: seq<Listing>)
      ensures Valid()
      ensures listings == initial && !showAddForm && editing == None && formData == DefaultForm()
    {
      listings := initial;
      showAddForm := false;
      editing := None;
      formData := DefaultForm();
    }

    /** The "Add New PG" button. */
    method OpenAddForm()
      requires Valid()
      modifies this`showAddForm
      ensures Valid() && showAddForm
    {
      showAddForm := true;
    }

    /** A form field's change handler: the form takes the fields `p` sets.
        No input of the form edits the id. */
    method ChangeForm(p: ListingPatch)
      requires Valid() && p.id == None
      modifies this`formData
      ensures Valid() && formData == Overlay(old(formData), p)
    {
      formData := Overlay(formData, p);
    }

    /** The edit button: the listing becomes the edited one and fills the form. */
    method Edit(pg: Listing)
      requires Valid()
      modifies this`editing, this`formData, this`showAddForm
      ensures Valid()
      ensures editing == Some(pg) && formData == PatchOf(pg) && showAddForm
    {
      editing := Some(pg);
      formData := PatchOf(pg);
      showAddForm := true;
    }

    /**
     * Form submission. While editing, every entry with the edited id becomes
     * the edited listing merged with the form; the form stays open. Otherwise
     * a new listing with `newId` is appended and the form closes. Either way
     * the form is reset and nothing is being edited afterwards.
     */
    method Submit(newId: string)
      requires Valid()
      modifies this`listings, this`editing, this`formData, this`showAddForm
      ensures Valid()
      ensures old(editing).Some? ==>
        && listings == ReplaceMatching(old(listings), old(editing).value.id,
                                       Merge(old(editing).value, old(formData)))
        && showAddForm == old(showAddForm)
      ensures old(editing).None? ==>
        listings == old(listings) + [NewListing(old(formData), newId)] && !showAddForm
      ensures editing == None && formData == DefaultForm()
      ensures old(editing).Some? ==> Ids(listings) == Ids(old(listings))
      ensures UniqueIds(old(listings)) && (old(editing).Some? || newId !in Ids(old(listings)))
              ==> UniqueIds(listings)
    {
      match editing {
        case Some(e) =>
          var merged := Merge(e, formData);
          ReplaceKeepsIds(listings, e.id, merged);
          listings := ReplaceMatching(listings, e.id, merged);
          editing := None;
        case None =>
          var pg := NewListing(formData, newId);
          if UniqueIds(listings) && newId !in Ids(listings) {
            AppendKeepsUniqueIds(listings, pg);
          }
          listings := listings + [pg];
          showAddForm := false;
      }
      formData := DefaultForm();
    }

    /** The delete button; `confirmed` is the user's answer to the dialog. */
    method Delete(id: string, confirmed: bool)
      requires Valid()
      modifies this`listings
      ensures Valid()
      ensures listings == if confirmed then RemoveById(old(listings), id) else old(listings)
      ensures UniqueIds(old(listings)) ==> UniqueIds(listings)
    {
      if confirmed {
        if UniqueIds(listings) {
          FilterKeepsUniqueIds(HasOtherId(id), listings);
        }
        listings := RemoveById(listings, id);
      }
    }

    /** The cancel button closes and resets the form. */
    method Cancel()
      requires Valid()
      modifies this`showAddForm, this`editing, this`formData
      ensures Valid()
      ensures !showAddForm && editing == None && formData == DefaultForm()
    {
      showAddForm := false;
      editing := None;
      formData := DefaultForm();
    }

    /** An amenity checkbox; a form without amenities counts as having none. */
    method ToggleAmenity(a: string)
      requires Valid()
      modifies this`formData
      ensures Valid()
      ensures formData == old(formData).(amenities := Some(ToggleTag(old(formData).amenities.GetOr([]), a)))
    {
      formData := formData.(amenities := Some(ToggleTag(formData.amenities.GetOr([]), a)));
    }

    /** The four counters above the table. */
    function Stats(): (st: AdminStats)
      reads this
      ensures st.total == |listings|
      ensures st.available + st.limited <= st.total && st.verified <= st.total
    {
      Dashboard.StatusCountsWithinTotal(listings);
      AdminStats(|listings|, Dashboard.AvailableCount(listings),
                 Dashboard.LimitedCount(listings), Dashboard.VerifiedCount(listings))
    }
  }
}
