/**
 * The seeded owner directory and interaction log, and the two queries over
 * them: an owner's listings (a per-owner table behind an owner lookup) and
 * a listing's interactions (an exact-match filter over the log).
 */
module DemoData {
  import opened Wrappers
  import opened PGTypes
  import Seqs
  import Dashboard

  datatype Owner = Owner(
    id: string,
    username: string,
    name: string,
    phone: string,
    email: string,
    pgListings: seq<string>)

  datatype Interaction = Interaction(
    id: string,
    userName: string,
    userPhone: string,
    userEmail: string,
    pgId: string,
    likedAt: string,
    message: Option<string>)

  /** The seeded owner directory of three owners. */
  function PGOwners(): (r: seq<Owner>)
    ensures |r| == 3
  {
    [ Owner("owner1", "owner1", "Rajesh Kumar", "+91 9876543210", "rajesh@pgowner.com", ["1", "2"]),
      Owner("owner2", "owner2", "Priya Sharma", "+91 9876543211", "priya@pgowner.com", ["3", "4"]),
      Owner("owner3", "owner3", "Amit Singh", "+91 9876543212", "amit@pgowner.com", ["5"]) ]
  }

  /** The seeded interaction log. */
  function UserInteractions(): seq<Interaction> {
    [ Interaction("1", "Ankit Verma", "+91 8765432109", "ankit@gmail.com", "1",
                  "2024-01-15T10:30:00Z", Some("Interested in single room")),
      Interaction("2", "Sneha Patel", "+91 8765432108", "sneha@gmail.com", "1",
                  "2024-01-16T14:20:00Z", None),
      Interaction("3", "Rohit Gupta", "+91 8765432107", "rohit@gmail.com", "2",
                  "2024-01-17T09:15:00Z", Some("Want to visit this weekend")),
      Interaction("4", "Kavya Reddy", "+91 8765432106", "kavya@gmail.com", "3",
                  "2024-01-18T16:45:00Z", None),
      Interaction("5", "Arjun Nair", "+91 8765432105", "arjun@gmail.com", "4",
                  "2024-01-19T11:30:00Z", Some("Looking for long-term stay")),
      Interaction("6", "Divya Joshi", "+91 8765432104", "divya@gmail.com", "5",
                  "2024-01-20T13:20:00Z", None) ]
  }

  /** The hard-coded listings returned per owner id, one entry per seeded owner. */
  function MockPGs(): (r: map<string, seq<Listing>>)
    ensures r.Keys == {"owner1", "owner2", "owner3"}
  {
    map[
      "owner1" := [
        Listing("1", "Green Valley PG", ["/src/assets/pg-room-1.jpg"], 8000, Male,
                "Koramangala", "Bangalore", "+91 9876543210", "https://maps.google.com", 4.5,
                ["WiFi", "AC", "Laundry", "Meals"], Single,
                "Comfortable PG with all amenities", true, Available),
        Listing("2", "Sunrise Residency", ["/src/assets/pg-room-2.jpg"], 7000, Male,
                "BTM Layout", "Bangalore", "+91 9876543210", "https://maps.google.com", 4.2,
                ["WiFi", "Laundry", "Meals"], Double,
                "Budget-friendly PG near metro", true, Limited)],
      "owner2" := [
        Listing("3", "Rose Garden PG", ["/src/assets/pg-female-room.jpg"], 9000, Female,
                "Indiranagar", "Bangalore", "+91 9876543211", "https://maps.google.com", 4.7,
                ["WiFi", "AC", "Laundry", "Meals", "Security"], Single,
                "Premium PG for working women", true, Available),
        Listing("4", "Comfort Zone", ["/src/assets/pg-common-area.jpg"], 6500, Female,
                "HSR Layout", "Bangalore", "+91 9876543211", "https://maps.google.com", 4.0,
                ["WiFi", "Laundry", "Meals"], Triple,
                "Affordable option for students", true, Available)],
      "owner3" := [
        Listing("5", "Elite Stays", ["/src/assets/pg-room-1.jpg"], 12000, Coed,
                "Whitefield", "Bangalore", "+91 9876543212", "https://maps.google.com", 4.8,
                ["WiFi", "AC", "Laundry", "Meals", "Gym", "Pool"], Single,
                "Luxury PG with premium amenities", true, Limited)]
    ]
  }

  function HasOwnerId(ownerId: string): Owner -> bool {
    (o: Owner) => o.id == ownerId
  }

  /**
   * An owner's listings: nothing when no owner has the id, otherwise the
   * table's entry for the id, or nothing when the table has none. The
   * owner's own list of listing ids is not consulted.
   */
  function GetOwnerPGs(ownerId: string): (r: seq<Listing>)
    ensures (forall o :: o in PGOwners() ==> o.id != ownerId) ==> r == []
    ensures ownerId !in MockPGs() ==> r == []
  {
    match Seqs.Find(HasOwnerId(ownerId), PGOwners())
    case None => []
    case Some(_) => if ownerId in MockPGs() then MockPGs()[ownerId] else []
  }

  /** The table's entries, by their listing ids. */
  lemma TableIds()
    ensures Ids(MockPGs()["owner1"]) == ["1", "2"]
    ensures Ids(MockPGs()["owner2"]) == ["3", "4"]
    ensures Ids(MockPGs()["owner3"]) == ["5"]
  {
  }

  /** Whatever the owner id, the listings returned carry distinct ids. */
  lemma OwnerPGsHaveDistinctIds(ownerId: string)
    ensures Distinct(Ids(GetOwnerPGs(ownerId)))
  {
    var r := GetOwnerPGs(ownerId);
    if r != [] {
      assert ownerId in MockPGs() && r == MockPGs()[ownerId];
      assert ownerId in {"owner1", "owner2", "owner3"};
      TableIds();
    }
  }

  /** For every seeded owner the table lists exactly the owner's listing ids,
      in the owner's order. */
  lemma OwnerPGsMatchDirectory(o: Owner)
    requires o in PGOwners()
    ensures Ids(GetOwnerPGs(o.id)) == o.pgListings
  {
    assert HasOwnerId(o.id)(o);
    assert o.id in MockPGs();
    assert GetOwnerPGs(o.id) == MockPGs()[o.id];
    TableIds();
  }

  function HasPgId(pgId: string): Interaction -> bool {
    (x: Interaction) => x.pgId == pgId
  }

  /** The interactions of `log` about listing `pgId`, in log order. */
  function InteractionsFor(log: seq<Interaction>, pgId: string): (r: seq<Interaction>)
    ensures forall x :: x in r <==> x in log && x.pgId == pgId
    ensures Seqs.IsSubsequence(r, log)
  {
    Seqs.FilterIsSubsequence(HasPgId(pgId), log);
    Seqs.Filter(HasPgId(pgId), log)
  }

  /** Every interaction about the listing is kept as often as the log holds
      it, and no other is kept. */
  lemma InteractionsForCounts(log: seq<Interaction>, pgId: string)
    ensures forall x :: multiset(InteractionsFor(log, pgId))[x] ==
                        if x.pgId == pgId then multiset(log)[x] else 0
  {
    Seqs.FilterCounts(HasPgId(pgId), log);
  }

  /** The result is determined interaction by interaction: each contributes
      itself when it is about the listing and nothing otherwise, in log order. */
  lemma InteractionsForByParts(a: seq<Interaction>, b: seq<Interaction>, x: Interaction, pgId: string)
    ensures InteractionsFor(a + b, pgId) == InteractionsFor(a, pgId) + InteractionsFor(b, pgId)
    ensures InteractionsFor([x], pgId) == if x.pgId == pgId then [x] else []
  {
    Seqs.FilterAppend(HasPgId(pgId), a, b);
    assert [x][1..] == [];
  }

  /** The seeded log's interactions about one listing; empty, not an error,
      when there are none. */
  function GetPGInteractions(pgId: string): (r: seq<Interaction>)
    ensures forall x :: x in r <==> x in UserInteractions() && x.pgId == pgId
    ensures (forall x :: x in UserInteractions() ==> x.pgId != pgId) ==> r == []
  {
    var r := InteractionsFor(UserInteractions(), pgId);
    assert r != [] ==> r[0] in r;
    r
  }

  /** A listing's seeded interactions come in log order, each as often as
      the log holds it. */
  lemma GetPGInteractionsInLogOrder(pgId: string)
    ensures Seqs.IsSubsequence(GetPGInteractions(pgId), UserInteractions())
    ensures forall x :: multiset(GetPGInteractions(pgId))[x] ==
                        if x.pgId == pgId then multiset(UserInteractions())[x] else 0
  {
    InteractionsForCounts(UserInteractions(), pgId);
  }

  /** When a listing's interactions form one contiguous block of the log,
      the query returns exactly that block. */
  lemma InteractionsForBlock(log: seq<Interaction>, pgId: string, i: nat, j: nat)
    requires i <= j <= |log|
    requires forall k :: 0 <= k < |log| ==> (log[k].pgId == pgId <==> i <= k < j)
    ensures InteractionsFor(log, pgId) == log[i..j]
  {
    Seqs.FilterBlock(HasPgId(pgId), log, i, j);
  }

  /** On the seeded log, listing "1" has the interactions "1" and "2", in that order. */
  lemma SeededInteractionsOfFirstListing()
    ensures GetPGInteractions("1") == UserInteractions()[..2]
  {
    InteractionsForBlock(UserInteractions(), "1", 0, 2);
  }

  /** On the seeded log, listing "2" has the one interaction "3". */
  lemma SeededInteractionsOfSecondListing()
    ensures GetPGInteractions("2") == UserInteractions()[2..3]
  {
    InteractionsForBlock(UserInteractions(), "2", 2, 3);
  }

  /** The first owner's listings "1" and "2" draw three inquiries in all. */
  lemma SeededFirstOwnerInquiryTotal()
    ensures InquiryTotal(UserInteractions(), ["1", "2"]) == 3
  {
    var ids: seq<string> := ["1", "2"];
    assert ids[1..] == ["2"] && ids[1..][1..] == [];
    SeededInteractionsOfFirstListing();
    SeededInteractionsOfSecondListing();
  }

  /** The total of the per-listing interaction counts over a list of listing ids. */
  function InquiryTotal(log: seq<Interaction>, ids: seq<string>): (n: nat)
    ensures n == 0 <==> forall x :: x in log ==> x.pgId !in ids
    decreases |ids|
  {
    if ids == [] then 0
    else
      var here := InteractionsFor(log, ids[0]);
      assert here != [] ==> here[0] in here;
      assert forall id :: id in ids <==> id == ids[0] || id in ids[1..];
      |here| + InquiryTotal(log, ids[1..])
  }

  predicate Distinct(ids: seq<string>) {
    forall i, j :: 0 <= i < j < |ids| ==> ids[i] != ids[j]
  }

  function PgIdIn(ids: seq<string>): Interaction -> bool {
    (x: Interaction) => x.pgId in ids
  }

  /** Over distinct listing ids, the summed per-listing counts count each
      interaction about one of those listings exactly once. */
  lemma {:induction false} InquiryTotalCountsLog(log: seq<Interaction>, ids: seq<string>)
    requires Distinct(ids)
    ensures InquiryTotal(log, ids) == |Seqs.Filter(PgIdIn(ids), log)|
    decreases |ids|
  {
    if ids == [] {
      Seqs.FilterDropsAll(PgIdIn(ids), log);
    } else {
      var rest := ids[1..];
      assert Distinct(rest) by {
        forall i, j | 0 <= i < j < |rest| ensures rest[i] != rest[j] {
          assert rest[i] == ids[i + 1] && rest[j] == ids[j + 1];
        }
      }
      InquiryTotalCountsLog(log, rest);
      assert ids[0] !in rest by {
        forall j | 0 <= j < |rest| ensures rest[j] != ids[0] {
          assert rest[j] == ids[j + 1];
        }
      }
      assert ids == [ids[0]] + rest;
      Seqs.FilterLengthUnion(HasPgId(ids[0]), PgIdIn(rest), PgIdIn(ids), log);
    }
  }

  /** The ids of the seeded listings, one per table entry. */
  function SeededListingIds(): seq<string> {
    ["1", "2", "3", "4", "5"]
  }

  lemma SeededLogIsCovered()
    ensures Distinct(SeededListingIds())
    ensures forall x :: x in UserInteractions() ==> PgIdIn(SeededListingIds())(x)
  {
    var ids := SeededListingIds();
    var log := UserInteractions();
    forall i, j | 0 <= i < j < 5 ensures ids[i] != ids[j] {
      assert ids[i][0] != ids[j][0];
    }
    forall x | x in log ensures PgIdIn(ids)(x) {
      var k :| 0 <= k < 6 && log[k] == x;
      assert log[k].pgId == ids[if k == 0 then 0 else k - 1];
    }
  }

  /** On the seeded data the counts over listings "1" to "5" add up to the
      whole log of six interactions. */
  lemma SeededInquiriesCoverLog()
    ensures InquiryTotal(UserInteractions(), SeededListingIds()) == |UserInteractions()| == 6
  {
    SeededLogIsCovered();
    InquiryTotalCountsLog(UserInteractions(), SeededListingIds());
    Seqs.FilterKeepsAll(PgIdIn(SeededListingIds()), UserInteractions());
  }

  /** The search scenario on the first owner's two listings: the initial
      filters show both in order, and the location "Koramangala" only the first. */
  lemma SeededSearchScenario()
    ensures Dashboard.FilterListings(GetOwnerPGs("owner1"), Dashboard.InitialFilters())
            == GetOwnerPGs("owner1")
    ensures Dashboard.FilterListings(GetOwnerPGs("owner1"),
              Dashboard.InitialFilters().(location := "Koramangala"))
            == GetOwnerPGs("owner1")[..1]
  {
    var pgs := GetOwnerPGs("owner1");
    assert HasOwnerId("owner1")(PGOwners()[0]);
    assert pgs == [pgs[0]] + [pgs[1]];
    var f := Dashboard.InitialFilters();
    Dashboard.FilterListingsByParts([pgs[0]], [pgs[1]], pgs[0], f);
    Dashboard.FilterListingsByParts([pgs[0]], [pgs[1]], pgs[1], f);
    var g := f.(location := "Koramangala");
    Dashboard.FilterListingsByParts([pgs[0]], [pgs[1]], pgs[0], g);
    Dashboard.FilterListingsByParts([pgs[0]], [pgs[1]], pgs[1], g);
  }
}
