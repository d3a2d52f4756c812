/**
 * The owner portal: on load it reads the stored session, looks the owner up
 * by username and fetches that owner's listings; it shows totals over them
 * and, per listing, the interactions received.
 */
module OwnerDashboard {
  import opened Wrappers
  import opened PGTypes
  import Seqs
  import Dashboard
  import opened DemoData

  function HasUsername(name: string): Owner -> bool {
    (o: Owner) => o.username == name
  }

  /** The first seeded owner with the username, if any. */
  function FindOwnerByUsername(name: string): (r: Option<Owner>)
    ensures r.Some? ==> r.value in PGOwners() && r.value.username == name
    ensures r.None? <==> forall o :: o in PGOwners() ==> o.username != name
  {
    var r := Seqs.Find(HasUsername(name), PGOwners());
    assert r.None? <==> forall o :: o in PGOwners() ==> !HasUsername(name)(o);
    r
  }

  /** The "Total Inquiries" figure: per listing, the number of interactions
      about its id, summed. Over listings with distinct ids it counts each
      interaction about one of them once. */
  function TotalInquiries(pgs: seq<Listing>): (n: nat)
    ensures Distinct(Ids(pgs)) ==>
      n == |Seqs.Filter(PgIdIn(Ids(pgs)), UserInteractions())| && n <= |UserInteractions()|
  {
    if Distinct(Ids(pgs)) then
      InquiryTotalCountsLog(UserInteractions(), Ids(pgs));
      InquiryTotal(UserInteractions(), Ids(pgs))
    else
      InquiryTotal(UserInteractions(), Ids(pgs))
  }

  lemma SeededUsernameLookup()
    ensures FindOwnerByUsername("owner1") == Some(PGOwners()[0])
  {
    assert HasUsername("owner1")(PGOwners()[0]);
  }

  /** The first seeded owner's listings draw three inquiries. */
  lemma SeededFirstOwnerInquiries()
    ensures TotalInquiries(GetOwnerPGs("owner1")) == 3
  {
    OwnerPGsMatchDirectory(PGOwners()[0]);
    SeededFirstOwnerInquiryTotal();
  }

  lemma SeededFirstOwnerAvailable()
    ensures Dashboard.AvailableCount(GetOwnerPGs("owner1")) == 1
  {
    var pgs := GetOwnerPGs("owner1");
    assert HasOwnerId("owner1")(PGOwners()[0]);
    assert pgs == [pgs[0]] + [pgs[1]];
    Seqs.FilterAppend(Dashboard.IsAvailable, [pgs[0]], [pgs[1]]);
  }

  /** The browser's stored session entries, abstracted from their string form. */
  class Session {
    var isPGOwnerLoggedIn: bool
    var currentPGOwner: Option<string>

    constructor (loggedIn: bool, username: Option<string>)
      ensures isPGOwnerLoggedIn == loggedIn && currentPGOwner == username
    {
      isPGOwnerLoggedIn := loggedIn;
      currentPGOwner := username;
    }
  }

  /** The listings shown are the current owner's, and none without an owner. */
  ghost predicate ShowsOwnerListings(owner: Option<Owner>, pgs: seq<Listing>) {
    match owner
    case None => pgs == []
    case Some(o) => pgs == GetOwnerPGs(o.id)
  }

  /** The listings an owner is shown never repeat an id. */
  lemma ShownListingsHaveDistinctIds(owner: Option<Owner>, pgs: seq<Listing>)
    ensures ShowsOwnerListings(owner, pgs) ==> Distinct(Ids(pgs))
  {
    if owner.Some? {
      OwnerPGsHaveDistinctIds(owner.value.id);
    }
  }

  datatype OwnerStats = OwnerStats(total: nat, inquiries: nat, available: nat)

  /** The owner portal's state. */
  class OwnerDashboardView {
    var currentOwner: Option<Owner>
    var ownerPGs: seq<Listing>
    var selectedPG: Option<string>
    var pgInteractions: seq<Interaction>
    var showViewers: bool

    ghost predicate Valid()
      reads this`currentOwner, this`ownerPGs
    {
      ShowsOwnerListings(currentOwner, ownerPGs)
    }

    constructor ()
      ensures Valid()
      ensures currentOwner == None && ownerPGs == [] && selectedPG == None
      ensures pgInteractions == [] && !showViewers
    {
      currentOwner := None;
      ownerPGs := [];
      selectedPG := None;
      pgInteractions := [];
      showViewers := false;
    }

    /**
     * The page's load effect. A missing login flag, or a missing or empty
     * stored username, means redirecting to the login page with nothing set.
     * Otherwise the owner with that username, when there is one, becomes the
     * current owner and the table's listings for the owner's id are shown.
     */
    method Load(session: Session) returns (redirect: bool)
      requires Valid()
      modifies this`currentOwner, this`ownerPGs
      ensures Valid()
      ensures redirect <==> !session.isPGOwnerLoggedIn || session.currentPGOwner.GetOr("") == ""
      ensures redirect ==> currentOwner == old(currentOwner) && ownerPGs == old(ownerPGs)
      ensures !redirect ==>
        var found := FindOwnerByUsername(session.currentPGOwner.value);
        if found.Some? then currentOwner == found && ownerPGs == GetOwnerPGs(found.value.id)
        else currentOwner == old(currentOwner) && ownerPGs == old(ownerPGs)
    {
      var username := session.currentPGOwner.GetOr("");
      if !session.isPGOwnerLoggedIn || username == "" {
        return true;
      }
      redirect := false;
      var owner := FindOwnerByUsername(username);
      if owner.Some? {
        ShowOwner(owner.value);
      }
    }

    /** Makes `o` the current owner and shows the owner's listings. */
    method ShowOwner(o: Owner)
      modifies this`currentOwner, this`ownerPGs
      ensures Valid()
      ensures currentOwner == Some(o) && ownerPGs == GetOwnerPGs(o.id)
    {
      currentOwner := Some(o);
      ownerPGs := GetOwnerPGs(o.id);
    }

    /** Logging out removes both session entries. */
    method Logout(session: Session)
      modifies session
      ensures !session.isPGOwnerLoggedIn && session.currentPGOwner == None
    {
      session.isPGOwnerLoggedIn := false;
      session.currentPGOwner := None;
    }

    /** Opens the viewer on one listing's interactions. It leaves the owner
        and the listings, and so Valid(), alone. */
    method ViewInteractions(pgId: string)
      modifies this`pgInteractions, this`selectedPG, this`showViewers
      ensures pgInteractions == GetPGInteractions(pgId) && selectedPG == Some(pgId) && showViewers
    {
      selectedPG := Some(pgId);
      showViewers := true;
      FetchInteractions(pgId);
    }

    /** Stores the listing's interactions from the seeded log. */
    method FetchInteractions(pgId: string)
      modifies this`pgInteractions
      ensures pgInteractions == GetPGInteractions(pgId)
    {
      pgInteractions := GetPGInteractions(pgId);
    }

    /** The viewer's close button. */
    method CloseViewers()
      modifies this`showViewers
      ensures !showViewers
    {
      showViewers := false;
    }

    /** The three counters: listings, inquiries over them, available ones. */
    function Stats(): (st: OwnerStats)
      reads this
      ensures st.total == |ownerPGs| && st.available <= st.total
      ensures Distinct(Ids(ownerPGs)) ==> st.inquiries <= |UserInteractions()|
      ensures Valid() ==> st.inquiries <= |UserInteractions()|
    {
      ShownListingsHaveDistinctIds(currentOwner, ownerPGs);
      OwnerStats(|ownerPGs|, TotalInquiries(ownerPGs), Dashboard.AvailableCount(ownerPGs))
    }
  }
}
