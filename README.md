# PG Finder: listing search, admin store and owner portal in Dafny

This project models the logic of a small paying-guest (PG) accommodation finder. The application is a React single-page app. The model covers five parts of it:

- **Listing and filter records** (`PGTypes`). The listing record and the search-filter record. Each string union of the declarations becomes a closed datatype, paired with its string spelling and a parser.
- **Public search page** (`Dashboard`). The listing filter, the initial and reset filters, and the headline counts.
- **Admin console** (`AdminDashboard`). The list transformations are pure functions: update by field merge, append with a placeholder image, delete by id, and amenity toggling. The component's handlers are methods of the class `AdminStore`, whose fields are the component's state.
- **Seeded data** (`DemoData`). The owner directory, the interaction log and the per-owner listing table, plus the two queries over them: an owner's listings and a listing's interactions.
- **Owner portal** (`OwnerDashboard`). Looking an owner up from the stored session, logging out, opening the interaction viewer, and the portal's counters. These are methods of the class `OwnerDashboardView`.

Two support modules are not tied to a source file. `Wrappers` defines `Option`. `Seqs` defines the array operations the pages use (`filter`, `find`), each once, with their laws.

Two behaviours of the code that are easy to miss:

- Update and delete of an unknown id are silent no-ops. The list is returned unchanged, and there is no not-found error (`ReplaceAbsentIdIsNoOp`, `RemoveIsIdempotent`).
- An owner's listings come from a fixed per-owner table, not from the owner's own list of listing ids. The code only checks that the owner exists before reading the table. For every seeded owner the model proves that the table lists exactly the owner's ids, in order (`OwnerPGsMatchDirectory`).

## Model

| member | source | states |
|---|---|---|
| PGTypes.ParseGender | homeland-scout/src/types/pg.ts:6 | a string denotes a listing gender exactly when it is one of the three spellings, and the parsed value has that spelling |
| PGTypes.ParseRoomType | homeland-scout/src/types/pg.ts:13 | a string denotes a room type exactly when it is one of the three spellings |
| PGTypes.ParseAvailability | homeland-scout/src/types/pg.ts:16 | a string denotes an availability exactly when it is one of the three spellings |
| PGTypes.ParseGenderFilter | homeland-scout/src/types/pg.ts:21 | a string denotes a filter gender exactly when it is "Any" or a listing gender |
| PGTypes.LabelsRoundTrip | homeland-scout/src/types/pg.ts:6-21 | parsing the spelling of any union value gives that value back, so every value has its own spelling |
| PGTypes.AnyHasNoListingCounterpart | homeland-scout/src/types/pg.ts:6-21 | "Any" is not the spelling of any listing gender; every other filter value spells exactly one listing gender |
| Dashboard.Matches | homeland-scout/src/pages/Dashboard.tsx:17-34 | the early-return chain accepts a listing if and only if the gender passes ("Any" or equal), min <= rent <= max, and the location passes (empty or equal) |
| Dashboard.FilterListings | homeland-scout/src/pages/Dashboard.tsx:16-35 | a listing is in the result if and only if it is in the input and meets all three conditions; the result is a subsequence of the input, in input order |
| Dashboard.FilterListingsByParts | homeland-scout/src/pages/Dashboard.tsx:17-34 | filtering distributes over concatenation, and a single listing contributes itself exactly when it matches |
| Dashboard.FilterListingsIdempotent | homeland-scout/src/pages/Dashboard.tsx:17-34 | filtering the result again with the same filters changes nothing |
| Dashboard.StudentNameIgnored | homeland-scout/src/pages/Dashboard.tsx:17-34 | two filters that differ only in the student name give identical results |
| Dashboard.InvertedRangeMatchesNothing | homeland-scout/src/pages/Dashboard.tsx:24 | a price range with min > max matches nothing |
| Dashboard.EmptyLocationIsNoConstraint | homeland-scout/src/pages/Dashboard.tsx:29 | with an empty location, the result is the filter by gender and price alone |
| Dashboard.ResetFilters | homeland-scout/src/pages/Dashboard.tsx:132-137 | the reset button restores exactly the initial filters of lines 9-14 |
| Dashboard.InitialFilters | homeland-scout/src/pages/Dashboard.tsx:9-14 | the initial filters put no gender or location constraint, so a listing matches exactly when its rent lies in 5000..20000 inclusive |
| Dashboard.InitialFiltersSelectRentBand | homeland-scout/src/pages/Dashboard.tsx:9-14 | the initial filters show exactly the listings whose rent lies in 5000..20000 inclusive |
| Dashboard.AvailableCount | homeland-scout/src/pages/Dashboard.tsx:45 | the available count is at most the total, and zero exactly when no listing is available |
| Dashboard.VerifiedCount | homeland-scout/src/pages/Dashboard.tsx:47 | the verified count is at most the total, and zero exactly when no listing is verified |
| Dashboard.LimitedCount | homeland-scout/src/pages/AdminDashboard.tsx:190-192 | the limited count is at most the total, and zero exactly when no listing is limited |
| Dashboard.StatusCountsWithinTotal | homeland-scout/src/pages/AdminDashboard.tsx:180-192 | the available and limited counts together never exceed the total |
| AdminDashboard.Merge | homeland-scout/src/pages/AdminDashboard.tsx:62 | in the merged listing, every field the form sets has the form's value and every other field keeps the edited listing's value |
| AdminDashboard.MergeIsDetermined | homeland-scout/src/pages/AdminDashboard.tsx:62 | those two agreements determine the merged listing uniquely |
| AdminDashboard.MergeLaws | homeland-scout/src/pages/AdminDashboard.tsx:62 | an empty form changes nothing; a form filled from a listing yields that listing; merging twice equals merging once with the overlaid forms |
| AdminDashboard.DefaultForm | homeland-scout/src/pages/AdminDashboard.tsx:25-40 | the blank form holds every field but the id, with no amenities and no images |
| AdminDashboard.Overlay | homeland-scout/src/pages/AdminDashboard.tsx:231-404 | a change handler's overlay keeps a complete form complete, and a patch without an id keeps the form's id |
| AdminDashboard.OverlayIdentity | homeland-scout/src/pages/AdminDashboard.tsx:231-404 | overlaying an empty patch, on either side, changes nothing |
| AdminDashboard.ReplaceMatching | homeland-scout/src/pages/AdminDashboard.tsx:60-64 | the update keeps the length; each entry with the edited id becomes the merged listing, and every other entry is unchanged and stays in place |
| AdminDashboard.ReplaceAbsentIdIsNoOp | homeland-scout/src/pages/AdminDashboard.tsx:60-64 | updating an id that is not in the list leaves the list unchanged, with no error |
| AdminDashboard.ReplaceKeepsIds | homeland-scout/src/pages/AdminDashboard.tsx:60-64 | an update whose new value keeps the edited id keeps every id in place |
| AdminDashboard.RemoveById | homeland-scout/src/pages/AdminDashboard.tsx:104 | delete drops exactly the entries with the id and keeps the others in order |
| AdminDashboard.RemoveIsIdempotent | homeland-scout/src/pages/AdminDashboard.tsx:104 | deleting an absent id, or the same id a second time, has no effect |
| AdminDashboard.RemoveCount | homeland-scout/src/pages/AdminDashboard.tsx:104 | delete removes as many entries as carried the id |
| AdminDashboard.FilterKeepsUniqueIds | homeland-scout/src/pages/AdminDashboard.tsx:104 | filtering a list whose ids are distinct leaves ids distinct |
| AdminDashboard.ToggleTag | homeland-scout/src/pages/AdminDashboard.tsx:131-144 | toggling flips the amenity's membership and leaves every other amenity's membership alone. A present amenity is removed with all its copies; the other tags keep their order and their number of copies. An absent amenity is appended at the end |
| AdminDashboard.ToggleAbsentTwice | homeland-scout/src/pages/AdminDashboard.tsx:131-144 | toggling an absent amenity twice restores the original list |
| AdminDashboard.TogglePresentTwice | homeland-scout/src/pages/AdminDashboard.tsx:133-141 | toggling a present amenity twice drops all its occurrences and appends one at the end |
| AdminDashboard.TogglePresentTwiceRestores | homeland-scout/src/pages/AdminDashboard.tsx:133-141 | toggling a present amenity twice restores the list exactly when the amenity occurs once, as the last tag |
| AdminDashboard.NewListing | homeland-scout/src/pages/AdminDashboard.tsx:68-72 | the new listing has the supplied id and the form's other fields; its images are the form's, or the placeholder image when the form has none or an empty list |
| AdminDashboard.AppendKeepsUniqueIds | homeland-scout/src/pages/AdminDashboard.tsx:73 | appending a listing with a fresh id keeps ids distinct |
| AdminDashboard.AdminStore.constructor | homeland-scout/src/pages/AdminDashboard.tsx:22-40 | the console starts with the given listings, the form closed, nothing edited and the default form |
| AdminDashboard.AdminStore.OpenAddForm | homeland-scout/src/pages/AdminDashboard.tsx:158 | the add button opens the form and changes nothing else |
| AdminDashboard.AdminStore.ChangeForm | homeland-scout/src/pages/AdminDashboard.tsx:231-404 | a field's change handler overlays the new field values on the form |
| AdminDashboard.AdminStore.Edit | homeland-scout/src/pages/AdminDashboard.tsx:96-100 | the edit button records the listing as edited, fills the form from it and opens the form |
| AdminDashboard.AdminStore.Submit | homeland-scout/src/pages/AdminDashboard.tsx:55-94 | editing: the list becomes the update by merge, ids are unchanged and the form stays as it was. Adding: exactly one new listing is appended and the form closes. Either way the form is reset, nothing is edited afterwards, and distinct ids stay distinct when the new id is fresh |
| AdminDashboard.AdminStore.Delete | homeland-scout/src/pages/AdminDashboard.tsx:102-106 | when confirmed, the list becomes the delete filter, otherwise it is unchanged; distinct ids stay distinct |
| AdminDashboard.AdminStore.Cancel | homeland-scout/src/pages/AdminDashboard.tsx:108-127 | cancel closes the form, clears the edited listing and resets the form |
| AdminDashboard.AdminStore.ToggleAmenity | homeland-scout/src/pages/AdminDashboard.tsx:131-144 | the form's amenities become the toggled list, with missing amenities read as none; no other form field changes |
| AdminDashboard.AdminStore.Stats | homeland-scout/src/pages/AdminDashboard.tsx:180-197 | the total is the number of listings; available plus limited, and verified, stay within the total |
| DemoData.PGOwners | src/data/demoData.ts:22-47 | the seeded owner directory has three owners |
| DemoData.UserInteractions | src/data/demoData.ts:49-101 | the seeded interaction log; its facts are stated by the Seeded lemmas below |
| DemoData.MockPGs | src/data/demoData.ts:109-201 | the per-owner table has entries for exactly the owners "owner1", "owner2" and "owner3" |
| DemoData.GetOwnerPGs | src/data/demoData.ts:103-204 | no listings when no owner has the id, and none when the table has no entry for it |
| DemoData.OwnerPGsHaveDistinctIds | src/data/demoData.ts:109-201 | for any owner id, the listings returned carry distinct ids |
| DemoData.OwnerPGsMatchDirectory | src/data/demoData.ts:22-203 | for every seeded owner, the ids of the owner's listings equal the owner's listing ids, in order |
| DemoData.InteractionsFor | src/data/demoData.ts:207 | an interaction is in the result if and only if it is in the log with the listing id; the result keeps log order |
| DemoData.InteractionsForCounts | src/data/demoData.ts:207 | the result holds every copy of each logged interaction about the listing, and nothing else |
| DemoData.InteractionsForByParts | src/data/demoData.ts:207 | the query distributes over concatenation of logs, and a single interaction contributes itself exactly when it is about the listing |
| DemoData.GetPGInteractions | src/data/demoData.ts:206-208 | exactly the seeded interactions about the listing; empty, not an error, when there are none |
| DemoData.GetPGInteractionsInLogOrder | src/data/demoData.ts:206-208 | the result is a subsequence of the seeded log and holds every copy of each seeded interaction about the listing |
| DemoData.InteractionsForBlock | src/data/demoData.ts:207 | when a listing's interactions form one contiguous block of the log, the query returns exactly that block |
| DemoData.SeededInteractionsOfFirstListing | src/data/demoData.ts:49-66 | on the seeded log, listing "1" has the interactions "1" then "2" |
| DemoData.SeededInteractionsOfSecondListing | src/data/demoData.ts:67-75 | on the seeded log, listing "2" has the one interaction "3" |
| DemoData.SeededFirstOwnerInquiryTotal | src/data/demoData.ts:49-101 | the per-listing counts of listings "1" and "2" add up to 3 |
| DemoData.InquiryTotal | src/pages/PGOwnerDashboard.tsx:100 | the summed per-listing counts are zero exactly when no logged interaction is about any of the listing ids |
| DemoData.InquiryTotalCountsLog | src/pages/PGOwnerDashboard.tsx:100 | over distinct listing ids, the summed per-listing interaction counts count each interaction about one of those listings exactly once |
| DemoData.SeededLogIsCovered | src/data/demoData.ts:49-101 | the ids "1" to "5" are distinct and every seeded interaction is about one of them |
| DemoData.SeededInquiriesCoverLog | src/data/demoData.ts:49-101 | the counts over listings "1" to "5" add up to the whole log of 6 interactions |
| DemoData.SeededSearchScenario | homeland-scout/src/pages/Dashboard.tsx:9-34 | on the first owner's two listings, the initial filters show both in order and the location "Koramangala" shows only the first |
| OwnerDashboard.FindOwnerByUsername | src/pages/PGOwnerDashboard.tsx:24 | the result is a seeded owner with that username; there is none exactly when no owner has it |
| OwnerDashboard.TotalInquiries | src/pages/PGOwnerDashboard.tsx:100 | over listings with distinct ids, the total is the number of logged interactions about those listings, hence at most the log length |
| OwnerDashboard.ShownListingsHaveDistinctIds | src/pages/PGOwnerDashboard.tsx:26-28 | the listings shown for the current owner, or for no owner, never repeat an id |
| OwnerDashboard.SeededUsernameLookup | src/pages/PGOwnerDashboard.tsx:24 | the username "owner1" finds the first seeded owner |
| OwnerDashboard.SeededFirstOwnerInquiries | src/pages/PGOwnerDashboard.tsx:100 | the first owner's portal shows 3 inquiries |
| OwnerDashboard.SeededFirstOwnerAvailable | src/pages/PGOwnerDashboard.tsx:111 | the first owner's portal shows 1 available listing |
| OwnerDashboard.Session.constructor | src/pages/PGOwnerDashboard.tsx:16-17 | a session holds the login flag and the stored username |
| OwnerDashboard.OwnerDashboardView.constructor | src/pages/PGOwnerDashboard.tsx:8-12 | the portal starts with no owner, no listings, nothing selected, no interactions and the viewer closed |
| OwnerDashboard.OwnerDashboardView.Load | src/pages/PGOwnerDashboard.tsx:15-30 | redirects exactly when the flag or the username is missing or empty, and then sets nothing; otherwise a found owner becomes current with that owner's listings, and an unknown username changes nothing. The shown listings are always the current owner's |
| OwnerDashboard.OwnerDashboardView.ShowOwner | src/pages/PGOwnerDashboard.tsx:26-28 | the owner becomes current and the listings shown are that owner's |
| OwnerDashboard.OwnerDashboardView.Logout | src/pages/PGOwnerDashboard.tsx:32-36 | logging out clears both the login flag and the stored username |
| OwnerDashboard.OwnerDashboardView.ViewInteractions | src/pages/PGOwnerDashboard.tsx:38-43 | the listing becomes selected, the shown interactions are its interactions, and the viewer opens |
| OwnerDashboard.OwnerDashboardView.FetchInteractions | src/pages/PGOwnerDashboard.tsx:39-40 | the shown interactions become the listing's interactions |
| OwnerDashboard.OwnerDashboardView.CloseViewers | src/pages/PGOwnerDashboard.tsx:186 | the close button closes the viewer |
| OwnerDashboard.OwnerDashboardView.Stats | src/pages/PGOwnerDashboard.tsx:90-111 | the total is the number of listings; the available count stays within it; the inquiries stay within the log length whenever the listings shown are the current owner's |

## Left out

- Rendering: JSX, CSS classes and icons on all pages, the listing card and the search section. The search section's field-wise filter updates are plain record updates.
- The login pages and their hard-coded credentials. This is mock authentication.
- The admin console's authentication effect (lines 42-48) and logout (lines 50-53). They only read or clear a browser storage flag and navigate.
- Navigation, `console.log`, and the `alert` placeholders for the owner portal's edit and delete buttons. The admin `confirm` dialog is the boolean `confirmed` parameter of `Delete`.
- Browser storage is the `Session` class, holding a boolean flag and an optional username. A stored flag string is truthy whenever it is present and non-empty, whatever its text; the model keeps only the resulting boolean.
- Floating point: the average rating (Dashboard.tsx:46) is not modelled. The rating is kept as a `real` and never computed with. The `parseInt`/`parseFloat` of form input (AdminDashboard.tsx:246, 342), including NaN, is not modelled: a change handler receives the already-parsed value. The random review count of the listing card is not modelled either.
- The new listing's id comes from the clock (AdminDashboard.tsx:70). Here it is the `newId` parameter of `Submit`, and nothing guarantees it is fresh.
- AdminDashboard.Merge: a form field that is present but holds `undefined` would overwrite the base value in a JavaScript spread. The model has no such state: a field is either absent or holds a value.
- AdminDashboard.NewListing: the `as PGListing` cast is unchecked in the source. The model requires the form to hold every field but the id and the images. `AdminStore.Valid` shows the console always keeps the form that way.
- The edit branch of `Submit` does not close the form: `showAddForm` keeps its value. This is modelled as written.
- The application's own listing data module is not part of this model. The search page and the admin console are modelled over an arbitrary sequence of listings.
- There are no validation or not-found errors on add, update or delete, because the code has none.
