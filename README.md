# Disaster-relief donation platform — a verified Dafny model

This project models the core of a small donation platform. The platform has
an Express/MariaDB back end and a React front end. The model covers:

- **The ledger and the campaign store** (`database.dfy`, `donations.dfy`,
  `campaigns.dfy`, `stats.dfy`). The three tables `Users`, `Campaigns` and
  `Donations` are the fields of one `Store` class. The routes are methods
  over it:
  - recording a donation, which inserts the ledger row and increments the
    campaign's `CurrentAmount` in one transaction that is rolled back on
    failure;
  - creating, updating and deleting campaigns;
  - listing donations newest first;
  - the top-donor ranking and the platform statistics;
  - the schema set-up with its `CurrentAmount` back-fill.

  The central invariant is `Store.Conserved()`: every campaign's
  `CurrentAmount` equals the sum of the amounts of the ledger rows that
  reference it. A migration whose two statements both succeed establishes
  it, and every route preserves it.
  `Store.Valid()` holds the primary keys, the uniqueness of user names and
  the foreign keys, and every route preserves it too.
- **Users and authorisation** (`users.dfy`, `middleware.dfy`). This covers
  register, login, session status and logout, plus the `login_required` and
  `admin_required` guards.
- **Client decision logic**. `donation_modal.dfy` covers the resource
  toggle, the total, the sanitising of the custom amount and the complete
  and close handlers. `auth_modal.dfy` covers form validity, the endpoint,
  trimming, the reply-to-message table and the close reset.

Money is kept in integer cents. `DECIMAL(15, 2)` becomes a range check
(`FitsDecimal`), and a value out of range is a storage error, as in strict
SQL mode. Nullable columns are `Option`, and `COALESCE(x, 0)` is `OrZero`.
Strings are sequences of Unicode characters; where JavaScript's `length`
matters, `Utf16Length` counts UTF-16 code units as JavaScript does.
Anything outside the program's control is a parameter of the method that
meets it:
- `storageFails` is any database or connection failure;
- `hashOf` stands for `bcrypt.hash` and `passwordMatches` for
  `bcrypt.compare`;
- `destroyFails` is the session store's error;
- `jsonFunctions` says whether the server accepts the JSON functions the
  statistics query uses;
- `migration` is the outcome of adding and back-filling `CurrentAmount`;
- `fkDrop` is the outcome of dropping the old foreign key.

The model follows the code in these places:
- Deleting a campaign is a hard `DELETE` that cascades to its donations
  (`backend/routes/campaigns.js:71`, `backend/database.js:45-46`). It is not
  a soft delete.
- The campaign list and the `activeCampaigns` figure include every
  campaign row.
- `Due` is stored and echoed as sent.
- `Goal` is not checked for being positive.
- The schema never creates the `isDeleted` column that the donation route
  filters on (`backend/routes/donations.js:78`). On the schema as written,
  that query fails, and recording a donation answers 500 and changes
  nothing. `Store.hasIsDeletedColumn` states which schema is in force. No
  route ever sets the flag.
- The update and delete routes answer 404 exactly when no row has the id.
  The MariaDB connector counts matched rows, so an update that changes
  nothing still succeeds.

## Model

| member | source | states |
|---|---|---|
| Common.OrZero | backend/routes/donations.js:93 | `COALESCE(x, 0)`: the value itself when present, 0 for NULL |
| Common.Truthy | backend/routes/donations.js:62-71 | JavaScript truthiness of a body field: false for a missing value, `null`, `false`, 0 and the empty string, true otherwise |
| Common.Utf16Length | src/components/authmodule.tsx:96 | JavaScript `length`: between the character count and twice it, and equal to the character count iff no character lies outside the Basic Multilingual Plane |
| Database.CampaignTotal | backend/database.js:100-104 | `COALESCE(SUM(d.Amount), 0)` over one campaign's rows; never negative when no amount is |
| Database.CampaignTotalAppend | backend/routes/donations.js:88-95 | appending one ledger row changes a campaign's sum by exactly that row's contribution (its amount if it references the campaign, else 0) |
| Database.CampaignTotalUnreferenced | backend/database.js:100-104 | a campaign that no row references sums to 0 |
| Database.FindUserById | backend/routes/donations.js:17 | the `LEFT JOIN` finds a user with the donor's id, and finds nothing iff no such user exists |
| Database.FindUserByName | backend/routes/users.js:39-44 | the lookup returns a user with exactly that name, and nothing iff no user has it |
| Database.Backfill | backend/database.js:98-105 | the same campaigns come out, only `CurrentAmount` changes, and afterwards every campaign's total equals the sum of its ledger rows (0 for none) |
| Database.ZeroTotals | backend/database.js:94 | adding the column with `DEFAULT 0.00` keeps the campaigns and gives each a total of 0 |
| Database.PartialMigrationBreaksTotals | backend/database.js:92-111 | if the column is added but the back-fill fails, any campaign whose donations sum to something other than 0 breaks the running-total invariant, and the next start sees the column and never back-fills |
| Database.WithoutCampaign | backend/database.js:45-46 | the cascade keeps exactly the rows that do not reference the deleted campaign |
| Database.WithoutCampaignAscending | backend/database.js:45-51 | rows left by the cascade stay in ascending `ID` order |
| Database.WithoutUnreferenced | backend/database.js:45-46 | deleting a campaign that no row references leaves the ledger unchanged |
| Database.CascadeKeepsOtherTotals | backend/database.js:45-46 | the cascade leaves every other campaign's ledger sum unchanged |
| Database.Store.constructor | backend/database.js:14-59 | fresh tables are empty and satisfy the keys, the foreign keys and the running-total invariant |
| Database.Store.Valid | backend/database.js:14-59 | the invariant of the tables: `ID` and `Username` unique, every id below its auto-increment counter, the ledger in ascending `ID` order, both foreign keys of every row, and no negative amount in the ledger |
| Database.Store.Conserved | backend/database.js:96-105 | the running-total invariant: the `CurrentAmount` column exists and every campaign's value equals the sum of its ledger rows |
| Database.Store.SetupDatabase | backend/database.js:61-128 | migrates `Supplies` iff its upper-cased type contains `TEXT`; when `CurrentAmount` was missing: a failed `ADD COLUMN` leaves it missing, a failed back-fill leaves the column with every total 0, and only when both statements run is every total re-summed, which establishes the invariant; a schema that had the column is left alone; installs the cascading key unless the drop fails for another reason; leaves rows and keys alone |
| Middleware.LoginRequired | backend/middleware.js:1-7 | passes iff a session exists and holds a user; otherwise 401 with the route's message |
| Middleware.AdminRequired | backend/middleware.js:9-15 | passes iff the session user is an administrator; 403 otherwise; throws (500) when there is no session object |
| Middleware.AdminPassesLogin | backend/middleware.js:1-15 | every request `admin_required` passes also passes `login_required` |
| Middleware.LoginRejectedIsAdminRejected | backend/middleware.js:1-15 | with a session present, a request `login_required` rejects is rejected by `admin_required` with 403 |
| Users.IsAdminName | backend/routes/users.js:12 | `toLowerCase() === 'admin'` holds iff the name has five characters that lower-case to `a`, `d`, `m`, `i`, `n` |
| Users.Register | backend/routes/users.js:9-30 | no answer of the route's own when the body has no `Username` (the call at line 12 throws outside the `try`); 403 and no insert for any name whose lower-case form is `admin`; 500 when `Password` is missing, on a storage failure, or for a name longer than `VARCHAR(255)`; 409 for a taken name; otherwise exactly one user is appended with the next id and the hash of the password, and the response echoes id and name; nothing changes on any failure; the keys stay unique |
| Users.NewUserKeepsKeys | backend/database.js:14-19 | appending a user with a fresh id and a free name keeps `ID` and `Username` unique |
| Users.SessionUserOf | backend/routes/users.js:49-53 | the session user carries the row's id and name, and `isAdmin` holds iff the lower-cased name is `admin` |
| Users.Login | backend/routes/users.js:34-64 | 401 for an unknown name or a wrong password, with the session unchanged; 500 when the name is known but `Password` is missing (`bcrypt.compare` throws); on a match the session user becomes that user's `{id, username, isAdmin}`; 500 on a storage failure |
| Users.LoginFindsTheNamedUser | backend/routes/users.js:39-44 | with unique names, the user login finds is the one user of that name |
| Users.RegisteredNameIsNotAdmin | backend/routes/users.js:12-52 | a name that registration accepts never logs in as an administrator |
| Users.Status | backend/routes/users.js:67-73 | logged in, with the session user, iff the session holds a user |
| Users.Logout | backend/routes/users.js:76-84 | a successful destroy clears the session user; a failed one answers 500 with the route's message and keeps it |
| Campaigns.ListCampaigns | backend/routes/campaigns.js:7-18 | every campaign row and nothing else, flagged ones included |
| Campaigns.NewCampaign | backend/routes/campaigns.js:27 | a new campaign starts with `CurrentAmount` 0 and no flag, and holds the sent title, location, urgency, description, image, goal and due date |
| Campaigns.ApplyUpdate | backend/routes/campaigns.js:47-51 | the seven descriptive fields take the sent values; `CurrentAmount` and the flag are kept |
| Campaigns.ApplyUpdateIdempotent | backend/routes/campaigns.js:48-51 | repeating an update with the same body changes nothing more |
| Campaigns.EchoedId | backend/routes/campaigns.js:28-32 | the response's `id` is the insert id unless the body carries an `id` member, which replaces it |
| Campaigns.Storable | backend/database.js:25-30 | the insert or update can be written iff `Title` and `Goal` are present (`NOT NULL`), the goal fits `DECIMAL(15, 2)`, `Title`, `Location` and `Image` fit `VARCHAR(255)` and `Urgency` fits `VARCHAR(50)` |
| Campaigns.CreateCampaign | backend/routes/campaigns.js:21-38 | the login guard's answer when it rejects; otherwise succeeds iff storage works and the body can be stored (`Storable`), inserting at the next id with total 0 and keeping the invariant; any other outcome past the guard is a 500 with nothing changed |
| Campaigns.UpdateCampaign | backend/routes/campaigns.js:41-63 | the admin guard's answer when it rejects; 500 on a storage failure; 404 with nothing changed for an unknown id; 500 for a body that cannot be stored; otherwise only that campaign's descriptive fields change and the invariant is kept |
| Campaigns.DeleteCampaign | backend/routes/campaigns.js:66-83 | the admin guard's answer when it rejects; 500 on a storage failure; 404 for an unknown id; 500 when a referenced campaign is deleted without the cascading key; otherwise removes that campaign only, with its donations; the invariant is kept |
| Donations.NormaliseSupplies | backend/routes/donations.js:71 | an array is kept as sent, another truthy value becomes a one-element list, a falsy or missing one becomes `[]` |
| Donations.CheckRequest | backend/routes/donations.js:51-68 | accepted iff there is a session user with a non-zero id, a positive amount and a non-zero campaign id; otherwise 401, then 400 (amount), then 400 (campaign) in that order; an accepted request carries the session donor and the normalised supplies |
| Donations.Eligible | backend/routes/donations.js:78-81 | only an existing campaign is eligible, and every existing campaign whose flag is NULL is |
| Donations.TransactionSucceeds | backend/routes/donations.js:84-98 | both statements of the transaction can be carried out iff storage works, the amount fits `DECIMAL(15, 2)`, the donor exists (foreign key), the `CurrentAmount` column exists and the new total still fits |
| Donations.LedgerRow | backend/routes/donations.js:88-89 | the stored row holds the response's id, amount, supplies text, donor and campaign |
| Donations.RecordDonation | backend/routes/donations.js:51-117 | a rejected request changes nothing; 500 on a storage failure or on the schema without the `isDeleted` column; 404 with nothing changed for a missing or flagged campaign; 500 with nothing changed when either statement of the transaction fails; otherwise exactly one row is appended and only that campaign's total grows by the amount (NULL read as 0); the response echoes id, amount, supplies, donor and campaign; the invariant and the keys are kept |
| Donations.Commit | backend/routes/donations.js:84-98 | the committed transaction appends the row, adds its amount to that campaign alone and keeps the running-total invariant |
| Donations.RepeatedDonations | backend/routes/donations.js:92-95 | N donations of amount a to one campaign raise its sum by exactly N·a |
| Donations.DecodeSupplies | backend/routes/donations.js:21-34 | arrays are kept, text is parsed, and NULL or unparsable text reads as `[]` |
| Donations.SuppliesRoundTrip | backend/routes/donations.js:21-34 | what the create route stores (line 89) reads back as the normalised list, and an array that was sent reads back unchanged |
| Donations.DisplayName | backend/routes/donations.js:15-39 | the donor's user name, or `Anonymous` when the donor is missing or unresolved or the name is empty |
| Donations.ListDonations | backend/routes/donations.js:12-41 | one entry per ledger row, the i-th being the i-th newest row, decoded |
| Donations.ListDonationsNewestFirst | backend/routes/donations.js:12-19 | the listing is strictly descending by `ID` and shows every row |
| Donations.NewDonationListedFirst | backend/routes/donations.js:100-106 | a donation just recorded is listed first, with the id, supplies and donor the response echoed, and the rest of the list is unchanged |
| Donations.Groups | backend/routes/donations.js:125-133 | one group per user with at least one donation, holding the sum of that user's amounts; users who never donated are absent |
| Donations.DonorTotal | backend/routes/donations.js:128 | `SUM(d.Amount)` over one donor's rows: never negative when no amount is, and 0 for a user with no row |
| Donations.InsertByTotal | backend/routes/donations.js:132 | inserting into a list sorted by descending total keeps it sorted and adds exactly that element |
| Donations.SortByTotal | backend/routes/donations.js:132 | the result is sorted by non-increasing total and is a permutation of the input |
| Donations.TopDonators | backend/routes/donations.js:120-141 | one entry per user who donated, as many as there are groups, each the user's name with the sum of their amounts, every entry such a pair, in non-increasing order of total |
| Stats.TotalDonated | backend/routes/stats.js:12-15 | the sum of the non-null amounts; never negative when no amount is |
| Stats.TotalDonatedAppend | backend/routes/stats.js:12-15 | one more row raises the sum by its amount |
| Stats.RecordedAmountTotalled | backend/routes/stats.js:12-15 | a recorded donation raises `totalDonations` by exactly its amount |
| Stats.SqlSupplyUnits | backend/routes/stats.js:20-23 | the `JSON_LENGTH` sum is never negative, and is 0 iff no row adds anything |
| Stats.SqlSupplyUnitsAppend | backend/routes/stats.js:20-23 | one more row adds its own `JSON_LENGTH` |
| Stats.JsonLength | backend/routes/stats.js:21 | `JSON_LENGTH`: the element count of an array, the member count of an object, 1 for a scalar |
| Stats.SqlUnits | backend/routes/stats.js:21 | what one row adds to the SQL count: 0 for NULL and for text that is not valid JSON, otherwise its `JSON_LENGTH` |
| Stats.FallbackUnits | backend/routes/stats.js:27-39 | one row's `supplies.length`: never negative; NaN iff the cell is text holding a boolean, number or object; an array-shaped cell counts what `JSON_LENGTH` counts |
| Stats.FallbackSupplyUnits | backend/routes/stats.js:24-42 | the fallback's sum is never negative, and is NaN iff some row's `length` is not a number |
| Stats.RecordedSuppliesCounted | backend/routes/stats.js:20-23 | a recorded donation adds exactly the number of supply items it listed |
| Stats.CountSuppliesFallback | backend/routes/stats.js:24-42 | the fallback loop computes the running sum of `supplies.length`, which is NaN (`None`) iff some row has no numeric `length` |
| Stats.FallbackAgreesWithSql | backend/routes/stats.js:18-42 | when every cell holds an array or nothing usable, the fallback gives the same count as the SQL query |
| Stats.PathsDisagreeOnStringText | backend/routes/stats.js:18-42 | on text holding a JSON string the two paths differ: 1 from the SQL query, the character count from the fallback |
| Stats.GroupsCountDonors | backend/routes/donations.js:129-131 | with unique user ids there is one ranking group per distinct donating user |
| Stats.TopDonatorsCountDonors | backend/routes/stats.js:45-48 | with the `Donor` foreign key, the ranking has exactly as many entries as `donors` counts |
| Stats.DonorIds | backend/routes/stats.js:45-46 | `COUNT(DISTINCT Donor) ... WHERE Donor IS NOT NULL`: the set of non-null donor ids in the ledger |
| Stats.GetStats | backend/routes/stats.js:6-61 | changes no state; 500 exactly on a storage failure; otherwise the total donated, the SQL or fallback supply count, the number of distinct non-null donors and the number of campaign rows; the total, the donors, the campaigns and any supply count are never negative |
| DonationModal.Without | src/components/DonationModal.tsx:25 | the filter keeps exactly the other ids and introduces no repeat (the order is never observed: the selection is only searched) |
| DonationModal.WithoutAbsent | src/components/DonationModal.tsx:25 | filtering out an id that is not present changes nothing |
| DonationModal.WithoutAppend | src/components/DonationModal.tsx:25-27 | filtering out an id just appended gives the filter of the list before it |
| DonationModal.Toggled | src/components/DonationModal.tsx:24-28 | the id ends up selected iff it was not selected before, every other id keeps its state, and a repeat-free list stays repeat-free |
| DonationModal.ToggleTwiceRestores | src/components/DonationModal.tsx:24-28 | toggling an unselected id twice restores the list exactly |
| DonationModal.SelectedPrice | src/components/DonationModal.tsx:37-38 | the sum of prices of the selected resources; never negative for non-negative prices; 0 when none is selected |
| DonationModal.SelectedPriceBySet | src/components/DonationModal.tsx:37-38 | the total depends only on which ids are selected, not on their order or repeats |
| DonationModal.SelectingAddsPrice | src/components/DonationModal.tsx:37-38 | selecting one more listed resource raises the total by exactly its price |
| DonationModal.SelectedPriceOthers | src/components/DonationModal.tsx:37-38 | an id no resource carries does not change the total |
| DonationModal.AllResourcesTotal | src/components/DonationModal.tsx:3-9 | selecting all five resources totals 1850 |
| DonationModal.Sanitize | src/components/DonationModal.tsx:43 | keeps exactly the digits and dots of the input; a one-character input is kept iff it is a digit or a dot |
| DonationModal.SanitizeConcat | src/components/DonationModal.tsx:43 | the filter of a concatenation is the concatenation of the filters, so order and repeats are kept |
| DonationModal.SanitizeKeepsOrder | src/components/DonationModal.tsx:43 | "1a2" becomes "12" |
| DonationModal.SanitizeClean | src/components/DonationModal.tsx:43 | text of only digits and dots passes unchanged |
| DonationModal.SanitizeIdempotent | src/components/DonationModal.tsx:43 | sanitising twice is sanitising once |
| DonationModal.ParseFloat | src/components/DonationModal.tsx:33 | NaN iff the text starts with neither a digit nor a dot followed by a digit; any value is non-negative |
| DonationModal.ParseWholeNumber | src/components/DonationModal.tsx:33 | a string of digits parses to its integer value |
| DonationModal.DigitRunAll | src/components/DonationModal.tsx:33 | a string of digits is all digit run |
| DonationModal.SecondDotEndsNumber | src/components/DonationModal.tsx:33 | `parseFloat` stops at the second dot: "1.2.3" is 1.2 |
| DonationModal.CustomTotal | src/components/DonationModal.tsx:32-35 | never negative; the parsed value whenever it is a number; 0 when the parse is NaN |
| DonationModal.TotalAmount | src/components/DonationModal.tsx:31-39 | never negative; the selected resources' price sum in specific mode, the custom amount in custom mode |
| DonationModal.Modal.constructor | src/components/DonationModal.tsx:16-20 | specific mode, nothing selected, empty amount, not processing, not done |
| DonationModal.Modal.CompleteDisabled | src/components/DonationModal.tsx:236 | disabled iff processing or the total is not positive |
| DonationModal.Modal.ToggleItem | src/components/DonationModal.tsx:22-29 | after success nothing changes; otherwise the selection is toggled and stays repeat-free |
| DonationModal.Modal.CustomInputChange | src/components/DonationModal.tsx:41-45 | after success nothing changes; otherwise the amount becomes the sanitised input |
| DonationModal.Modal.SelectMode | src/components/DonationModal.tsx:126-144 | only the mode changes |
| DonationModal.Modal.HandleClose | src/components/DonationModal.tsx:47-54 | specific mode, empty selection, empty amount, not done, total 0; `isProcessing` is left as it was |
| DonationModal.Modal.HandleCompleteDonation | src/components/DonationModal.tsx:56-62 | starts processing iff the total is positive, and otherwise changes nothing |
| DonationModal.Modal.FinishProcessing | src/components/DonationModal.tsx:63-67 | the timer ends processing and marks the donation done |
| AuthModal.IsFormValid | src/components/authmodule.tsx:96 | valid iff the username as typed is non-empty and the password is at least 6 UTF-16 code units long |
| AuthModal.AstralPasswordIsLongEnough | src/components/authmodule.tsx:96 | a password of three characters outside the Basic Multilingual Plane has length 6 and is accepted |
| AuthModal.Endpoint | src/components/authmodule.tsx:29 | the register route iff the tab is Sign Up, the login route iff it is Login |
| AuthModal.Trim | src/components/authmodule.tsx:25 | removes the JavaScript white space at both ends and nothing else |
| AuthModal.TrimFixed | src/components/authmodule.tsx:25 | text with no white space at either end is unchanged |
| AuthModal.TrimIdempotent | src/components/authmodule.tsx:25 | trimming twice is trimming once |
| AuthModal.BlankNamePassesValidity | src/components/authmodule.tsx:96 | validity is judged before trimming: a name of spaces passes and is sent as the empty name |
| AuthModal.SuccessMessage | src/components/authmodule.tsx:40 | the server's message if non-empty, else "<tab> successful." |
| AuthModal.ErrorMessage | src/components/authmodule.tsx:70-76 | the server's error if non-empty; else "Username already exists." for 409, "Invalid credentials." for 401 and 403, "An error occurred." otherwise |
| AuthModal.ReplyMessage | src/components/authmodule.tsx:39-80 | the network-error message when `fetch` fails, the success message for a 2xx reply, the error table otherwise |
| AuthModal.Form.constructor | src/components/authmodule.tsx:9-18 | the Login tab, empty fields, no message, not loading |
| AuthModal.Form.SubmitDisabled | src/components/authmodule.tsx:185 | enabled iff the username is non-empty, the password is at least 6 UTF-16 code units long and nothing is loading |
| AuthModal.Form.SelectTab | src/components/authmodule.tsx:119-138 | only the tab changes |
| AuthModal.Form.Submit | src/components/authmodule.tsx:20-35 | sets loading, clears the message, and sends the trimmed username and the untrimmed password to the tab's endpoint |
| AuthModal.Form.Receive | src/components/authmodule.tsx:37-82 | the message follows the reply table; a success clears both fields, any other outcome keeps them; loading ends |
| AuthModal.Form.ClearMessage | src/components/authmodule.tsx:83 | the message timer clears only the message |
| AuthModal.Form.HandleClose | src/components/authmodule.tsx:87-94 | the Login tab, empty username, password and message, so submit is disabled; loading is left as it was |

## Left out

- Donations.RecordDonation: one flag, `storageFails`, stands for every database failure. A rolled-back insert is modelled as not using up an id, but InnoDB's auto-increment leaves a gap there.
- Users.Register: names are compared exactly. MariaDB's default collation makes `UNIQUE` and `WHERE Username = ?` case- and trailing-space-insensitive. The rolled-back id gap is left out here too.
- Campaigns.Storable: `Description` is `TEXT`, whose limit is 65,535 bytes; byte lengths of encoded text are not modelled, so a longer description is stored. `Due` is not checked as a date.
- Users.Register: a `Username` that is present but not a string (a number, say) also throws at `toLowerCase`; bodies carry a string or nothing.
- Users.Login: the lookup is by exact name, for the same collation reason.
- Users.IsAdminName: lower-cases ASCII letters only. That decides `=== 'admin'` exactly, but it is not a full Unicode `toLowerCase`.
- Database.Store.SetupDatabase:
  - the `ALTER ... MODIFY Supplies JSON` is taken to succeed; on MariaDB it fails when existing text is not valid JSON, and the error is ignored;
  - a drop of the foreign key that succeeds, followed by an add that fails, leaves no key at all;
  - MariaDB reports a JSON column as `LONGTEXT`, so the migration condition holds again on every start; the model says nothing about the reported type.
- DonationModal.ParseFloat: the value is exact. JavaScript rounds it to a binary double. Signs, exponents and leading white space are not modelled, because the sanitiser removes them before parsing.
- Stats.FallbackUnits: an object with a member named `length` is treated like any object (NaN).
- Donations.TopDonators: `ORDER BY totalAmount DESC` promises nothing about ties, so the model fixes none. `Number(totalAmount) || 0` is exact here.
- Amounts and ids of other JSON types: a string `Amount` or `CampaignID` in a request body is not modelled. Bodies carry integers.
- Route parameters: `/:id` arrives as a string and MariaDB converts it. The model takes the integer id.
- `Due` is a `DATE`: its conversion and the driver's date formatting are not modelled.
- bcrypt hashing and comparison: a foreign library, modelled as the `hashOf` function and the `passwordMatches` predicate.
- Session store, cookies (`clearCookie`), connection pooling, Express routing and logging: plumbing with no effect on the modelled state.
- Concurrency: each route call is one atomic sequential method, so transaction isolation and interleaved requests are not modelled.
- React rendering, styling and the `onClose` callbacks. Timers are explicit methods:
  - `FinishProcessing` is the 1500 ms timer;
  - `ClearMessage` is the 3000 ms timer;
  - the auth modal's 1000 ms success timer is `ClearMessage` followed by `HandleClose`.
- The sign-up auto-login and `setUser` in the auth modal: the auth context and fetch wrappers are not part of this model.
- The other client files (admin panel, campaign cards and their percentage arithmetic, feedback form, live updates, testimonies, navigation): display code outside the modelled core.
