/** The three tables (Users, Campaigns, Donations), the running-total
    invariant that ties `Campaigns.CurrentAmount` to the ledger, and the
    schema set-up that creates and migrates them. */
module Database {
  import opened Common

  /** `DECIMAL(15, 2)` holds 13 integer and 2 fractional digits; amounts are
      integer cents, so the largest storable magnitude is 10^15 - 1 cents. */
  const MaxDecimalCents: int := 999_999_999_999_999

  predicate FitsDecimal(cents: int)
  {
    -MaxDecimalCents <= cents <= MaxDecimalCents
  }

  /** `VARCHAR(n)` in strict mode: a longer string is refused, not cut.
      The width counts characters. */
  predicate FitsVarchar(s: string, width: nat)
  {
    |s| <= width
  }

  predicate FitsOptionalVarchar(s: Option<string>, width: nat)
  {
    s.Some? ==> FitsVarchar(s.value, width)
  }

  /** A row of `Users`; the password is kept only as its bcrypt hash. */
  datatype User = User(id: int, username: string, passwordHash: string)

  /** A row of `Campaigns` (the key `ID` is the map key of the store).
      `isDeleted` is not created by the schema; `None` reads as not deleted. */
  datatype Campaign = Campaign(
    title: string,
    location: Option<string>,
    urgency: Option<string>,
    description: Option<string>,
    image: Option<string>,
    goal: int,
    currentAmount: Option<int>,
    due: Option<string>,
    isDeleted: Option<bool>)

  /** The `Supplies` cell of a donation as the driver hands it back: SQL NULL,
      an already decoded array, or text, characterised by what `JSON.parse`
      makes of it (`BadTextCell` when it throws, which includes ""). */
  datatype SuppliesCell = NullCell | ArrayCell(items: seq<Json>) | TextCell(parsed: Json) | BadTextCell

  /** A row of the `Donations` ledger. */
  datatype Donation = Donation(
    id: int,
    amount: Option<int>,
    supplies: SuppliesCell,
    donor: Option<int>,
    campaignId: Option<int>)

  /** What one ledger row adds to `SUM(Amount)` for campaign `campaignId`. */
  function Contribution(d: Donation, campaignId: int): int
  {
    if d.campaignId == Some(campaignId) then OrZero(d.amount) else 0
  }

  /** `COALESCE(SUM(d.Amount), 0)` over the ledger rows of one campaign. */
  function CampaignTotal(ledger: seq<Donation>, campaignId: int): (t: int)
    ensures (forall d :: d in ledger ==> OrZero(d.amount) >= 0) ==> t >= 0
  {
    if ledger == [] then 0
    else
      assert forall d :: d in ledger[1..] ==> d in ledger;
      Contribution(ledger[0], campaignId) + CampaignTotal(ledger[1..], campaignId)
  }

  lemma {:induction false} CampaignTotalAppend(ledger: seq<Donation>, d: Donation, campaignId: int)
    ensures CampaignTotal(ledger + [d], campaignId) == CampaignTotal(ledger, campaignId) + Contribution(d, campaignId)
  {
    if ledger != [] {
      assert (ledger + [d])[1..] == ledger[1..] + [d];
      CampaignTotalAppend(ledger[1..], d, campaignId);
    }
  }

  /** A campaign no ledger row refers to has a total of zero. */
  lemma {:induction false} CampaignTotalUnreferenced(ledger: seq<Donation>, campaignId: int)
    requires forall d :: d in ledger ==> d.campaignId != Some(campaignId)
    ensures CampaignTotal(ledger, campaignId) == 0
  {
    if ledger != [] {
      assert ledger[0] in ledger;
      CampaignTotalUnreferenced(ledger[1..], campaignId);
    }
  }

  predicate Referenced(ledger: seq<Donation>, campaignId: int)
  {
    exists d :: d in ledger && d.campaignId == Some(campaignId)
  }

  /** Auto-increment order: ledger rows are kept in ascending `ID`. */
  predicate IdsAscending(ledger: seq<Donation>)
  {
    forall i, j :: 0 <= i < j < |ledger| ==> ledger[i].id < ledger[j].id
  }

  predicate UserIdsUnique(users: seq<User>)
  {
    forall i, j :: 0 <= i < j < |users| ==> users[i].id != users[j].id
  }

  /** The `UNIQUE` constraint on `Users.Username`. */
  predicate UsernamesUnique(users: seq<User>)
  {
    forall i, j :: 0 <= i < j < |users| ==> users[i].username != users[j].username
  }

  predicate UserExists(users: seq<User>, id: int)
  {
    exists u :: u in users && u.id == id
  }

  /** The row a `LEFT JOIN Users u ON d.Donor = u.ID` finds, if any. */
  function FindUserById(users: seq<User>, id: int): (r: Option<User>)
    ensures r.Some? ==> r.value in users && r.value.id == id
    ensures r.None? <==> !UserExists(users, id)
  {
    if users == [] then None
    else if users[0].id == id then Some(users[0])
    else FindUserById(users[1..], id)
  }

  /** The first row `SELECT * FROM Users WHERE Username = ?` returns. */
  function FindUserByName(users: seq<User>, name: string): (r: Option<User>)
    ensures r.Some? ==> r.value in users && r.value.username == name
    ensures r.None? <==> forall u :: u in users ==> u.username != name
  {
    if users == [] then None
    else if users[0].username == name then Some(users[0])
    else FindUserByName(users[1..], name)
  }

  /** The foreign keys of a ledger row: `Donor` references `Users.ID` and
      `CampaignID` references `Campaigns.ID` (NULL references nothing). */
  predicate ForeignKeysHold(d: Donation, users: seq<User>, campaigns: map<int, Campaign>)
  {
    && (d.donor.Some? ==> UserExists(users, d.donor.value))
    && (d.campaignId.Some? ==> d.campaignId.value in campaigns)
  }

  /** Every campaign's `CurrentAmount` equals the sum of its ledger rows. */
  predicate TotalsMatch(campaigns: map<int, Campaign>, ledger: seq<Donation>)
  {
    forall id :: id in campaigns ==> OrZero(campaigns[id].currentAmount) == CampaignTotal(ledger, id)
  }

  /** The `CurrentAmount` back-fill: each campaign's total is re-summed from
      the ledger; nothing else in the row changes. */
  function Backfill(campaigns: map<int, Campaign>, ledger: seq<Donation>): (r: map<int, Campaign>)
    ensures r.Keys == campaigns.Keys
    ensures TotalsMatch(r, ledger)
    ensures forall id :: id in r ==> r[id] == campaigns[id].(currentAmount := r[id].currentAmount)
  {
    map id | id in campaigns :: campaigns[id].(currentAmount := Some(CampaignTotal(ledger, id)))
  }

  /** `ADD COLUMN CurrentAmount ... DEFAULT 0.00`: every existing campaign
      gets a total of zero. */
  function ZeroTotals(campaigns: map<int, Campaign>): (r: map<int, Campaign>)
    ensures r.Keys == campaigns.Keys
    ensures forall id :: id in r ==> r[id] == campaigns[id].(currentAmount := Some(0))
  {
    map id | id in campaigns :: campaigns[id].(currentAmount := Some(0))
  }

  /** When the back-fill does not run after the column is added, every
      campaign that already has donations summing to something other than 0
      breaks the running-total invariant. */
  lemma PartialMigrationBreaksTotals(campaigns: map<int, Campaign>, ledger: seq<Donation>, id: int)
    requires id in campaigns && CampaignTotal(ledger, id) != 0
    ensures !TotalsMatch(ZeroTotals(campaigns), ledger)
  {
    assert OrZero(ZeroTotals(campaigns)[id].currentAmount) == 0;
  }

  /** Rows of a deleted campaign go with it (`ON DELETE CASCADE`). */
  function WithoutCampaign(ledger: seq<Donation>, campaignId: int): (r: seq<Donation>)
    ensures forall d :: d in r <==> d in ledger && d.campaignId != Some(campaignId)
  {
    if ledger == [] then []
    else if ledger[0].campaignId == Some(campaignId) then WithoutCampaign(ledger[1..], campaignId)
    else [ledger[0]] + WithoutCampaign(ledger[1..], campaignId)
  }

  /** The cascade keeps the remaining rows in ascending `ID` order. */
  lemma {:induction false} WithoutCampaignAscending(ledger: seq<Donation>, campaignId: int)
    requires IdsAscending(ledger)
    ensures IdsAscending(WithoutCampaign(ledger, campaignId))
  {
    if ledger != [] {
      var rest := WithoutCampaign(ledger[1..], campaignId);
      AscendingTail(ledger);
      WithoutCampaignAscending(ledger[1..], campaignId);
      if ledger[0].campaignId != Some(campaignId) {
        assert forall d :: d in rest ==> d in ledger[1..];
        AscendingCons(ledger[0], rest);
      }
    }
  }

  /** The tail of an ascending ledger is ascending and above its head. */
  lemma AscendingTail(ledger: seq<Donation>)
    requires IdsAscending(ledger) && ledger != []
    ensures IdsAscending(ledger[1..])
    ensures forall d :: d in ledger[1..] ==> ledger[0].id < d.id
  {
    forall d | d in ledger[1..]
      ensures ledger[0].id < d.id
    {
      var k :| 0 <= k < |ledger[1..]| && ledger[1..][k] == d;
      assert ledger[k + 1] == d;
    }
  }

  lemma AscendingCons(x: Donation, rest: seq<Donation>)
    requires IdsAscending(rest)
    requires forall d :: d in rest ==> x.id < d.id
    ensures IdsAscending([x] + rest)
  {
    var r := [x] + rest;
    forall i, j | 0 <= i < j < |r|
      ensures r[i].id < r[j].id
    {
      if i == 0 {
        assert r[j] in rest;
      } else {
        assert r[i] == rest[i - 1] && r[j] == rest[j - 1];
      }
    }
  }

  /** Deleting a campaign no row refers to leaves the ledger as it is. */
  lemma {:induction false} WithoutUnreferenced(ledger: seq<Donation>, campaignId: int)
    requires !Referenced(ledger, campaignId)
    ensures WithoutCampaign(ledger, campaignId) == ledger
  {
    if ledger != [] {
      assert ledger[0] in ledger;
      assert !Referenced(ledger[1..], campaignId) by {
        forall d | d in ledger[1..] ensures d.campaignId != Some(campaignId) {
          assert d in ledger;
        }
      }
      WithoutUnreferenced(ledger[1..], campaignId);
      assert [ledger[0]] + ledger[1..] == ledger;
    }
  }

  /** The cascade leaves every other campaign's total as it was. */
  lemma {:induction false} CascadeKeepsOtherTotals(ledger: seq<Donation>, deleted: int, other: int)
    requires other != deleted
    ensures CampaignTotal(WithoutCampaign(ledger, deleted), other) == CampaignTotal(ledger, other)
  {
    if ledger != [] {
      CascadeKeepsOtherTotals(ledger[1..], deleted, other);
      if ledger[0].campaignId != Some(deleted) {
        assert ([ledger[0]] + WithoutCampaign(ledger[1..], deleted))[1..] == WithoutCampaign(ledger[1..], deleted);
      }
    }
  }

  /** A snapshot of everything the store holds. */
  datatype Tables = Tables(
    users: seq<User>,
    campaigns: map<int, Campaign>,
    donations: seq<Donation>,
    nextUserId: int,
    nextCampaignId: int,
    nextDonationId: int,
    suppliesColumnType: string,
    hasCurrentAmountColumn: bool,
    hasIsDeletedColumn: bool,
    cascadeOnDelete: bool)

  /** What became of the two statements that add `CurrentAmount`: both ran,
      the `ADD COLUMN` failed, or the column was added (and committed on its
      own) but the back-fill `UPDATE` failed. Either failure is only logged. */
  datatype ColumnMigration = Migrated | AddColumnFails | BackfillFails

  /** What became of `ALTER TABLE Donations DROP FOREIGN KEY donations_ibfk_2`. */
  datatype ForeignKeyDrop = Dropped | CannotDrop | OtherFailure

  /** The database: its three tables, the auto-increment counters and the
      schema facts the routes depend on. */
  class Store {
    var users: seq<User>
    var campaigns: map<int, Campaign>
    var donations: seq<Donation>
    var nextUserId: int
    var nextCampaignId: int
    var nextDonationId: int
    var suppliesColumnType: string
    var hasCurrentAmountColumn: bool
    var hasIsDeletedColumn: bool
    var cascadeOnDelete: bool

    ghost function Snapshot(): Tables
      reads this
    {
      Tables(users, campaigns, donations, nextUserId, nextCampaignId, nextDonationId,
             suppliesColumnType, hasCurrentAmountColumn, hasIsDeletedColumn, cascadeOnDelete)
    }

    /** Primary keys, uniqueness, foreign keys, and no negative amount in the
        ledger (the only route that adds rows checks `Amount > 0`). */
    ghost predicate Valid()
      reads this
    {
      && 1 <= nextUserId && 1 <= nextCampaignId && 1 <= nextDonationId
      && UserIdsUnique(users)
      && UsernamesUnique(users)
      && (forall u :: u in users ==> 1 <= u.id < nextUserId)
      && (forall id :: id in campaigns ==> 1 <= id < nextCampaignId)
      && IdsAscending(donations)
      && (forall d :: d in donations ==> 1 <= d.id < nextDonationId)
      && (forall d :: d in donations ==> ForeignKeysHold(d, users, campaigns))
      && (forall d :: d in donations ==> OrZero(d.amount) >= 0)
    }

    /** The running totals agree with the ledger. */
    ghost predicate Conserved()
      reads this
    {
      hasCurrentAmountColumn && TotalsMatch(campaigns, donations)
    }

    /** Empty tables, created by the current schema. */
    constructor (isDeletedColumn: bool)
      ensures Valid() && Conserved()
      ensures users == [] && campaigns == map[] && donations == []
      ensures nextUserId == 1 && nextCampaignId == 1 && nextDonationId == 1
      ensures suppliesColumnType == "JSON" && hasIsDeletedColumn == isDeletedColumn && !cascadeOnDelete
    {
      users, campaigns, donations := [], map[], [];
      nextUserId, nextCampaignId, nextDonationId := 1, 1, 1;
      suppliesColumnType := "JSON";
      hasCurrentAmountColumn := true;
      hasIsDeletedColumn := isDeletedColumn;
      cascadeOnDelete := false;
    }

    /** `setupDatabase`: migrate `Supplies` to JSON when its type mentions
        TEXT, add and back-fill `CurrentAmount` when the column is missing,
        and replace the campaign foreign key by a cascading one. */
    method SetupDatabase(migration: ColumnMigration, fkDrop: ForeignKeyDrop) returns (suppliesMigrated: bool)
      requires Valid()
      modifies this
      ensures Valid()
      ensures users == old(users) && donations == old(donations) && campaigns.Keys == old(campaigns.Keys)
      ensures nextUserId == old(nextUserId) && nextCampaignId == old(nextCampaignId)
      ensures nextDonationId == old(nextDonationId) && hasIsDeletedColumn == old(hasIsDeletedColumn)
      ensures suppliesMigrated == Contains(ToUpper(old(suppliesColumnType)), "TEXT")
      ensures suppliesColumnType == if suppliesMigrated then "JSON" else old(suppliesColumnType)
      ensures old(hasCurrentAmountColumn) ==> hasCurrentAmountColumn && campaigns == old(campaigns)
      ensures !old(hasCurrentAmountColumn) && migration == AddColumnFails ==>
                !hasCurrentAmountColumn && campaigns == old(campaigns)
      ensures !old(hasCurrentAmountColumn) && migration == BackfillFails ==>
                hasCurrentAmountColumn && campaigns == ZeroTotals(old(campaigns))
      ensures !old(hasCurrentAmountColumn) && migration == Migrated ==>
                hasCurrentAmountColumn && campaigns == Backfill(old(campaigns), donations) && Conserved()
      ensures old(Conserved()) ==> Conserved()
      ensures cascadeOnDelete == (old(cascadeOnDelete) || fkDrop != OtherFailure)
    {
      suppliesMigrated := Contains(ToUpper(suppliesColumnType), "TEXT");
      if suppliesMigrated {
        suppliesColumnType := "JSON";
      }
      if !hasCurrentAmountColumn && migration != AddColumnFails {
        hasCurrentAmountColumn := true;
        var filled := if migration == Migrated then Backfill(campaigns, donations) else ZeroTotals(campaigns);
        assert forall d :: d in donations ==> ForeignKeysHold(d, users, filled);
        campaigns := filled;
      }
      if fkDrop != OtherFailure {
        cascadeOnDelete := true;
      }
    }
  }
}
