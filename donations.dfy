/** The donation routes: record a donation (ledger insert and running-total
    increment in one transaction), list the ledger newest first, and rank
    donors by their total. */
module Donations {
  import opened Common
  import opened Database
  import opened Middleware

  const AmountError: string := "Amount is required and must be greater than 0."
  const CampaignIdError: string := "CampaignID is required."
  const CampaignNotFoundError: string := "Campaign not found or has been deleted."
  const AnonymousName: string := "Anonymous"

  /** The body of `POST /`: `Amount` in cents, `Supplies` as sent, `CampaignID`. */
  datatype DonationBody = DonationBody(amount: Option<int>, supplies: Option<Json>, campaignId: Option<int>)

  /** `Array.isArray(Supplies) ? Supplies : (Supplies ? [Supplies] : [])`:
      a list is kept as sent (order and repeats included), any other truthy
      value becomes a one-element list, a falsy or missing one the empty list. */
  function NormaliseSupplies(supplies: Option<Json>): (r: seq<Json>)
    ensures supplies.Some? && supplies.value.JArr? ==> r == supplies.value.elems
    ensures !Truthy(supplies) ==> r == []
    ensures Truthy(supplies) && !supplies.value.JArr? ==> r == [supplies.value]
  {
    if supplies.Some? && supplies.value.JArr? then supplies.value.elems
    else if Truthy(supplies) then [supplies.value]
    else []
  }

  /** The request after the checks that run before any store access. */
  datatype Checked =
    | Rejected(failure: Failure)
    | Accepted(donor: int, amount: int, campaignId: int, supplies: seq<Json>)

  /** `login_required`, then the handler's own checks in their order: a
      session user with a (truthy) id, a positive `Amount`, a (non-zero)
      `CampaignID`. */
  function CheckRequest(session: Session?, body: DonationBody): (c: Checked)
    reads session
    ensures c.Accepted? <==>
              && session != null && session.user.Some? && session.user.value.id != 0
              && body.amount.Some? && body.amount.value > 0
              && body.campaignId.Some? && body.campaignId.value != 0
    ensures (session == null || session.user.None? || session.user.value.id == 0) ==>
              c == Rejected(HttpError(401, LoginRequiredError))
    ensures session != null && session.user.Some? && session.user.value.id != 0
            && (body.amount.None? || body.amount.value <= 0) ==>
              c == Rejected(HttpError(400, AmountError))
    ensures session != null && session.user.Some? && session.user.value.id != 0
            && body.amount.Some? && body.amount.value > 0
            && (body.campaignId.None? || body.campaignId.value == 0) ==>
              c == Rejected(HttpError(400, CampaignIdError))
    ensures c.Accepted? ==>
              && c.donor == session.user.value.id
              && c.amount == body.amount.value
              && c.campaignId == body.campaignId.value
              && c.supplies == NormaliseSupplies(body.supplies)
  {
    if !LoginRequired(session).Next? then Rejected(GuardFailure(LoginRequired(session)))
    else if session.user.value.id == 0 then Rejected(HttpError(401, LoginRequiredError))
    else if body.amount.None? || body.amount.value <= 0 then Rejected(HttpError(400, AmountError))
    else if body.campaignId.None? || body.campaignId.value == 0 then Rejected(HttpError(400, CampaignIdError))
    else Accepted(session.user.value.id, body.amount.value, body.campaignId.value, NormaliseSupplies(body.supplies))
  }

  /** `SELECT ID FROM Campaigns WHERE ID = ? AND (isDeleted = 0 OR isDeleted IS NULL)` finds a row. */
  predicate Eligible(campaigns: map<int, Campaign>, campaignId: int): (ok: bool)
    ensures ok ==> campaignId in campaigns
    ensures campaignId in campaigns && campaigns[campaignId].isDeleted.None? ==> ok
  {
    campaignId in campaigns && campaigns[campaignId].isDeleted != Some(true)
  }

  datatype DonationResponse =
    | DonationCreated(id: int, amount: int, supplies: seq<Json>, donor: int, campaignId: int)
    | DonationFailed(failure: Failure)

  /** The ledger row a created donation stands for: `Supplies` is stored as
      `JSON.stringify(suppliesArray)`, text that parses back to the list. */
  function LedgerRow(r: DonationResponse): (d: Donation)
    requires r.DonationCreated?
    ensures d.id == r.id && d.amount == Some(r.amount) && d.supplies == TextCell(JArr(r.supplies))
    ensures d.donor == Some(r.donor) && d.campaignId == Some(r.campaignId)
  {
    Donation(r.id, Some(r.amount), TextCell(JArr(r.supplies)), Some(r.donor), Some(r.campaignId))
  }

  /** Both statements of the transaction can be carried out: the insert needs
      an amount `DECIMAL(15, 2)` holds and an existing donor, the increment
      needs the `CurrentAmount` column and a sum that still fits. */
  predicate TransactionSucceeds(users: seq<User>, campaigns: map<int, Campaign>, hasCurrentAmountColumn: bool,
                                c: Checked, storageFails: bool)
    requires c.Accepted? && c.campaignId in campaigns
  {
    && !storageFails
    && FitsDecimal(c.amount)
    && UserExists(users, c.donor)
    && hasCurrentAmountColumn
    && FitsDecimal(OrZero(campaigns[c.campaignId].currentAmount) + c.amount)
  }

  /** `POST /`: check the request, check the campaign, then insert the ledger
      row and add `Amount` to `CurrentAmount` in one transaction, which is
      rolled back if either statement fails (`storageFails` stands for any
      failure of the database itself). */
  method RecordDonation(db: Store, session: Session?, body: DonationBody, storageFails: bool)
    returns (r: DonationResponse)
    requires db.Valid()
    modifies db
    ensures db.Valid()
    ensures old(db.Conserved()) ==> db.Conserved()
    ensures CheckRequest(session, body).Rejected? ==> r == DonationFailed(CheckRequest(session, body).failure)
    ensures CheckRequest(session, body).Accepted? && (storageFails || !old(db.hasIsDeletedColumn)) ==>
              r == DonationFailed(InternalError)
    ensures CheckRequest(session, body).Accepted? && !storageFails && old(db.hasIsDeletedColumn)
            && !Eligible(old(db.campaigns), CheckRequest(session, body).campaignId) ==>
              r == DonationFailed(HttpError(404, CampaignNotFoundError))
    ensures CheckRequest(session, body).Accepted? && !storageFails && old(db.hasIsDeletedColumn)
            && Eligible(old(db.campaigns), CheckRequest(session, body).campaignId)
            && !TransactionSucceeds(old(db.users), old(db.campaigns), old(db.hasCurrentAmountColumn),
                                    CheckRequest(session, body), storageFails) ==>
              r == DonationFailed(InternalError)
    ensures r.DonationCreated? <==>
              && CheckRequest(session, body).Accepted?
              && old(db.hasIsDeletedColumn)
              && Eligible(old(db.campaigns), CheckRequest(session, body).campaignId)
              && TransactionSucceeds(old(db.users), old(db.campaigns), old(db.hasCurrentAmountColumn),
                                     CheckRequest(session, body), storageFails)
    ensures r.DonationCreated? ==>
              var c := CheckRequest(session, body);
              && r == DonationCreated(old(db.nextDonationId), c.amount, c.supplies, c.donor, c.campaignId)
              && db.Snapshot() == old(db.Snapshot()).(
                   donations := old(db.donations) + [LedgerRow(r)],
                   campaigns := old(db.campaigns)[c.campaignId := old(db.campaigns)[c.campaignId].(
                     currentAmount := Some(OrZero(old(db.campaigns)[c.campaignId].currentAmount) + c.amount))],
                   nextDonationId := old(db.nextDonationId) + 1)
    ensures !r.DonationCreated? ==> db.Snapshot() == old(db.Snapshot())
  {
    var c := CheckRequest(session, body);
    if c.Rejected? {
      return DonationFailed(c.failure);
    }
    if storageFails || !db.hasIsDeletedColumn {
      return DonationFailed(InternalError);
    }
    if !Eligible(db.campaigns, c.campaignId) {
      return DonationFailed(HttpError(404, CampaignNotFoundError));
    }
    if !TransactionSucceeds(db.users, db.campaigns, db.hasCurrentAmountColumn, c, storageFails) {
      // rollback: neither statement is kept
      return DonationFailed(InternalError);
    }
    r := DonationCreated(db.nextDonationId, c.amount, c.supplies, c.donor, c.campaignId);
    Commit(db, LedgerRow(r));
  }

  /** The two statements of a transaction that succeeds: append the ledger
      row and add its amount to the campaign's running total. */
  method Commit(db: Store, row: Donation)
    requires db.Valid()
    requires row.id == db.nextDonationId && row.amount.Some? && row.donor.Some? && row.campaignId.Some?
    requires row.amount.value > 0
    requires UserExists(db.users, row.donor.value) && row.campaignId.value in db.campaigns
    modifies db
    ensures db.Valid()
    ensures old(db.Conserved()) ==> db.Conserved()
    ensures db.Snapshot() == old(db.Snapshot()).(
              donations := old(db.donations) + [row],
              campaigns := old(db.campaigns)[row.campaignId.value := old(db.campaigns)[row.campaignId.value].(
                currentAmount := Some(OrZero(old(db.campaigns)[row.campaignId.value].currentAmount) + row.amount.value))],
              nextDonationId := old(db.nextDonationId) + 1)
  {
    var before := db.donations;
    var id := row.campaignId.value;
    var campaign := db.campaigns[id];
    forall other | other in db.campaigns
      ensures CampaignTotal(before + [row], other) == CampaignTotal(before, other) + Contribution(row, other)
    {
      CampaignTotalAppend(before, row, other);
    }
    db.donations := before + [row];
    db.campaigns := db.campaigns[id := campaign.(currentAmount := Some(OrZero(campaign.currentAmount) + row.amount.value))];
    db.nextDonationId := db.nextDonationId + 1;
    assert forall d :: d in db.donations ==> d in before || d == row;
  }

  /** The sum over two stretches of the ledger is the sum of their sums. */
  lemma {:induction false} CampaignTotalConcat(a: seq<Donation>, b: seq<Donation>, campaignId: int)
    ensures CampaignTotal(a + b, campaignId) == CampaignTotal(a, campaignId) + CampaignTotal(b, campaignId)
  {
    if a == [] {
      assert a + b == b;
    } else {
      assert (a + b)[1..] == a[1..] + b;
      CampaignTotalConcat(a[1..], b, campaignId);
    }
  }

  lemma {:induction false} UniformTotal(rows: seq<Donation>, campaignId: int, amount: int)
    requires forall d :: d in rows ==> d.campaignId == Some(campaignId) && d.amount == Some(amount)
    ensures CampaignTotal(rows, campaignId) == |rows| * amount
  {
    if rows != [] {
      assert rows[0] in rows;
      assert forall d :: d in rows[1..] ==> d in rows;
      UniformTotal(rows[1..], campaignId, amount);
      assert |rows| * amount == amount + (|rows| - 1) * amount;
    }
  }

  /** N donations of the same amount to one campaign raise its total by
      exactly N times that amount, whatever else the ledger holds. */
  lemma RepeatedDonations(ledger: seq<Donation>, rows: seq<Donation>, campaignId: int, amount: int)
    requires forall d :: d in rows ==> d.campaignId == Some(campaignId) && d.amount == Some(amount)
    ensures CampaignTotal(ledger + rows, campaignId) == CampaignTotal(ledger, campaignId) + |rows| * amount
  {
    CampaignTotalConcat(ledger, rows, campaignId);
    UniformTotal(rows, campaignId, amount);
  }

  // ---------------------------------------------------------------- GET /

  /** A ledger row as `GET /` returns it. */
  datatype DonationView = DonationView(
    id: int,
    amount: Option<int>,
    supplies: Json,
    donor: Option<int>,
    campaignId: Option<int>,
    donorUsername: string)

  /** The read side of `Supplies`: an array is kept, text is `JSON.parse`d,
      and NULL or text that does not parse becomes `[]`. */
  function DecodeSupplies(cell: SuppliesCell): (j: Json)
    ensures cell.ArrayCell? ==> j == JArr(cell.items)
    ensures cell.TextCell? ==> j == cell.parsed
    ensures cell.NullCell? || cell.BadTextCell? ==> j == JArr([])
  {
    match cell
    case NullCell => JArr([])
    case ArrayCell(items) => JArr(items)
    case TextCell(parsed) => parsed
    case BadTextCell => JArr([])
  }

  /** What `POST /` stores as `Supplies` reads back as the list it normalised. */
  lemma SuppliesRoundTrip(sent: Option<Json>)
    ensures DecodeSupplies(TextCell(JArr(NormaliseSupplies(sent)))) == JArr(NormaliseSupplies(sent))
    ensures sent.Some? && sent.value.JArr? ==> DecodeSupplies(TextCell(JArr(NormaliseSupplies(sent)))) == sent.value
  {
  }

  /** `u.Username AS DonorUsername` from the `LEFT JOIN`, then `|| 'Anonymous'`:
      a donor that cannot be resolved, or whose name is empty, shows as
      Anonymous. */
  function DisplayName(users: seq<User>, donor: Option<int>): (name: string)
    ensures (donor.None? || !UserExists(users, donor.value)) ==> name == AnonymousName
    ensures donor.Some? && UserExists(users, donor.value) ==>
              var u := FindUserById(users, donor.value).value;
              name == if u.username == "" then AnonymousName else u.username
  {
    if donor.None? then AnonymousName
    else match FindUserById(users, donor.value)
      case None => AnonymousName
      case Some(u) => if u.username == "" then AnonymousName else u.username
  }

  function View(d: Donation, users: seq<User>): DonationView
  {
    DonationView(d.id, d.amount, DecodeSupplies(d.supplies), d.donor, d.campaignId, DisplayName(users, d.donor))
  }

  /** `GET /`: every ledger row, `ORDER BY d.ID DESC`. Rows are stored in
      ascending id order, so the i-th row listed is the i-th newest. */
  function ListDonations(ledger: seq<Donation>, users: seq<User>): (r: seq<DonationView>)
    ensures |r| == |ledger|
    ensures forall i :: 0 <= i < |r| ==> r[i] == View(ledger[|ledger| - 1 - i], users)
  {
    if ledger == [] then []
    else [View(ledger[|ledger| - 1], users)] + ListDonations(ledger[..|ledger| - 1], users)
  }

  /** The listing is strictly descending by id and shows every row once. */
  lemma ListDonationsNewestFirst(ledger: seq<Donation>, users: seq<User>)
    requires IdsAscending(ledger)
    ensures forall i, j :: 0 <= i < j < |ListDonations(ledger, users)| ==>
              ListDonations(ledger, users)[i].id > ListDonations(ledger, users)[j].id
    ensures forall d :: d in ledger ==> View(d, users) in ListDonations(ledger, users)
  {
    var r := ListDonations(ledger, users);
    forall d | d in ledger
      ensures View(d, users) in r
    {
      var k :| 0 <= k < |ledger| && ledger[k] == d;
      assert r[|ledger| - 1 - k] == View(d, users);
    }
  }

  /** A donation just recorded is listed first, with the supplies and donor
      the response echoed; the rest of the listing is as before. */
  lemma NewDonationListedFirst(ledger: seq<Donation>, users: seq<User>, r: DonationResponse)
    requires r.DonationCreated?
    ensures ListDonations(ledger + [LedgerRow(r)], users)[0].id == r.id
    ensures ListDonations(ledger + [LedgerRow(r)], users)[0].supplies == JArr(r.supplies)
    ensures ListDonations(ledger + [LedgerRow(r)], users)[0].donorUsername == DisplayName(users, Some(r.donor))
    ensures ListDonations(ledger + [LedgerRow(r)], users)[1..] == ListDonations(ledger, users)
  {
    assert (ledger + [LedgerRow(r)])[..|ledger|] == ledger;
  }

  // ---------------------------------------------------- GET /top-donators

  /** `SUM(d.Amount)` over one donor's rows (NULL amounts skipped). */
  function DonorTotal(ledger: seq<Donation>, userId: int): (t: int)
    ensures (forall d :: d in ledger ==> OrZero(d.amount) >= 0) ==> t >= 0
    ensures (forall d :: d in ledger ==> d.donor != Some(userId)) ==> t == 0
  {
    if ledger == [] then 0
    else
      assert forall d :: d in ledger[1..] ==> d in ledger;
      (if ledger[0].donor == Some(userId) then OrZero(ledger[0].amount) else 0) + DonorTotal(ledger[1..], userId)
  }

  predicate HasDonated(ledger: seq<Donation>, userId: int)
  {
    exists d :: d in ledger && d.donor == Some(userId)
  }

  /** One group of `Users u INNER JOIN Donations d ON u.ID = d.Donor GROUP BY u.ID`. */
  datatype DonorGroup = DonorGroup(userId: int, name: string, total: int)

  function GroupOf(u: User, ledger: seq<Donation>): DonorGroup
  {
    DonorGroup(u.id, u.username, DonorTotal(ledger, u.id))
  }

  /** The groups of the inner join: one per user with at least one donation. */
  function Groups(users: seq<User>, ledger: seq<Donation>): (g: seq<DonorGroup>)
    ensures forall e :: e in g <==> exists u :: u in users && HasDonated(ledger, u.id) && e == GroupOf(u, ledger)
  {
    if users == [] then []
    else if HasDonated(ledger, users[0].id) then [GroupOf(users[0], ledger)] + Groups(users[1..], ledger)
    else Groups(users[1..], ledger)
  }

  predicate SortedByTotal(s: seq<DonorGroup>)
  {
    forall i, j :: 0 <= i < j < |s| ==> s[i].total >= s[j].total
  }

  function InsertByTotal(e: DonorGroup, s: seq<DonorGroup>): (r: seq<DonorGroup>)
    requires SortedByTotal(s)
    ensures SortedByTotal(r)
    ensures multiset(r) == multiset(s) + multiset{e}
  {
    if s == [] then [e]
    else if e.total >= s[0].total then
      SortedHead(s);
      SortedCons(e, s);
      [e] + s
    else
      SortedHead(s);
      var rest := InsertByTotal(e, s[1..]);
      forall x | x in rest
        ensures s[0].total >= x.total
      {
        assert x in multiset(rest);
        assert x == e || x in multiset(s[1..]);
      }
      SortedCons(s[0], rest);
      calc {
        multiset([s[0]] + rest);
        multiset{s[0]} + multiset(rest);
        multiset{s[0]} + multiset(s[1..]) + multiset{e};
        { assert [s[0]] + s[1..] == s; }
        multiset(s) + multiset{e};
      }
      [s[0]] + rest
  }

  /** The head of a sorted list bounds its tail, which is sorted too. */
  lemma SortedHead(s: seq<DonorGroup>)
    requires SortedByTotal(s) && s != []
    ensures SortedByTotal(s[1..])
    ensures forall x :: x in s[1..] ==> s[0].total >= x.total
  {
    forall x | x in s[1..]
      ensures s[0].total >= x.total
    {
      var k :| 0 <= k < |s[1..]| && s[1..][k] == x;
      assert s[k + 1] == x;
    }
  }

  lemma SortedCons(x: DonorGroup, rest: seq<DonorGroup>)
    requires SortedByTotal(rest)
    requires forall y :: y in rest ==> x.total >= y.total
    ensures SortedByTotal([x] + rest)
  {
    var r := [x] + rest;
    forall i, j | 0 <= i < j < |r|
      ensures r[i].total >= r[j].total
    {
      if i == 0 {
        assert r[j] in rest;
      } else {
        assert r[i] == rest[i - 1] && r[j] == rest[j - 1];
      }
    }
  }

  /** `ORDER BY totalAmount DESC` (ties in no promised order). */
  function SortByTotal(s: seq<DonorGroup>): (r: seq<DonorGroup>)
    ensures SortedByTotal(r)
    ensures multiset(r) == multiset(s)
  {
    if s == [] then []
    else
      assert s == [s[0]] + s[1..];
      InsertByTotal(s[0], SortByTotal(s[1..]))
  }

  datatype TopDonator = TopDonator(donatorName: string, totalAmount: int)

  /** Sorting keeps exactly the elements it was given. */
  lemma SortKeepsMembers(s: seq<DonorGroup>)
    ensures forall e :: e in SortByTotal(s) <==> e in s
  {
    var r := SortByTotal(s);
    forall e
      ensures e in r <==> e in s
    {
      assert e in r <==> e in multiset(r);
      assert e in s <==> e in multiset(s);
    }
  }

  /** `GET /top-donators`: the donor groups ranked by total, as name and
      total. The leaderboard holds exactly the users who donated, each once
      with the sum of their amounts, in non-increasing order of that sum. */
  function TopDonators(users: seq<User>, ledger: seq<Donation>): (r: seq<TopDonator>)
    ensures |r| == |Groups(users, ledger)|
    ensures forall i, j :: 0 <= i < j < |r| ==> r[i].totalAmount >= r[j].totalAmount
    ensures forall u :: u in users && HasDonated(ledger, u.id) ==> TopDonator(u.username, DonorTotal(ledger, u.id)) in r
    ensures forall e :: e in r ==>
              exists u :: u in users && HasDonated(ledger, u.id) && e == TopDonator(u.username, DonorTotal(ledger, u.id))
  {
    var groups := Groups(users, ledger);
    var ranked := SortByTotal(groups);
    SortKeepsMembers(groups);
    assert |ranked| == |multiset(ranked)| == |multiset(groups)| == |groups|;
    var r := seq(|ranked|, i requires 0 <= i < |ranked| => TopDonator(ranked[i].name, ranked[i].total));
    assert forall u :: u in users && HasDonated(ledger, u.id) ==> TopDonator(u.username, DonorTotal(ledger, u.id)) in r by {
      forall u | u in users && HasDonated(ledger, u.id)
        ensures TopDonator(u.username, DonorTotal(ledger, u.id)) in r
      {
        assert GroupOf(u, ledger) in ranked;
        var k :| 0 <= k < |ranked| && ranked[k] == GroupOf(u, ledger);
        assert r[k] == TopDonator(u.username, DonorTotal(ledger, u.id));
      }
    }
    assert forall e :: e in r ==>
             exists u :: u in users && HasDonated(ledger, u.id) && e == TopDonator(u.username, DonorTotal(ledger, u.id)) by {
      forall e | e in r
        ensures exists u :: u in users && HasDonated(ledger, u.id) && e == TopDonator(u.username, DonorTotal(ledger, u.id))
      {
        var k :| 0 <= k < |r| && r[k] == e;
        assert ranked[k] in groups;
        var u :| u in users && HasDonated(ledger, u.id) && ranked[k] == GroupOf(u, ledger);
      }
    }
    r
  }
}
