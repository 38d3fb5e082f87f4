/** The platform statistics route: total donated, number of supply items,
    number of distinct donors and number of campaigns. */
module Stats {
  import opened Common
  import opened Database
  import opened Donations

  /** `COALESCE(SUM(Amount), 0) ... WHERE Amount IS NOT NULL`. */
  function TotalDonated(ledger: seq<Donation>): (t: int)
    ensures (forall d :: d in ledger ==> OrZero(d.amount) >= 0) ==> t >= 0
  {
    if ledger == [] then 0
    else
      assert forall d :: d in ledger[1..] ==> d in ledger;
      OrZero(ledger[0].amount) + TotalDonated(ledger[1..])
  }

  lemma {:induction false} TotalDonatedAppend(ledger: seq<Donation>, d: Donation)
    ensures TotalDonated(ledger + [d]) == TotalDonated(ledger) + OrZero(d.amount)
  {
    if ledger != [] {
      assert (ledger + [d])[1..] == ledger[1..] + [d];
      TotalDonatedAppend(ledger[1..], d);
    } else {
      assert [d][1..] == [];
    }
  }

  /** A recorded donation raises the platform total by exactly its amount. */
  lemma RecordedAmountTotalled(ledger: seq<Donation>, r: DonationResponse)
    requires r.DonationCreated?
    ensures TotalDonated(ledger + [LedgerRow(r)]) == TotalDonated(ledger) + r.amount
  {
    TotalDonatedAppend(ledger, LedgerRow(r));
  }

  /** `JSON_LENGTH`: the number of elements of an array, of members of an
      object, and 1 for a scalar. */
  function JsonLength(j: Json): nat
  {
    match j
    case JArr(elems) => |elems|
    case JObj(members) => |members|
    case _ => 1
  }

  /** What one row adds to `SUM(JSON_LENGTH(Supplies)) ... WHERE Supplies IS
      NOT NULL AND JSON_VALID(Supplies)`. */
  function SqlUnits(cell: SuppliesCell): nat
  {
    match cell
    case NullCell => 0
    case BadTextCell => 0
    case ArrayCell(items) => |items|
    case TextCell(parsed) => JsonLength(parsed)
  }

  /** The supply count on a server with JSON functions. */
  function SqlSupplyUnits(ledger: seq<Donation>): (n: int)
    ensures n >= 0
    ensures n == 0 <==> forall d :: d in ledger ==> SqlUnits(d.supplies) == 0
  {
    if ledger == [] then 0
    else
      assert forall d :: d in ledger ==> d == ledger[0] || d in ledger[1..];
      SqlUnits(ledger[0].supplies) + SqlSupplyUnits(ledger[1..])
  }

  /** What one row adds in the fallback loop: `supplies.length` of the parsed
      value. `None` is `undefined` (a number, boolean or object has no
      `length`), which turns the running sum into `NaN`. Text that does not
      parse, and text holding `null` (whose `length` throws), are skipped. */
  function FallbackUnits(cell: SuppliesCell): (u: Option<int>)
    ensures u.Some? ==> u.value >= 0
    ensures u.None? <==> cell.TextCell? && (cell.parsed.JBool? || cell.parsed.JNum? || cell.parsed.JObj?)
    ensures ArrayShaped(cell) ==> u == Some(SqlUnits(cell))
  {
    match cell
    case NullCell => Some(0)
    case BadTextCell => Some(0)
    case ArrayCell(items) => Some(|items|)
    case TextCell(parsed) =>
      match parsed
      case JNull => Some(0)
      case JArr(elems) => Some(|elems|)
      case JStr(s) => Some(Utf16Length(s))
      case _ => None
  }

  /** `+=` on numbers where `None` is `NaN`: `NaN` absorbs everything. */
  function AddUnits(acc: Option<int>, units: Option<int>): Option<int>
  {
    if acc.Some? && units.Some? then Some(acc.value + units.value) else None
  }

  /** The fallback's running sum after the given rows, in query order. */
  function FallbackSupplyUnits(ledger: seq<Donation>): (n: Option<int>)
    ensures n.Some? ==> n.value >= 0
    ensures n.None? <==> exists d :: d in ledger && FallbackUnits(d.supplies).None?
  {
    if ledger == [] then Some(0)
    else
      var init, last := ledger[..|ledger| - 1], ledger[|ledger| - 1];
      assert forall d :: d in ledger <==> d in init || d == last by {
        assert ledger == init + [last];
      }
      AddUnits(FallbackSupplyUnits(init), FallbackUnits(last.supplies))
  }

  /** The fallback's `forEach` over `SELECT Supplies FROM Donations`. */
  method CountSuppliesFallback(ledger: seq<Donation>) returns (n: Option<int>)
    ensures n == FallbackSupplyUnits(ledger)
    ensures n.None? <==> exists d :: d in ledger && FallbackUnits(d.supplies).None?
  {
    n := Some(0);
    var i := 0;
    while i < |ledger|
      invariant 0 <= i <= |ledger|
      invariant n == FallbackSupplyUnits(ledger[..i])
      invariant n.None? <==> exists k :: 0 <= k < i && FallbackUnits(ledger[k].supplies).None?
    {
      assert ledger[..i + 1][..i] == ledger[..i];
      n := AddUnits(n, FallbackUnits(ledger[i].supplies));
      i := i + 1;
    }
    assert ledger[..i] == ledger;
  }

  /** Cells holding an array, as text or natively, or nothing usable. */
  predicate ArrayShaped(cell: SuppliesCell)
  {
    cell.NullCell? || cell.BadTextCell? || cell.ArrayCell? || (cell.TextCell? && cell.parsed.JArr?)
  }

  /** When every row holds an array (as every donation the route records
      does), the fallback and the SQL count agree. */
  lemma {:induction false} FallbackAgreesWithSql(ledger: seq<Donation>)
    requires forall d :: d in ledger ==> ArrayShaped(d.supplies)
    ensures FallbackSupplyUnits(ledger) == Some(SqlSupplyUnits(ledger))
  {
    if ledger != [] {
      var init, last := ledger[..|ledger| - 1], ledger[|ledger| - 1];
      assert forall d :: d in init ==> d in ledger;
      assert last in ledger;
      FallbackAgreesWithSql(init);
      SqlSupplyUnitsAppend(init, last);
      assert init + [last] == ledger;
    }
  }

  lemma {:induction false} SqlSupplyUnitsAppend(ledger: seq<Donation>, d: Donation)
    ensures SqlSupplyUnits(ledger + [d]) == SqlSupplyUnits(ledger) + SqlUnits(d.supplies)
  {
    if ledger != [] {
      assert (ledger + [d])[1..] == ledger[1..] + [d];
      SqlSupplyUnitsAppend(ledger[1..], d);
    } else {
      assert [d][1..] == [];
    }
  }

  /** A recorded donation adds exactly the number of items it listed. */
  lemma RecordedSuppliesCounted(ledger: seq<Donation>, r: DonationResponse)
    requires r.DonationCreated?
    ensures SqlSupplyUnits(ledger + [LedgerRow(r)]) == SqlSupplyUnits(ledger) + |r.supplies|
  {
    SqlSupplyUnitsAppend(ledger, LedgerRow(r));
  }

  /** The two paths differ on text holding a JSON string: the SQL count sees
      one scalar, the fallback counts its characters. */
  lemma PathsDisagreeOnStringText()
    ensures var ledger := [Donation(1, None, TextCell(JStr("abc")), None, None)];
      SqlSupplyUnits(ledger) == 1 && FallbackSupplyUnits(ledger) == Some(3)
  {
    var ledger := [Donation(1, None, TextCell(JStr("abc")), None, None)];
    assert ledger[..0] == [];
  }

  /** `COUNT(DISTINCT Donor) ... WHERE Donor IS NOT NULL`. */
  function DonorIds(ledger: seq<Donation>): set<int>
  {
    set d | d in ledger && d.donor.Some? :: d.donor.value
  }

  /** The ids of the users `GET /top-donators` groups. */
  function DonatedUserIds(users: seq<User>, ledger: seq<Donation>): set<int>
  {
    set u | u in users && HasDonated(ledger, u.id) :: u.id
  }

  lemma {:induction false} GroupsCountDonors(users: seq<User>, ledger: seq<Donation>)
    requires UserIdsUnique(users)
    ensures |Groups(users, ledger)| == |DonatedUserIds(users, ledger)|
  {
    if users != [] {
      var u, rest := users[0], users[1..];
      assert UserIdsUnique(rest) by {
        forall i, j | 0 <= i < j < |rest|
          ensures rest[i].id != rest[j].id
        {
          assert rest[i] == users[i + 1] && rest[j] == users[j + 1];
        }
      }
      GroupsCountDonors(rest, ledger);
      assert u.id !in DonatedUserIds(rest, ledger) by {
        forall v | v in rest
          ensures v.id != u.id
        {
          var k :| 0 <= k < |rest| && rest[k] == v;
          assert users[k + 1] == v;
        }
      }
      assert users == [u] + rest;
      if HasDonated(ledger, u.id) {
        assert DonatedUserIds(users, ledger) == {u.id} + DonatedUserIds(rest, ledger);
      } else {
        assert DonatedUserIds(users, ledger) == DonatedUserIds(rest, ledger);
      }
    }
  }

  /** With the foreign key on `Donor` and unique user ids, the leaderboard has
      exactly as many entries as the statistics count donors. */
  lemma TopDonatorsCountDonors(users: seq<User>, ledger: seq<Donation>)
    requires UserIdsUnique(users)
    requires forall d :: d in ledger && d.donor.Some? ==> UserExists(users, d.donor.value)
    ensures |TopDonators(users, ledger)| == |DonorIds(ledger)|
  {
    GroupsCountDonors(users, ledger);
    assert DonatedUserIds(users, ledger) == DonorIds(ledger) by {
      forall id | id in DonorIds(ledger)
        ensures id in DonatedUserIds(users, ledger)
      {
        var d :| d in ledger && d.donor == Some(id);
        var u :| u in users && u.id == id;
      }
    }
  }

  datatype PlatformStats = PlatformStats(
    totalDonations: int,
    numberOfSupplies: Option<int>,
    donors: int,
    activeCampaigns: int)

  datatype StatsResponse = StatsOk(stats: PlatformStats) | StatsFailed(failure: Failure)

  /** `GET /`: the four figures; the supply count falls back to the loop when
      the JSON query fails (`jsonFunctions` is false), where `None` is the
      `NaN` that `res.json` sends as `null`. `activeCampaigns` counts every
      campaign row. */
  method GetStats(db: Store, jsonFunctions: bool, storageFails: bool) returns (r: StatsResponse)
    requires db.Valid()
    ensures r.StatsOk? <==> !storageFails
    ensures storageFails ==> r == StatsFailed(InternalError)
    ensures r.StatsOk? ==> r.stats.totalDonations >= 0 && r.stats.donors >= 0 && r.stats.activeCampaigns >= 0
    ensures r.StatsOk? && jsonFunctions ==> r.stats.numberOfSupplies.Some?
    ensures r.StatsOk? && r.stats.numberOfSupplies.Some? ==> r.stats.numberOfSupplies.value >= 0
    ensures r.StatsOk? ==>
              && r.stats.totalDonations == TotalDonated(db.donations)
              && r.stats.numberOfSupplies == (if jsonFunctions then Some(SqlSupplyUnits(db.donations))
                                             else FallbackSupplyUnits(db.donations))
              && r.stats.donors == |DonorIds(db.donations)|
              && r.stats.activeCampaigns == |db.campaigns|
  {
    if storageFails {
      return StatsFailed(InternalError);
    }
    var supplies: Option<int>;
    if jsonFunctions {
      supplies := Some(SqlSupplyUnits(db.donations));
    } else {
      supplies := CountSuppliesFallback(db.donations);
    }
    r := StatsOk(PlatformStats(TotalDonated(db.donations), supplies, |DonorIds(db.donations)|, |db.campaigns|));
  }
}
