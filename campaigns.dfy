/** The campaign routes: list, create (any logged-in user), update and delete
    (administrators only). */
module Campaigns {
  import opened Common
  import opened Database
  import opened Middleware

  const NotFoundError: string := "Campaign not found."
  const UpdatedMessage: string := "Campaign updated successfully."
  const DeletedMessage: string := "Campaign deleted successfully."

  /** The fields of a create or update request body; a missing field is `None`
      and is bound as SQL NULL. `id` is an `id` member the body may carry:
      no statement reads it, but the create response spreads the body. */
  datatype CampaignBody = CampaignBody(
    id: Option<Json>,
    title: Option<string>,
    location: Option<string>,
    urgency: Option<string>,
    description: Option<string>,
    image: Option<string>,
    goal: Option<int>,
    due: Option<string>)

  /** The body can be written: `Title` and `Goal` are `NOT NULL`, the goal
      fits `DECIMAL(15, 2)`, and `Title`, `Location` and `Image` fit
      `VARCHAR(255)` and `Urgency` fits `VARCHAR(50)`. */
  predicate Storable(body: CampaignBody)
  {
    && body.title.Some? && FitsVarchar(body.title.value, 255)
    && FitsOptionalVarchar(body.location, 255)
    && FitsOptionalVarchar(body.urgency, 50)
    && FitsOptionalVarchar(body.image, 255)
    && body.goal.Some? && FitsDecimal(body.goal.value)
  }

  datatype CampaignRow = CampaignRow(id: int, campaign: Campaign)

  /** `GET /`: `SELECT * FROM Campaigns`, every row and nothing else, flagged
      ones included. */
  function ListCampaigns(campaigns: map<int, Campaign>): (rows: set<CampaignRow>)
    ensures forall id :: id in campaigns ==> CampaignRow(id, campaigns[id]) in rows
    ensures forall row :: row in rows ==> row.id in campaigns && row.campaign == campaigns[row.id]
  {
    set id | id in campaigns :: CampaignRow(id, campaigns[id])
  }

  /** The row `INSERT INTO Campaigns (..., CurrentAmount, ...) VALUES (..., 0.00, ...)` adds. */
  function NewCampaign(body: CampaignBody): (c: Campaign)
    requires Storable(body)
    ensures c.currentAmount == Some(0) && c.isDeleted == None
    ensures c.title == body.title.value && c.goal == body.goal.value
    ensures c.location == body.location && c.urgency == body.urgency
    ensures c.description == body.description && c.image == body.image && c.due == body.due
  {
    Campaign(body.title.value, body.location, body.urgency, body.description, body.image,
             body.goal.value, Some(0), body.due, None)
  }

  /** `UPDATE Campaigns SET Title = ?, ..., Due = ?`: the seven descriptive
      fields are overwritten; the running total and the flag are kept. */
  function ApplyUpdate(c: Campaign, body: CampaignBody): (u: Campaign)
    requires Storable(body)
    ensures u.currentAmount == c.currentAmount && u.isDeleted == c.isDeleted
    ensures u.title == body.title.value && u.location == body.location && u.urgency == body.urgency
    ensures u.description == body.description && u.image == body.image
    ensures u.goal == body.goal.value && u.due == body.due
  {
    c.(title := body.title.value, location := body.location, urgency := body.urgency,
       description := body.description, image := body.image, goal := body.goal.value, due := body.due)
  }

  /** Updating a campaign twice with the same body changes nothing the second time. */
  lemma ApplyUpdateIdempotent(c: Campaign, body: CampaignBody)
    requires Storable(body)
    ensures ApplyUpdate(ApplyUpdate(c, body), body) == ApplyUpdate(c, body)
  {
  }

  /** `{ id: Number(result.insertId), ...req.body, CurrentAmount: 0.00 }`:
      the body's own `id`, when it has one, replaces the new id. */
  datatype CreateResponse =
    | CampaignCreated(id: Json, body: CampaignBody, currentAmount: int)
    | CreateFailed(failure: Failure)

  /** The `id` the create response carries: the spread body's `id` overrides
      the insert id that precedes it. */
  function EchoedId(body: CampaignBody, insertId: int): (id: Json)
    ensures body.id.None? ==> id == JNum(insertId)
    ensures body.id.Some? ==> id == body.id.value
  {
    match body.id
    case None => JNum(insertId)
    case Some(j) => j
  }

  /** `POST /` behind `login_required`: inserts the campaign with a zero total
      and echoes the body with the new id. */
  method CreateCampaign(db: Store, session: Session?, body: CampaignBody, storageFails: bool)
    returns (r: CreateResponse)
    requires db.Valid()
    modifies db
    ensures db.Valid()
    ensures old(db.Conserved()) ==> db.Conserved()
    ensures !LoginRequired(session).Next? ==> r == CreateFailed(GuardFailure(LoginRequired(session)))
    ensures r.CampaignCreated? <==>
              LoginRequired(session).Next? && !storageFails && db.hasCurrentAmountColumn && Storable(body)
    ensures LoginRequired(session).Next? && !r.CampaignCreated? ==> r == CreateFailed(InternalError)
    ensures r.CampaignCreated? ==>
              && r == CampaignCreated(EchoedId(body, old(db.nextCampaignId)), body, 0)
              && db.Snapshot() == old(db.Snapshot()).(
                   campaigns := old(db.campaigns)[old(db.nextCampaignId) := NewCampaign(body)],
                   nextCampaignId := old(db.nextCampaignId) + 1)
    ensures !r.CampaignCreated? ==> db.Snapshot() == old(db.Snapshot())
  {
    var guard := LoginRequired(session);
    if !guard.Next? {
      return CreateFailed(GuardFailure(guard));
    }
    if storageFails || !db.hasCurrentAmountColumn || !Storable(body) {
      return CreateFailed(InternalError);
    }
    var id := db.nextCampaignId;
    forall d | d in db.donations
      ensures d.campaignId != Some(id)
    {
      assert ForeignKeysHold(d, db.users, db.campaigns);
    }
    CampaignTotalUnreferenced(db.donations, id);
    db.campaigns := db.campaigns[id := NewCampaign(body)];
    db.nextCampaignId := id + 1;
    r := CampaignCreated(EchoedId(body, id), body, 0);
  }

  datatype UpdateResponse = CampaignUpdated(message: string) | UpdateFailed(failure: Failure)

  /** `POST /:id` behind `admin_required`: overwrites the descriptive fields
      of the campaign with that id; 404 when no row matches. */
  method UpdateCampaign(db: Store, session: Session?, id: int, body: CampaignBody, storageFails: bool)
    returns (r: UpdateResponse)
    requires db.Valid()
    modifies db
    ensures db.Valid()
    ensures old(db.Conserved()) ==> db.Conserved()
    ensures !AdminRequired(session).Next? ==> r == UpdateFailed(GuardFailure(AdminRequired(session)))
    ensures AdminRequired(session).Next? && storageFails ==> r == UpdateFailed(InternalError)
    ensures AdminRequired(session).Next? && !storageFails && id !in old(db.campaigns) ==>
              r == UpdateFailed(HttpError(404, NotFoundError))
    ensures AdminRequired(session).Next? && !storageFails && id in old(db.campaigns) && !Storable(body) ==>
              r == UpdateFailed(InternalError)
    ensures r.CampaignUpdated? <==>
              AdminRequired(session).Next? && !storageFails && id in old(db.campaigns) && Storable(body)
    ensures r.CampaignUpdated? ==>
              && r.message == UpdatedMessage
              && db.Snapshot() == old(db.Snapshot()).(
                   campaigns := old(db.campaigns)[id := ApplyUpdate(old(db.campaigns)[id], body)])
    ensures !r.CampaignUpdated? ==> db.Snapshot() == old(db.Snapshot())
  {
    var guard := AdminRequired(session);
    if !guard.Next? {
      return UpdateFailed(GuardFailure(guard));
    }
    if storageFails {
      return UpdateFailed(InternalError);
    }
    if id !in db.campaigns {
      return UpdateFailed(HttpError(404, NotFoundError));
    }
    if !Storable(body) {
      return UpdateFailed(InternalError);
    }
    db.campaigns := db.campaigns[id := ApplyUpdate(db.campaigns[id], body)];
    r := CampaignUpdated(UpdatedMessage);
  }

  datatype DeleteResponse = CampaignDeleted(message: string) | DeleteFailed(failure: Failure)

  /** `DELETE /:id` behind `admin_required`: removes the row, and with the
      cascading foreign key its donations; without it, a referenced campaign
      cannot be deleted. */
  method DeleteCampaign(db: Store, session: Session?, id: int, storageFails: bool)
    returns (r: DeleteResponse)
    requires db.Valid()
    modifies db
    ensures db.Valid()
    ensures old(db.Conserved()) ==> db.Conserved()
    ensures !AdminRequired(session).Next? ==> r == DeleteFailed(GuardFailure(AdminRequired(session)))
    ensures AdminRequired(session).Next? && storageFails ==> r == DeleteFailed(InternalError)
    ensures AdminRequired(session).Next? && !storageFails && id !in old(db.campaigns) ==>
              r == DeleteFailed(HttpError(404, NotFoundError))
    ensures AdminRequired(session).Next? && !storageFails && id in old(db.campaigns)
            && !old(db.cascadeOnDelete) && Referenced(old(db.donations), id) ==>
              r == DeleteFailed(InternalError)
    ensures r.CampaignDeleted? <==>
              && AdminRequired(session).Next? && !storageFails && id in old(db.campaigns)
              && (old(db.cascadeOnDelete) || !Referenced(old(db.donations), id))
    ensures r.CampaignDeleted? ==>
              && r.message == DeletedMessage
              && db.Snapshot() == old(db.Snapshot()).(
                   campaigns := old(db.campaigns) - {id},
                   donations := WithoutCampaign(old(db.donations), id))
    ensures !r.CampaignDeleted? ==> db.Snapshot() == old(db.Snapshot())
  {
    var guard := AdminRequired(session);
    if !guard.Next? {
      return DeleteFailed(GuardFailure(guard));
    }
    if storageFails {
      return DeleteFailed(InternalError);
    }
    if id !in db.campaigns {
      return DeleteFailed(HttpError(404, NotFoundError));
    }
    if !db.cascadeOnDelete && Referenced(db.donations, id) {
      return DeleteFailed(InternalError);
    }
    var before := db.donations;
    WithoutCampaignAscending(before, id);
    forall other | other in db.campaigns && other != id
      ensures CampaignTotal(WithoutCampaign(before, id), other) == CampaignTotal(before, other)
    {
      CascadeKeepsOtherTotals(before, id, other);
    }
    db.campaigns := db.campaigns - {id};
    db.donations := WithoutCampaign(before, id);
    r := CampaignDeleted(DeletedMessage);
  }
}
