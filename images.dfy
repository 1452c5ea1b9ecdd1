/** Saved images (app/api/images/route.ts): POST stores one image row, GET lists a user's images. */
module ImagesRoute {
  import opened Wrappers
  import opened Types
  import opened Store
  import Listing

  /** The JSON body of POST /api/images; an absent field is None. */
  datatype SaveRequest = SaveRequest(
    userId: Option<string>,
    prompt: Option<string>,
    model: Option<string>,
    imageUrl: Option<string>)

  /** All four fields are truthy. */
  predicate HasRequiredFields(req: SaveRequest) {
    Truthy(req.userId) && Truthy(req.prompt) && Truthy(req.model) && Truthy(req.imageUrl)
  }

  /**
    POST /api/images. `insert` is the outcome of the insert call; the foreign key on
    `user_id` also rejects a user without a profile. A thrown error reaches the outer
    handler, which answers "Internal server error".
   */
  method Post(db: Database, req: SaveRequest, insert: Call) returns (res: Response<ImageRow>)
    requires db.Valid()
    modifies db
    ensures db.Valid()
    ensures db.profiles == old(db.profiles) && db.transactions == old(db.transactions)
    ensures !HasRequiredFields(req) ==> res == Failure(400, "Missing required fields") && unchanged(db)
    ensures HasRequiredFields(req) ==>
      var row := ImageRow(old(db.clock), req.userId.value, req.prompt.value, req.model.value, req.imageUrl.value,
                          old(db.clock));
      if insert.Answered? && req.userId.value in old(db.profiles) then
        res == Success(row) && db.images == old(db.images) + [row] && db.clock == old(db.clock) + 1
      else
        && unchanged(db)
        && res == Failure(500, if insert.Thrown? then "Internal server error" else "Failed to save image")
  {
    if !HasRequiredFields(req) {
      return Failure(400, "Missing required fields");
    }
    if insert.Thrown? {
      return Failure(500, "Internal server error");
    }
    if insert.ErrorReply? || req.userId.value !in db.profiles {
      return Failure(500, "Failed to save image");
    }
    var row := db.InsertImage(req.userId.value, req.prompt.value, req.model.value, req.imageUrl.value);
    return Success(row);
  }

  function CreatedAt(r: ImageRow): int { r.createdAt }

  function OwnedBy(userId: string): ImageRow -> bool {
    (r: ImageRow) => r.userId == userId
  }

  /** GET /api/images?userId=...: exactly the user's image rows, newest first. */
  function Get(rows: seq<ImageRow>, userId: Option<string>, call: Call): (r: Response<seq<ImageRow>>)
    ensures !Truthy(userId) ==> r == Failure(400, "User ID is required")
    ensures Truthy(userId) && call.ErrorReply? ==> r == Failure(500, "Failed to fetch images")
    ensures Truthy(userId) && call.Thrown? ==> r == Failure(500, "Internal server error")
    ensures Truthy(userId) && call.Answered? ==>
      && r.Success?
      && Listing.NewestFirst(r.data, CreatedAt)
      && (forall x :: x in r.data <==> x in rows && x.userId == userId.value)
      && (forall x :: multiset(r.data)[x] == if x.userId == userId.value then multiset(rows)[x] else 0)
  {
    if !Truthy(userId) then Failure(400, "User ID is required")
    else match call
      case ErrorReply(_) => Failure(500, "Failed to fetch images")
      case Thrown(_) => Failure(500, "Internal server error")
      case Answered => Success(Listing.Query(rows, OwnedBy(userId.value), CreatedAt))
  }

  /** A saved image is listed first for its owner, before everything listed earlier. */
  lemma SavedImageListedFirst(rows: seq<ImageRow>, row: ImageRow)
    requires forall k :: 0 <= k < |rows| ==> rows[k].createdAt < row.createdAt
    requires row.userId != ""
    ensures Get(rows + [row], Some(row.userId), Answered)
         == Success([row] + Listing.Query(rows, OwnedBy(row.userId), CreatedAt))
  {
    assert forall k :: 0 <= k < |rows| ==> CreatedAt(rows[k]) < CreatedAt(row);
    Listing.QueryAfterAppend(rows, row, OwnedBy(row.userId), CreatedAt);
  }

  /** Saving an image leaves every other user's listing as it was. */
  lemma SavedImageHiddenFromOthers(rows: seq<ImageRow>, row: ImageRow, other: string)
    requires other != row.userId
    ensures Get(rows + [row], Some(other), Answered) == Get(rows, Some(other), Answered)
  {
    Listing.QueryAfterAppendOther(rows, row, OwnedBy(other), CreatedAt);
  }
}
