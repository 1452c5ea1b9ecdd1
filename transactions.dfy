/**
  The credit ledger (app/api/transactions/route.ts): POST records a purchase and adds its
  credits to the buyer's balance; GET lists a user's transactions, newest first.
 */
module TransactionsRoute {
  import opened Wrappers
  import opened Types
  import opened Store
  import Listing

  /** The JSON body of a purchase; an absent field is None. */
  datatype PurchaseRequest = PurchaseRequest(
    userId: Option<string>,
    amount: Option<int>,
    credits: Option<int>,
    paymentIntent: Option<string>)

  /** What each store call of one POST returns, in the order they are made. */
  datatype PurchaseCalls = PurchaseCalls(lookup: Call, insert: Call, profileRead: Call, update: Call)

  /** The `data` of a successful POST. */
  datatype Purchase =
    | Recorded(transaction: TransactionRow, newCreditBalance: int)
    // `alreadyProcessed: true`; the stored balance is sent as `newCreditBalance`
    | AlreadyProcessed(transactionId: nat, storedCredits: Option<int>)

  /** The idempotency key used when the body has none. */
  const DefaultPaymentIntent: string := "cash"

  /** The destructuring default: an absent payment intent is `"cash"`, a present one is kept as sent. */
  function PaymentIntentOf(req: PurchaseRequest): (intent: string)
    ensures req.paymentIntent.Some? ==> intent == req.paymentIntent.value
    ensures req.paymentIntent.None? ==> intent == DefaultPaymentIntent
  {
    req.paymentIntent.GetOr(DefaultPaymentIntent)
  }

  /** `userId` is truthy and `amount`, `credits` are not undefined (zero passes). */
  predicate HasRequiredFields(req: PurchaseRequest) {
    Truthy(req.userId) && req.amount.Some? && req.credits.Some?
  }

  function IsPurchaseOf(userId: string, intent: string): TransactionRow -> bool {
    (t: TransactionRow) => t.userId == userId && t.paymentIntent == Some(intent)
  }

  /** The result of the duplicate check, `.select("id")...maybeSingle()`. */
  datatype Lookup = Found(id: nat) | NotFound | LookupFailed | LookupThrew(message: string)

  /**
    The duplicate check on `(userId, paymentIntent)`. `maybeSingle` reports an error when more
    than one row matches, so a key that already has two rows is never found again.
   */
  function DuplicateLookup(txs: seq<TransactionRow>, userId: string, intent: string, call: Call): (r: Lookup)
    ensures call.Thrown? <==> r.LookupThrew?
    ensures r.Found? <==> call.Answered? && |Listing.Filter(txs, IsPurchaseOf(userId, intent))| == 1
    ensures r.Found? ==> exists t :: t in txs && t.id == r.id && t.userId == userId && t.paymentIntent == Some(intent)
    ensures r.NotFound? <==> call.Answered? && forall t :: t in txs ==> !(t.userId == userId && t.paymentIntent == Some(intent))
  {
    var matches := Listing.Filter(txs, IsPurchaseOf(userId, intent));
    match call
    case Thrown(m) => LookupThrew(m)
    case ErrorReply(_) => LookupFailed
    case Answered =>
      if |matches| == 0 then NotFound
      else if |matches| == 1 then (assert matches[0] in matches; Found(matches[0].id))
      else (assert matches[0] in matches; LookupFailed)
  }

  /** The result of `.select("credits").eq("id", userId).single()`. */
  datatype CreditsRead = Read(credits: Option<int>) | ReadFailed | ReadThrew(message: string)

  /** Reading the balance: `single()` fails when there is no such profile. */
  function ReadCredits(profiles: map<string, Profile>, userId: string, call: Call): (r: CreditsRead)
    ensures r.Read? <==> call.Answered? && userId in profiles
    ensures r.Read? ==> r.credits == profiles[userId].credits
    ensures r.ReadThrew? <==> call.Thrown?
  {
    match call
    case Thrown(m) => ReadThrew(m)
    case ErrorReply(_) => ReadFailed
    case Answered => if userId in profiles then Read(profiles[userId].credits) else ReadFailed
  }

  /** The 500 answer for a failed store call: the thrown message, else the handler's own text. */
  function StoreFailure(call: Call, text: string): Response<Purchase> {
    if call.Thrown? then Failure(500, call.message) else Failure(500, text)
  }

  /** The transaction history of a user as GET returns it. */
  function CreatedAt(t: TransactionRow): int { t.createdAt }

  function OwnedBy(userId: string): TransactionRow -> bool {
    (t: TransactionRow) => t.userId == userId
  }

  /**
    The insert-and-credit part of POST, from the state before it (`p0`, `t0`, `clock0`) to the
    state after it (`p1`, `t1`, `clock1`) and the answer `res`: the insert either fails and nothing
    changes, or exactly one completed row is appended and stays whatever happens next; the balance
    is then read and written back as old balance + credits, each step with its own 500 exit.
   */
  ghost predicate InsertPath(p0: map<string, Profile>, t0: seq<TransactionRow>, clock0: nat,
                             p1: map<string, Profile>, t1: seq<TransactionRow>, clock1: nat,
                             u: string, a: int, c: int, intent: string, calls: PurchaseCalls,
                             res: Response<Purchase>)
  {
    var row := TransactionRow(clock0, u, a, c, Completed, Some(intent), clock0);
    var read := ReadCredits(p0, u, calls.profileRead);
    if !calls.insert.Answered? || u !in p0 then
      // The insert failed (the foreign key also rejects a user without a profile).
      p1 == p0 && t1 == t0 && clock1 == clock0 && res == StoreFailure(calls.insert, "Failed to create transaction")
    else
      && t1 == t0 + [row] && clock1 == clock0 + 1
      && match read
         case Read(cr) =>
           var sum := Balance(cr) + c;
           if calls.update.Answered? then
             p1 == p0[u := p0[u].(credits := Some(sum))] && res == Success(Recorded(row, sum))
           else
             p1 == p0 && res == StoreFailure(calls.update, "Failed to update user credits")
         case _ =>
           p1 == p0 && res == StoreFailure(calls.profileRead, "Failed to fetch user profile")
  }

  /**
    POST /api/transactions. Each store call's outcome is given by `calls`; nothing is rolled
    back when a later step fails.
   */
  method Post(db: Database, req: PurchaseRequest, calls: PurchaseCalls) returns (res: Response<Purchase>)
    requires db.Valid()
    modifies db
    ensures db.Valid() && db.images == old(db.images)
    // Validation: 400 and no table touched.
    ensures !HasRequiredFields(req) ==>
      res == Failure(400, "Missing required fields") && unchanged(db)
    ensures HasRequiredFields(req) ==>
      var u, a, c, intent := req.userId.value, req.amount.value, req.credits.value, PaymentIntentOf(req);
      // An empty payment intent is falsy and skips the duplicate check.
      var lookup := if intent != "" then DuplicateLookup(old(db.transactions), u, intent, calls.lookup) else NotFound;
      match lookup
      case LookupThrew(m) =>
        // The duplicate check threw: 500, nothing changes.
        res == Failure(500, m) && unchanged(db)
      case Found(id) =>
        // A duplicate: the stored balance is reported and nothing changes.
        && unchanged(db)
        && res == (match ReadCredits(old(db.profiles), u, calls.profileRead)
                   case Read(cr) => Success(AlreadyProcessed(id, cr))
                   case ReadFailed => Failure(500, "Failed to fetch user profile")
                   case ReadThrew(m) => Failure(500, m))
      case _ =>
        // No duplicate seen, or the check failed and was only logged: insert and credit.
        InsertPath(old(db.profiles), old(db.transactions), old(db.clock),
                   db.profiles, db.transactions, db.clock, u, a, c, intent, calls, res)
  {
    if !HasRequiredFields(req) {
      return Failure(400, "Missing required fields");
    }
    var u, a, c, intent := req.userId.value, req.amount.value, req.credits.value, PaymentIntentOf(req);

    if intent != "" {
      var lookup := DuplicateLookup(db.transactions, u, intent, calls.lookup);
      match lookup {
        case LookupThrew(m) =>
          return Failure(500, m);
        case LookupFailed =>
          // Logged only; the purchase goes on.
        case NotFound =>
        case Found(id) =>
          var read := ReadCredits(db.profiles, u, calls.profileRead);
          match read {
            case Read(cr) => return Success(AlreadyProcessed(id, cr));
            case ReadFailed => return Failure(500, "Failed to fetch user profile");
            case ReadThrew(m) => return Failure(500, m);
          }
      }
    }
    res := RecordNew(db, u, a, c, intent, calls);
  }

  /** Steps 2 and 3 of POST: the insert, then the balance read and write-back. */
  method RecordNew(db: Database, u: string, a: int, c: int, intent: string, calls: PurchaseCalls)
    returns (res: Response<Purchase>)
    requires db.Valid()
    modifies db
    ensures db.Valid() && db.images == old(db.images)
    ensures InsertPath(old(db.profiles), old(db.transactions), old(db.clock),
                       db.profiles, db.transactions, db.clock, u, a, c, intent, calls, res)
  {
    if !calls.insert.Answered? || u !in db.profiles {
      return StoreFailure(calls.insert, "Failed to create transaction");
    }
    var row := db.InsertTransaction(u, a, c, Completed, Some(intent));

    var read := ReadCredits(db.profiles, u, calls.profileRead);
    if !read.Read? {
      return StoreFailure(calls.profileRead, "Failed to fetch user profile");
    }
    var currentCredits := Balance(read.credits);
    var newCredits := currentCredits + c;

    if !calls.update.Answered? {
      return StoreFailure(calls.update, "Failed to update user credits");
    }
    db.UpdateCredits(u, newCredits);
    return Success(Recorded(row, newCredits));
  }

  /**
    Ledger consistency. A purchase that completes every step keeps the buyer's drift
    (balance minus completed credits); one that fails after the insert shifts it by the
    purchased credits, the inconsistency the handler leaves behind.
   */
  lemma InsertPathDrift(p0: map<string, Profile>, t0: seq<TransactionRow>, clock0: nat,
                        p1: map<string, Profile>, t1: seq<TransactionRow>, clock1: nat,
                        u: string, a: int, c: int, intent: string, calls: PurchaseCalls,
                        res: Response<Purchase>)
    requires InsertPath(p0, t0, clock0, p1, t1, clock1, u, a, c, intent, calls, res)
    ensures u in p0 <==> u in p1
    ensures u in p0 && res.Success? ==> res.data.Recorded? && Drift(p1, t1, u) == Drift(p0, t0, u)
    ensures u in p0 && res.Failure? && t1 != t0 ==> Drift(p1, t1, u) == Drift(p0, t0, u) - c
    ensures u in p0 && t1 == t0 ==> Drift(p1, t1, u) == Drift(p0, t0, u)
  {
    if calls.insert.Answered? && u in p0 {
      var row := TransactionRow(clock0, u, a, c, Completed, Some(intent), clock0);
      CompletedCreditsAppend(t0, row, u);
      assert t1 != t0 by { assert |t1| == |t0| + 1; }
    }
  }

  /** A recorded purchase heads its buyer's history, before everything listed earlier. */
  lemma RecordedPurchaseHeadsHistory(p0: map<string, Profile>, t0: seq<TransactionRow>, clock0: nat,
                                     p1: map<string, Profile>, t1: seq<TransactionRow>, clock1: nat,
                                     u: string, a: int, c: int, intent: string, calls: PurchaseCalls,
                                     res: Response<Purchase>)
    requires InsertPath(p0, t0, clock0, p1, t1, clock1, u, a, c, intent, calls, res)
    requires forall k :: 0 <= k < |t0| ==> t0[k].createdAt < clock0
    requires res.Success?
    ensures res.data.Recorded? && res.data.transaction.userId == u
    ensures Listing.Query(t1, OwnedBy(u), CreatedAt) == [res.data.transaction] + Listing.Query(t0, OwnedBy(u), CreatedAt)
  {
    var row := TransactionRow(clock0, u, a, c, Completed, Some(intent), clock0);
    assert calls.insert.Answered? && u in p0;
    assert t1 == t0 + [row];
    assert res.data.Recorded? && res.data.transaction == row;
    assert OwnedBy(u)(row);
    assert forall k :: 0 <= k < |t0| ==> CreatedAt(t0[k]) < CreatedAt(row);
    Listing.QueryAfterAppend(t0, row, OwnedBy(u), CreatedAt);
  }

  /**
    Idempotency: once a purchase with a fresh `(userId, paymentIntent)` has inserted its row,
    the duplicate check of a repeated request finds exactly that row.
   */
  lemma {:induction false} RepeatFindsRecordedPurchase(p0: map<string, Profile>, t0: seq<TransactionRow>, clock0: nat,
                                    p1: map<string, Profile>, t1: seq<TransactionRow>, clock1: nat,
                                    u: string, a: int, c: int, intent: string, calls: PurchaseCalls,
                                    res: Response<Purchase>)
    requires InsertPath(p0, t0, clock0, p1, t1, clock1, u, a, c, intent, calls, res)
    requires DuplicateLookup(t0, u, intent, Answered) == NotFound
    requires t1 != t0
    ensures DuplicateLookup(t1, u, intent, Answered) == Found(clock0)
  {
    var row := TransactionRow(clock0, u, a, c, Completed, Some(intent), clock0);
    assert calls.insert.Answered? && u in p0;
    assert t1 == t0 + [row];
    var p := IsPurchaseOf(u, intent);
    Listing.FilterConcat(t0, [row], p);
    assert Listing.Filter(t0, p) == [];
    assert Listing.Filter([row], p) == [row];
  }

  /**
    A purchase scenario: an account with the starting 16 credits buys
    150 credits (`"pay_1"`, 12 paid) and ends at 166; the identical request repeated is
    reported as already processed with the same balance.
   */
  method PurchaseScenario() returns (first: Response<Purchase>, second: Response<Purchase>)
    ensures first == Success(Recorded(TransactionRow(1, "u1", 12, 150, Completed, Some("pay_1"), 1), 166))
    ensures second == Success(AlreadyProcessed(1, Some(166)))
  {
    var db := new Database();
    var ok := db.HandleNewUser("u1", "u1@example.com", None);
    assert ok && db.profiles == map["u1" := NewUserProfile("u1", "u1@example.com", None, 0)];
    var req := PurchaseRequest(Some("u1"), Some(12), Some(150), Some("pay_1"));
    var calls := PurchaseCalls(Answered, Answered, Answered, Answered);
    assert DuplicateLookup(db.transactions, "u1", "pay_1", Answered) == NotFound;
    first := Post(db, req, calls);
    assert db.transactions == [TransactionRow(1, "u1", 12, 150, Completed, Some("pay_1"), 1)];
    RepeatFindsRecordedPurchase(map["u1" := NewUserProfile("u1", "u1@example.com", None, 0)], [], 1,
                                db.profiles, db.transactions, db.clock, "u1", 12, 150, "pay_1", calls, first);
    assert db.profiles["u1"].credits == Some(166);
    second := Post(db, req, calls);
  }

  /**
    GET /api/transactions?userId=...: exactly the user's transactions, newest first.
   */
  function Get(txs: seq<TransactionRow>, userId: Option<string>, call: Call): (r: Response<seq<TransactionRow>>)
    ensures !Truthy(userId) ==> r == Failure(400, "User ID is required")
    ensures Truthy(userId) && call.ErrorReply? ==> r == Failure(500, "Failed to fetch transactions")
    ensures Truthy(userId) && call.Thrown? ==> r == Failure(500, "Internal server error")
    ensures Truthy(userId) && call.Answered? ==>
      && r.Success?
      && Listing.NewestFirst(r.data, CreatedAt)
      && (forall t :: t in r.data <==> t in txs && t.userId == userId.value)
      && (forall t :: multiset(r.data)[t] == if t.userId == userId.value then multiset(txs)[t] else 0)
  {
    if !Truthy(userId) then Failure(400, "User ID is required")
    else match call
      case ErrorReply(_) => Failure(500, "Failed to fetch transactions")
      case Thrown(_) => Failure(500, "Internal server error")
      case Answered => Success(Listing.Query(txs, OwnedBy(userId.value), CreatedAt))
  }
}
