/**
  The records the application passes around (types/index.ts) and the row shapes of
  the three tables (`profiles`, `images`, `transactions`), plus the outcome of one
  remote call and the JSON envelope the route handlers answer with.
 */
module Types {
  import opened Wrappers

  /** The outcome of one call to the hosted store or another remote service. */
  datatype Call =
    | Answered                       // the call returned without an error
    | ErrorReply(message: string)    // the call returned `{ error }`
    | Thrown(message: string)        // the call threw an `Error` with this message

  /** The three image models offered to users. */
  datatype ModelType = IguanaFast | IguanaSketch | IguanaPro {
    /** The model's string identifier. */
    function Id(): string {
      match this
      case IguanaFast => "iguana-fast"
      case IguanaSketch => "iguana-sketch"
      case IguanaPro => "iguana-pro"
    }
  }

  /** Reads a model identifier sent by a client; None for any other string. */
  function ParseModelType(s: string): (r: Option<ModelType>)
    ensures r.Some? ==> r.value.Id() == s
  {
    if s == "iguana-fast" then Some(IguanaFast)
    else if s == "iguana-sketch" then Some(IguanaSketch)
    else if s == "iguana-pro" then Some(IguanaPro)
    else None
  }

  /** Every identifier is read back as its own model. */
  lemma ParseModelTypeId(m: ModelType)
    ensures ParseModelType(m.Id()) == Some(m)
  {
    match m
    case IguanaFast =>
    case IguanaSketch =>
      assert "iguana-sketch" != "iguana-fast";
    case IguanaPro =>
      assert "iguana-pro" != "iguana-fast";
      assert "iguana-pro" != "iguana-sketch";
  }

  datatype TransactionStatus = Pending | Completed | Failed

  /** A row of `transactions`. `id` and `createdAt` come from the store's clock. */
  datatype TransactionRow = TransactionRow(
    id: nat,
    userId: string,
    amount: int,
    credits: int,
    status: TransactionStatus,
    paymentIntent: Option<string>,
    createdAt: nat)

  /** A row of `images`. The column `model` is free text. */
  datatype ImageRow = ImageRow(
    id: nat,
    userId: string,
    prompt: string,
    model: string,
    imageUrl: string,
    createdAt: nat)

  /** A row of `profiles`; `credits` is a nullable column. */
  datatype Profile = Profile(
    id: string,
    username: Option<string>,
    fullName: Option<string>,
    credits: Option<int>,
    createdAt: nat)

  /** The signed-in user the client keeps in memory. */
  datatype User = User(
    id: string,
    email: string,
    username: Option<string>,
    fullName: Option<string>,
    credits: Option<int>,
    createdAt: nat)

  /**
    A credits value as arithmetic and comparisons see it: JavaScript turns `null` into 0,
    both in `profile.credits || 0` and in `null < cost`.
   */
  function Balance(credits: Option<int>): int {
    credits.GetOr(0)
  }

  /** JavaScript truthiness of an optional string field: present and non-empty. */
  predicate Truthy(s: Option<string>) {
    s.Some? && s.value != ""
  }

  /**
    The JSON envelope of a route handler: `{ success: true, data }` with status 200, or
    `{ success: false, error }` with the given status.
   */
  datatype Response<T> = Success(data: T) | Failure(status: nat, error: string)
}
