/**
  The image playground (app/playground/page.tsx): the cost of a request, the gate that
  allows it, and `handleGenerate`, which requests the images one by one and deducts
  the credits only when every image arrived.
 */
module Playground {
  import opened Wrappers
  import opened Types
  import opened Strings
  import opened Constants
  import opened Store
  import opened AuthContext
  import GenerateImageRoute

  /** The values the image-count selector offers. */
  const ImageCountOptions: seq<string> := ["1", "2", "4"]

  const NotEnoughCredits: string := "Not enough credits. Please purchase more credits to continue."
  const GenerationFailed: string := "Failed to generate images. Please try again."
  const LoginPage: string := "/login"

  /**
    `totalCost`: the model's credit cost times the parsed image count; None stands for
    the NaN that `Number.parseInt` yields when the count has no leading digit.
   */
  function TotalCost(model: ModelType, imageCount: string): (r: Option<int>)
    ensures r.None? <==> imageCount == [] || !IsDigit(imageCount[0])
    ensures r.Some? ==> r.value >= 0
  {
    match ParseInt(imageCount)
    case None => None
    case Some(n) => Some(CreditCost(model) * n)
  }

  /** The cost of n images written in decimal is n times the model's cost. */
  lemma TotalCostOfDecimal(model: ModelType, n: nat)
    ensures TotalCost(model, Decimal(n)) == Some(CreditCost(model) * n)
  {
    ParseIntDecimal(n);
  }

  /** The selectable counts are 1, 2 and 4 images. */
  lemma SelectableCosts(model: ModelType)
    ensures TotalCost(model, ImageCountOptions[0]) == Some(CreditCost(model))
    ensures TotalCost(model, ImageCountOptions[1]) == Some(2 * CreditCost(model))
    ensures TotalCost(model, ImageCountOptions[2]) == Some(4 * CreditCost(model))
  {
    assert Decimal(1) == "1" && Decimal(2) == "2" && Decimal(4) == "4";
    TotalCostOfDecimal(model, 1);
    TotalCostOfDecimal(model, 2);
    TotalCostOfDecimal(model, 4);
  }

  /**
    `canGenerate`: a user is signed in, their credits (null read as 0) cover the cost,
    and the trimmed prompt is non-empty, that is, some character of the prompt is not
    whitespace. A NaN cost fails the comparison.
   */
  predicate CanGenerate(user: Option<User>, cost: Option<int>, prompt: string): (r: bool)
    ensures r <==>
      && user.Some? && cost.Some? && Balance(user.value.credits) >= cost.value
      && exists k :: 0 <= k < |prompt| && !IsWhitespace(prompt[k])
  {
    TrimEmptyIffBlank(prompt);
    user.Some? && cost.Some? && Balance(user.value.credits) >= cost.value && Trim(prompt) != ""
  }

  /** The phrase the page itself appends when auto-enhance is on, the same for every model. */
  const PageEnhancement: string := " (high quality, detailed, professional photography)"

  /**
    The prompt of each request: the typed prompt, kept as a prefix, followed by the
    page's phrase when auto-enhance is on and by nothing otherwise.
   */
  function RequestPrompt(prompt: string, autoEnhance: bool): (r: string)
    ensures prompt <= r
    ensures r[|prompt|..] == if autoEnhance then PageEnhancement else ""
  {
    if autoEnhance then
      assert (prompt + PageEnhancement)[|prompt|..] == PageEnhancement;
      prompt + PageEnhancement
    else
      prompt
  }

  /** One call of the image service: the prompt, the model, and its position in the run. */
  datatype Request = Request(prompt: string, model: ModelType, index: nat)

  /** What `generateImageWithAI` resolves to. */
  datatype ImageResult = ImageResult(success: bool, imageData: Option<string>)

  /** The page accepts a result only when it succeeded and carries non-empty image data. */
  predicate Delivered(r: ImageResult) {
    r.success && Truthy(r.imageData)
  }

  /**
    The generation loop: requests `count` images in order, each with the same prompt and
    model, and stops at the first result that is not delivered. `service` gives the
    result of each request. On success `images` holds the data of every result in order;
    otherwise `sent` requests were made and the last of them failed.
   */
  method GenerateImages(prompt: string, model: ModelType, count: nat, service: Request -> ImageResult)
    returns (images: seq<string>, sent: nat, ok: bool)
    ensures ok <==> forall i :: 0 <= i < count ==> Delivered(service(Request(prompt, model, i)))
    ensures ok ==> sent == count && |images| == count
    ensures ok ==> forall i :: 0 <= i < count ==> images[i] == service(Request(prompt, model, i)).imageData.value
    ensures !ok ==> 0 < sent <= count && !Delivered(service(Request(prompt, model, sent - 1)))
    ensures forall i :: 0 <= i < (if ok then sent else sent - 1) ==> Delivered(service(Request(prompt, model, i)))
  {
    images := [];
    var i := 0;
    while i < count
      invariant 0 <= i <= count
      invariant |images| == i
      invariant forall k :: 0 <= k < i ==> Delivered(service(Request(prompt, model, k)))
      invariant forall k :: 0 <= k < i ==> images[k] == service(Request(prompt, model, k)).imageData.value
    {
      var result := service(Request(prompt, model, i));
      if !Delivered(result) {
        return images, i + 1, false;
      }
      images := images + [result.imageData.value];
      i := i + 1;
    }
    return images, count, true;
  }

  /** The page always sends `autoEnhance: false`, so the route passes the page's prompt to the provider as it is. */
  lemma RouteKeepsPagePrompt(prompt: string, model: ModelType, reply: GenerateImageRoute.ProviderReply)
    requires prompt != ""
    ensures GenerateImageRoute.Handle(GenerateImageRoute.GenerateRequest(Some(prompt), Some(model.Id()), false), reply).1
         == Some(GenerateImageRoute.ProviderCall(GenerateImageRoute.ProviderModel(model), prompt,
                                                 Some(GenerateImageRoute.Config(model))))
  {
    GenerateImageRoute.ProviderCallFor(GenerateImageRoute.GenerateRequest(Some(prompt), Some(model.Id()), false),
                                       model, reply);
  }

  class PlaygroundPage {
    var prompt: string
    var selectedModel: ModelType
    var autoEnhance: bool
    var imageCount: string
    var generating: bool
    var generatedImages: seq<string>
    var error: string
    /** The route the page navigated to, if any. */
    var redirectedTo: Option<string>

    /** The page's initial state. */
    constructor ()
      ensures prompt == "" && selectedModel == IguanaFast && !autoEnhance && imageCount == "1"
      ensures !generating && generatedImages == [] && error == "" && redirectedTo == None
    {
      prompt, selectedModel, autoEnhance, imageCount := "", IguanaFast, false, "1";
      generating, generatedImages, error, redirectedTo := false, [], "", None;
    }

    /**
      `handleGenerate`. With no user, navigates to the login page and does nothing else.
      When the gate is closed, only sets the credits error, and only when the credits are
      below a numeric cost. Otherwise requests the images; if all arrive, shows exactly
      them and asks the auth context to deduct the cost (the outcome of that write is not
      awaited, so it is ignored); if one fails, keeps the shown images, sets the failure
      error and deducts nothing. `generating` is false at the end.
     */
    method HandleGenerate(auth: AuthProvider, db: Database, service: Request -> ImageResult, updateCall: Call)
      requires db.Valid()
      modifies this, auth, db
      ensures db.Valid()
      ensures prompt == old(prompt) && selectedModel == old(selectedModel)
      ensures autoEnhance == old(autoEnhance) && imageCount == old(imageCount)
      ensures auth.loading == old(auth.loading)
      ensures old(auth.user).None? ==>
        && redirectedTo == Some(LoginPage)
        && generating == old(generating) && generatedImages == old(generatedImages) && error == old(error)
        && auth.user == old(auth.user) && unchanged(db)
      ensures old(auth.user).Some? ==> redirectedTo == old(redirectedTo)
      ensures var cost := TotalCost(old(selectedModel), old(imageCount));
        old(auth.user).Some? && !CanGenerate(old(auth.user), cost, old(prompt)) ==>
        && error == (if cost.Some? && Balance(old(auth.user).value.credits) < cost.value
                     then NotEnoughCredits else old(error))
        && generating == old(generating) && generatedImages == old(generatedImages)
        && auth.user == old(auth.user) && unchanged(db)
      ensures var cost := TotalCost(old(selectedModel), old(imageCount));
        CanGenerate(old(auth.user), cost, old(prompt)) ==>
        var u := old(auth.user).value;
        var n := ParseInt(old(imageCount)).value;
        var rp := RequestPrompt(old(prompt), old(autoEnhance));
        var allDelivered := forall i :: 0 <= i < n ==> Delivered(service(Request(rp, old(selectedModel), i)));
        && !generating
        && (allDelivered ==>
              && |generatedImages| == n
              && (forall i :: 0 <= i < n ==>
                    generatedImages[i] == service(Request(rp, old(selectedModel), i)).imageData.value)
              && error == ""
              && Balance(u.credits) - cost.value >= 0
              && auth.user == (if updateCall.Answered? then Some(u.(credits := Some(Balance(u.credits) - cost.value)))
                               else Some(u))
              && db.profiles == (if updateCall.Answered? && u.id in old(db.profiles)
                                 then old(db.profiles)[u.id := old(db.profiles)[u.id].(credits :=
                                                         Some(Balance(u.credits) - cost.value))]
                                 else old(db.profiles)))
        && (!allDelivered ==>
              && generatedImages == old(generatedImages) && error == GenerationFailed
              && auth.user == old(auth.user) && unchanged(db))
      ensures db.transactions == old(db.transactions) && db.images == old(db.images) && db.clock == old(db.clock)
    {
      if auth.user.None? {
        redirectedTo := Some(LoginPage);
        return;
      }
      var u := auth.user.value;
      var cost := TotalCost(selectedModel, imageCount);
      if !CanGenerate(auth.user, cost, prompt) {
        if cost.Some? && Balance(u.credits) < cost.value {
          error := NotEnoughCredits;
        }
        return;
      }
      Generate(auth, db, service, updateCall, u, RequestPrompt(prompt, autoEnhance), selectedModel,
               ParseInt(imageCount).value, Balance(u.credits) - cost.value);
    }

    /**
      The part of `handleGenerate` after the gate: clears the error, requests `n` images,
      and on full success shows them and writes `newCredits` through the auth context.
     */
    method Generate(auth: AuthProvider, db: Database, service: Request -> ImageResult, updateCall: Call,
                    u: User, rp: string, model: ModelType, n: nat, newCredits: int)
      requires db.Valid() && auth.user == Some(u)
      modifies this, auth, db
      ensures db.Valid()
      ensures prompt == old(prompt) && selectedModel == old(selectedModel)
      ensures autoEnhance == old(autoEnhance) && imageCount == old(imageCount) && redirectedTo == old(redirectedTo)
      ensures auth.loading == old(auth.loading) && !generating
      ensures db.transactions == old(db.transactions) && db.images == old(db.images) && db.clock == old(db.clock)
      ensures var allDelivered := forall i :: 0 <= i < n ==> Delivered(service(Request(rp, model, i)));
        && (allDelivered ==>
              && |generatedImages| == n
              && (forall i :: 0 <= i < n ==> generatedImages[i] == service(Request(rp, model, i)).imageData.value)
              && error == ""
              && auth.user == (if updateCall.Answered? then Some(u.(credits := Some(newCredits))) else Some(u))
              && db.profiles == (if updateCall.Answered? && u.id in old(db.profiles)
                                 then old(db.profiles)[u.id := old(db.profiles)[u.id].(credits := Some(newCredits))]
                                 else old(db.profiles)))
        && (!allDelivered ==>
              && generatedImages == old(generatedImages) && error == GenerationFailed
              && auth.user == old(auth.user) && unchanged(db))
    {
      error := "";
      generating := true;
      var images, sent, ok := GenerateImages(rp, model, n, service);
      if ok {
        Deliver(auth, db, updateCall, u, images, newCredits);
      } else {
        error := GenerationFailed;
      }
      generating := false;
    }

    /** Full success: shows the images and asks the auth context to write `newCredits`. */
    method Deliver(auth: AuthProvider, db: Database, updateCall: Call, u: User, images: seq<string>, newCredits: int)
      requires db.Valid() && auth.user == Some(u)
      modifies this, auth, db
      ensures db.Valid()
      ensures prompt == old(prompt) && selectedModel == old(selectedModel) && autoEnhance == old(autoEnhance)
      ensures imageCount == old(imageCount) && redirectedTo == old(redirectedTo) && error == old(error)
      ensures generating == old(generating) && generatedImages == images && auth.loading == old(auth.loading)
      ensures auth.user == (if updateCall.Answered? then Some(u.(credits := Some(newCredits))) else Some(u))
      ensures db.profiles == (if updateCall.Answered? && u.id in old(db.profiles)
                              then old(db.profiles)[u.id := old(db.profiles)[u.id].(credits := Some(newCredits))]
                              else old(db.profiles))
      ensures db.transactions == old(db.transactions) && db.images == old(db.images) && db.clock == old(db.clock)
    {
      generatedImages := images;
      var _ := auth.UpdateCredits(db, newCredits, updateCall);
    }
  }
}
