/** The model catalogue and the credit packages (lib/constants.ts). */
module Constants {
  import opened Wrappers
  import opened Types

  datatype ModelInfo = ModelInfo(id: ModelType, name: string, description: string, creditCost: nat, icon: string)

  datatype CreditPackage = CreditPackage(id: string, name: string, credits: nat, price: nat, popular: bool)

  const Models: seq<ModelInfo> := [
    ModelInfo(IguanaFast, "Iguana Fast",
      "Versatile AI model optimized for rapid image generation with precise style control", 4, "\U{26A1}"),
    ModelInfo(IguanaSketch, "Iguana Sketch",
      "Lightning-fast AI model specialized in creating detailed concept art, sketches, and illustrations", 32,
      "\U{270F}\U{FE0F}"),
    ModelInfo(IguanaPro, "Iguana Pro",
      "Premium AI model delivering ultra-realistic images with exceptional detail and professional-capability", 63,
      "\U{2728}")
  ]

  const CreditPackages: seq<CreditPackage> := [
    CreditPackage("starter", "Starter", 50, 5, false),
    CreditPackage("popular", "Popular", 150, 12, true),
    CreditPackage("pro", "Professional", 400, 29, false),
    CreditPackage("unlimited", "Studio", 1000, 59, false)
  ]

  /** `MODELS.find((m) => m.id === id)`: the first catalogue entry with this id. */
  function FindModel(id: ModelType): (r: Option<ModelInfo>)
    ensures r.Some? ==> r.value in Models && r.value.id == id
    ensures r.None? ==> forall k :: 0 <= k < |Models| ==> Models[k].id != id
  {
    FindFrom(Models, id)
  }

  function FindFrom(ms: seq<ModelInfo>, id: ModelType): (r: Option<ModelInfo>)
    ensures r.Some? ==> r.value in ms && r.value.id == id
    ensures r.None? ==> forall k :: 0 <= k < |ms| ==> ms[k].id != id
  {
    if ms == [] then None else if ms[0].id == id then Some(ms[0]) else FindFrom(ms[1..], id)
  }

  /** The catalogue has exactly one entry per model, so the page's `find(...)!` never fails. */
  lemma {:induction false} ModelsComplete(m: ModelType)
    ensures FindModel(m).Some?
    ensures forall i, j :: 0 <= i < j < |Models| ==> Models[i].id != Models[j].id
  {
    match m
    case IguanaFast => assert Models[0].id == m;
    case IguanaSketch => assert Models[1].id == m;
    case IguanaPro => assert Models[2].id == m;
  }

  /** The credit cost of each model. */
  function CreditCost(m: ModelType): (c: nat)
    ensures c == match m case IguanaFast => 4 case IguanaSketch => 32 case IguanaPro => 63
  {
    ModelsComplete(m);
    FindModel(m).value.creditCost
  }

  /** Costs are positive and strictly increase along the catalogue. */
  lemma ModelCostsIncrease()
    ensures forall k :: 0 <= k < |Models| ==> Models[k].creditCost > 0
    ensures forall i, j :: 0 <= i < j < |Models| ==> Models[i].creditCost < Models[j].creditCost
  {
  }

  /** Package ids are distinct; credits and prices strictly increase along the list. */
  lemma PackagesOrdered()
    ensures forall i, j :: 0 <= i < j < |CreditPackages| ==> CreditPackages[i].id != CreditPackages[j].id
    ensures forall i, j :: 0 <= i < j < |CreditPackages| ==>
      CreditPackages[i].credits < CreditPackages[j].credits && CreditPackages[i].price < CreditPackages[j].price
  {
    assert CreditPackages[0].id[0] == 's' && CreditPackages[1].id[0] == 'p';
    assert CreditPackages[2].id[0] == 'p' && CreditPackages[3].id[0] == 'u';
    assert CreditPackages[1].id[1] == 'o' && CreditPackages[2].id[1] == 'r';
  }

  /** Exactly one package is marked popular: the 150-credit one. */
  lemma OnePopularPackage()
    ensures forall k :: 0 <= k < |CreditPackages| ==> (CreditPackages[k].popular <==> CreditPackages[k].credits == 150)
    ensures exists k :: 0 <= k < |CreditPackages| && CreditPackages[k].popular
  {
    assert CreditPackages[1].popular;
  }
}
