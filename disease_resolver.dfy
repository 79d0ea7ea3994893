/**
 * The disease-detection service (services/plantDiseaseAPI.ts:71-156): it
 * turns a classifier label <Species>___<Condition> into a diagnosis record,
 * either from the remote classifier's response or, when the remote call
 * fails, from a label picked at random from the catalog.
 *
 * The network call is not modelled: its outcome is a parameter, None when
 * anything inside `callPlantDiseaseAPI` threw: the request failed, the
 * status was not ok, the body was not JSON, or the body was `null`.
 * Each `Math.random()` draw is a real parameter in [0, 1). JavaScript
 * numbers are modelled as exact reals.
 */
module DiseaseResolver {
  import opened Options
  import opened LabelSplit
  import opened DiseaseCatalog

  /** The fields of the remote classifier's JSON body that the service reads. */
  datatype ApiResponse = ApiResponse(prediction: Option<string>, className: Option<string>, confidence: Option<real>)

  /**
   * `PlantDiseaseResult`. `disease` is None where JavaScript produces
   * `undefined`: for a label without a second segment.
   */
  datatype PlantDiseaseResult = PlantDiseaseResult(
    crop: string,
    disease: Option<string>,
    confidence: real,
    symptoms: seq<string>,
    treatment: seq<string>,
    prevention: seq<string>)
  {
    /** The three lists of the record, as one catalog entry. */
    function Info(): DiseaseInfo {
      DiseaseInfo(symptoms, treatment, prevention)
    }
  }

  /** A value `Math.random()` can return. */
  predicate IsDraw(r: real) {
    0.0 <= r < 1.0
  }

  /** The random draws one `detectDisease` call may consume. */
  datatype RandomDraws = RandomDraws(apiConfidence: real, mockIndex: real, mockConfidence: real)
  {
    predicate Valid() {
      IsDraw(apiConfidence) && IsDraw(mockIndex) && IsDraw(mockConfidence)
    }
  }

  /** JavaScript truthiness of an optional string: present and not empty. */
  predicate Truthy(field: Option<string>) {
    field.Some? && field.value != ""
  }

  /** `apiResponse.prediction || apiResponse.class || 'Tomato___Late_blight'`. */
  function ResolveLabel(response: ApiResponse): (prediction: string)
    ensures prediction != ""
    ensures Truthy(response.prediction) ==> prediction == response.prediction.value
    ensures !Truthy(response.prediction) && Truthy(response.className) ==> prediction == response.className.value
    ensures !Truthy(response.prediction) && !Truthy(response.className) ==> prediction == DefaultLabel
  {
    if Truthy(response.prediction) then response.prediction.value
    else if Truthy(response.className) then response.className.value
    else DefaultLabel
  }

  /** `table[segment] || segment`: the translation of a segment, or the segment itself. */
  function Translate(table: map<string, string>, segment: string): (name: string)
    ensures segment in table && table[segment] != "" ==> name == table[segment]
    ensures !(segment in table && table[segment] != "") ==> name == segment
  {
    if segment in table && table[segment] != "" then table[segment] else segment
  }

  /** The crop name of a label: its first segment, translated. */
  function CropName(prediction: string): (crop: string)
    ensures var species := Split(prediction)[0];
      crop == if species in CropTranslations then CropTranslations[species] else species
  {
    TranslationsNonEmpty();
    Translate(CropTranslations, Split(prediction)[0])
  }

  /** The disease name of a label: its second segment, translated; `undefined` if there is none. */
  function DiseaseName(prediction: string): (disease: Option<string>)
    ensures disease.Some? <==> ContainsDelimiter(prediction)
    ensures disease.Some? ==> var condition := Split(prediction)[1];
      disease.value == if condition in DiseaseTranslations then DiseaseTranslations[condition] else condition
  {
    TranslationsNonEmpty();
    var pieces := Split(prediction);
    SplitIntoSeveral(prediction);
    if |pieces| >= 2 then Some(Translate(DiseaseTranslations, pieces[1])) else None
  }

  /** `diseaseDatabase[prediction] || diseaseDatabase['Tomato___Late_blight']`. */
  function CatalogEntry(prediction: string): (info: DiseaseInfo)
    ensures info in DiseaseDatabase.Values
    ensures prediction in DiseaseDatabase ==> info == DiseaseDatabase[prediction]
    ensures prediction !in DiseaseDatabase ==> info == DiseaseDatabase[DefaultLabel]
  {
    DiseaseKeysListCatalog();
    if prediction in DiseaseDatabase then DiseaseDatabase[prediction] else DiseaseDatabase[DefaultLabel]
  }

  /** `Math.round(x * 100) / 100`, where `Math.round(y)` is the floor of y + 0.5. */
  function RoundToHundredths(x: real): (r: real)
    ensures x - 0.005 < r <= x + 0.005
    ensures (r * 100.0).Floor as real == r * 100.0
  {
    ((x * 100.0 + 0.5).Floor as real) / 100.0
  }

  /** The confidence of a remote result: the response's own if truthy, else a draw in [70, 100), rounded. */
  function ApiConfidence(response: ApiResponse, draw: real): (confidence: real)
    requires IsDraw(draw)
    ensures response.confidence.Some? && response.confidence.value != 0.0 ==>
      response.confidence.value - 0.005 < confidence <= response.confidence.value + 0.005
    ensures !(response.confidence.Some? && response.confidence.value != 0.0) ==>
      70.0 <= confidence <= 100.0
    ensures (confidence * 100.0).Floor as real == confidence * 100.0
  {
    var raw := if response.confidence.Some? && response.confidence.value != 0.0
      then response.confidence.value
      else draw * 30.0 + 70.0;
    RoundToHundredths(raw)
  }

  /** `parseAPIResponse`. */
  function ParseApiResponse(response: ApiResponse, draw: real): (result: PlantDiseaseResult)
    requires IsDraw(draw)
    ensures result.crop == CropName(ResolveLabel(response))
    ensures result.disease == DiseaseName(ResolveLabel(response))
    ensures result.confidence == ApiConfidence(response, draw)
    ensures result.Info() in DiseaseDatabase.Values
    ensures ResolveLabel(response) in DiseaseDatabase ==> result.Info() == DiseaseDatabase[ResolveLabel(response)]
    ensures ResolveLabel(response) !in DiseaseDatabase ==> result.Info() == DiseaseDatabase[DefaultLabel]
  {
    var prediction := ResolveLabel(response);
    var info := CatalogEntry(prediction);
    PlantDiseaseResult(
      CropName(prediction),
      DiseaseName(prediction),
      ApiConfidence(response, draw),
      info.symptoms, info.treatment, info.prevention)
  }

  /** `Math.floor(Math.random() * diseases.length)`: the position of the mock label. */
  function MockIndex(draw: real): (i: int)
    requires IsDraw(draw)
    ensures 0 <= i < |DiseaseKeys|
  {
    (draw * |DiseaseKeys| as real).Floor
  }

  /** `Math.floor(Math.random() * 25) + 75`: the mock confidence. */
  function MockConfidence(draw: real): (c: int)
    requires IsDraw(draw)
    ensures 75 <= c <= 99
  {
    (draw * 25.0).Floor + 75
  }

  /** `mockDetection`, without its two-second delay. */
  function MockDetection(indexDraw: real, confidenceDraw: real): (result: PlantDiseaseResult)
    requires IsDraw(indexDraw) && IsDraw(confidenceDraw)
    ensures DiseaseKeys[MockIndex(indexDraw)] in DiseaseDatabase
    ensures result.Info() == DiseaseDatabase[DiseaseKeys[MockIndex(indexDraw)]]
    ensures var pieces := Split(DiseaseKeys[MockIndex(indexDraw)]);
      && |pieces| == 2 && pieces[0] in CropTranslations && pieces[1] in DiseaseTranslations
      && result.crop == CropTranslations[pieces[0]]
      && result.disease == Some(DiseaseTranslations[pieces[1]])
    ensures result.confidence == MockConfidence(confidenceDraw) as real
    ensures 75.0 <= result.confidence <= 99.0 && result.confidence.Floor as real == result.confidence
  {
    var key := DiseaseKeys[MockIndex(indexDraw)];
    DiseaseKeysListCatalog();
    CatalogKeysTranslate(key);
    TranslationsNonEmpty();
    SplitIntoSeveral(key);
    var info := DiseaseDatabase[key];
    PlantDiseaseResult(
      CropName(key),
      DiseaseName(key),
      MockConfidence(confidenceDraw) as real,
      info.symptoms, info.treatment, info.prevention)
  }

  /**
   * `detectDisease`: the parsed remote result when the remote call
   * succeeded, the mock result otherwise. It never fails.
   */
  function DetectDisease(outcome: Option<ApiResponse>, draws: RandomDraws): (result: PlantDiseaseResult)
    requires draws.Valid()
    ensures outcome.Some? ==> result == ParseApiResponse(outcome.value, draws.apiConfidence)
    ensures outcome.None? ==> result == MockDetection(draws.mockIndex, draws.mockConfidence)
    ensures result.Info() in DiseaseDatabase.Values
    ensures |result.symptoms| == 3 && |result.treatment| == 3 && |result.prevention| == 3
  {
    var result := match outcome
      case Some(response) => ParseApiResponse(response, draws.apiConfidence)
      case None => MockDetection(draws.mockIndex, draws.mockConfidence);
    CatalogEntriesRendered(result.Info());
    result
  }

  /** Every entry of the catalog has three items in each of its lists. */
  lemma CatalogEntriesRendered(info: DiseaseInfo)
    requires info in DiseaseDatabase.Values
    ensures |info.symptoms| == 3 && |info.treatment| == 3 && |info.prevention| == 3
  {
    var key :| key in DiseaseDatabase && DiseaseDatabase[key] == info;
    CatalogEntriesComplete(key);
  }

  /** A remote label that is a catalog key is always shown with translated names. */
  lemma CatalogLabelsTranslated(response: ApiResponse, draw: real)
    requires IsDraw(draw)
    requires ResolveLabel(response) in DiseaseDatabase
    ensures ParseApiResponse(response, draw).crop in CropTranslations.Values
    ensures ParseApiResponse(response, draw).disease.Some?
    ensures ParseApiResponse(response, draw).disease.value in DiseaseTranslations.Values
  {
    CatalogKeysTranslate(ResolveLabel(response));
    TranslationsNonEmpty();
  }

  /** Resolving "Potato___Early_blight" gives the potato early-blight record. */
  lemma PotatoEarlyBlight(response: ApiResponse, draw: real)
    requires IsDraw(draw)
    requires response.prediction == Some("Potato___Early_blight")
    ensures var result := ParseApiResponse(response, draw);
      && result.crop == "आलू"
      && result.disease == Some("अगेती झुलसा")
      && result.symptoms == ["पत्तियों पर भूरे वृत्ताकार धब्बे", "पत्तियों का पीला पड़ना", "कंद पर काले धब्बे"]
  {
    var key := "Potato___Early_blight";
    assert ResolveLabel(response) == key;
    PotatoEarlyBlightNames();
    assert CatalogEntry(key) == DiseaseDatabase[key];
  }

  lemma PotatoEarlyBlightNames()
    ensures CropName("Potato___Early_blight") == "आलू"
    ensures DiseaseName("Potato___Early_blight") == Some("अगेती झुलसा")
  {
    PotatoEarlyBlightSplits();
  }

  lemma PotatoEarlyBlightSplits()
    ensures Split("Potato___Early_blight") == ["Potato", "Early_blight"]
  {
    SpeciesSegment("Potato");
    ConditionSegment("Early_blight");
    NoDelimiterFound("Potato");
    NoDelimiterFound("Early_blight");
    SplitPair("Potato", "Early_blight");
    assert "Potato___Early_blight" == "Potato" + Delimiter + "Early_blight";
  }

  /**
   * Only the confidence depends on the random draw: resolving the same
   * response twice gives the same names and the same lists.
   */
  lemma ParseIgnoresDrawExceptConfidence(response: ApiResponse, draw1: real, draw2: real)
    requires IsDraw(draw1) && IsDraw(draw2)
    ensures ParseApiResponse(response, draw1).(confidence := 0.0) == ParseApiResponse(response, draw2).(confidence := 0.0)
    ensures response.confidence.Some? && response.confidence.value != 0.0 ==>
      ParseApiResponse(response, draw1) == ParseApiResponse(response, draw2)
  {
  }

  /** The mock label depends only on its draw, and its lists only on that label. */
  lemma MockIgnoresConfidenceDraw(indexDraw: real, draw1: real, draw2: real)
    requires IsDraw(indexDraw) && IsDraw(draw1) && IsDraw(draw2)
    ensures MockDetection(indexDraw, draw1).(confidence := 0.0) == MockDetection(indexDraw, draw2).(confidence := 0.0)
  {
  }

  /** Every catalog key can be the mock label: the draw i / n picks key i. */
  lemma MockCanPickEveryKey(i: int)
    requires 0 <= i < |DiseaseKeys|
    ensures IsDraw(i as real / |DiseaseKeys| as real)
    ensures MockIndex(i as real / |DiseaseKeys| as real) == i
  {
  }

  /** Every integer in 75..99 can be the mock confidence. */
  lemma MockCanGiveEveryConfidence(c: int)
    requires 75 <= c <= 99
    ensures IsDraw((c - 75) as real / 25.0)
    ensures MockConfidence((c - 75) as real / 25.0) == c
  {
  }

  /** Rounding to hundredths leaves a value that already has two decimals unchanged. */
  lemma RoundingIsIdempotent(x: real)
    ensures RoundToHundredths(RoundToHundredths(x)) == RoundToHundredths(x)
  {
    var r := RoundToHundredths(x);
    var n := (r * 100.0).Floor;
    assert (n as real + 0.5).Floor == n;
  }
}
