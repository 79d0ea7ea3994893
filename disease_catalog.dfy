/**
 * The three static tables of the disease-detection service
 * (services/plantDiseaseAPI.ts:12-69): the disease catalog keyed by
 * classification label, and the crop and condition name translations into
 * Hindi. They are constants, never changed after start-up.
 */
module DiseaseCatalog {
  import opened LabelSplit

  /** One catalog entry: what the farmer is shown for a diagnosed label. */
  datatype DiseaseInfo = DiseaseInfo(symptoms: seq<string>, treatment: seq<string>, prevention: seq<string>)

  /** The label used whenever the resolved label is not in the catalog. */
  const DefaultLabel: string := "Tomato___Late_blight"

  /** `Object.keys(diseaseDatabase)`: the catalog keys in declaration order. */
  const DiseaseKeys: seq<string> := [
    "Tomato___Late_blight",
    "Tomato___Early_blight",
    "Potato___Late_blight",
    "Potato___Early_blight",
    "Corn_(maize)___Blight"
  ]

  /** `diseaseDatabase`. */
  const DiseaseDatabase: map<string, DiseaseInfo> := map[
    "Tomato___Late_blight" := DiseaseInfo(
      ["पत्तियों पर भूरे धब्बे", "पत्तियों का पीला होना", "फल पर काले निशान"],
      ["कॉपर सल्फेट का छिड़काव करें", "प्रभावित पत्तियों को हटा दें", "नीम का तेल का उपयोग करें"],
      ["बीज बोने से पहले कीटाणुशोधन करें", "खेत में पानी जमा न होने दें", "फसल चक्रण अपनाएं"]),
    "Tomato___Early_blight" := DiseaseInfo(
      ["पत्तियों पर गोल भूरे धब्बे", "धब्बों के चारों ओर पीला घेरा", "पत्तियों का सूखना"],
      ["मैंकोजेब का छिड़काव करें", "बोर्डो मिश्रण का उपयोग करें", "प्रभावित भागों को काट दें"],
      ["उचित दूरी पर रोपाई करें", "हवा का अच्छा संचार रखें", "संतुलित उर्वरक का उपयोग करें"]),
    "Potato___Late_blight" := DiseaseInfo(
      ["पत्तियों पर काले धब्बे", "तने पर भूरे निशान", "आलू में सड़न"],
      ["मेटालैक्सिल का छिड़काव करें", "प्रभावित पौधों को हटा दें", "कॉपर ऑक्सीक्लोराइड का उपयोग करें"],
      ["प्रमाणित बीज का उपयोग करें", "खेत की सफाई रखें", "उचित जल निकासी करें"]),
    "Potato___Early_blight" := DiseaseInfo(
      ["पत्तियों पर भूरे वृत्ताकार धब्बे", "पत्तियों का पीला पड़ना", "कंद पर काले धब्बे"],
      ["क्लोरोथैलोनिल का छिड़काव करें", "जैविक फफूंदनाशक का उपयोग करें", "नीम का तेल लगाएं"],
      ["फसल चक्रण अपनाएं", "संतुलित पोषण दें", "खरपतवार नियंत्रण करें"]),
    "Corn_(maize)___Blight" := DiseaseInfo(
      ["पत्तियों पर लंबे भूरे धब्बे", "पत्तियों का सूखना", "दाने पर काले निशान"],
      ["प्रोपिकोनाजोल का छिड़काव करें", "ट्राइकोडर्मा का उपयोग करें", "जैविक नियंत्रण अपनाएं"],
      ["प्रतिरोधी किस्मों का चुनाव करें", "उचित बुआई का समय रखें", "खेत की सफाई करें"])
  ]

  /** `cropTranslations`: species segment to Hindi crop name. */
  const CropTranslations: map<string, string> := map[
    "Tomato" := "टमाटर",
    "Potato" := "आलू",
    "Corn_(maize)" := "मक्का",
    "Pepper" := "मिर्च",
    "Apple" := "सेब",
    "Grape" := "अंगूर",
    "Cherry" := "चेरी",
    "Peach" := "आड़ू",
    "Strawberry" := "स्ट्रॉबेरी"
  ]

  /** `diseaseTranslations`: condition segment to Hindi disease name. */
  const DiseaseTranslations: map<string, string> := map[
    "Late_blight" := "झुलसा रोग",
    "Early_blight" := "अगेती झुलसा",
    "Blight" := "झुलसा रोग",
    "Leaf_spot" := "पत्ती धब्बा रोग",
    "Mosaic_virus" := "मोज़ेक वायरस",
    "Bacterial_spot" := "बैक्टीरियल स्पॉट",
    "Septoria_leaf_spot" := "सेप्टोरिया पत्ती धब्बा",
    "Spider_mites" := "लाल मकड़ी",
    "Target_Spot" := "लक्ष्य धब्बा रोग",
    "Yellow_Leaf_Curl_Virus" := "पीली पत्ती मोड़ वायरस"
  ]

  /** The catalog keys exactly list the catalog, each key once. */
  lemma DiseaseKeysListCatalog()
    ensures forall i :: 0 <= i < |DiseaseKeys| ==> DiseaseKeys[i] in DiseaseDatabase
    ensures forall key :: key in DiseaseDatabase ==> key in DiseaseKeys
    ensures forall i, j :: 0 <= i < j < |DiseaseKeys| ==> DiseaseKeys[i] != DiseaseKeys[j]
    ensures DefaultLabel in DiseaseDatabase
  {
  }

  /**
   * No translation is the empty string, so `table[segment] || segment`
   * yields the translation whenever the segment is a key of the table.
   */
  lemma TranslationsNonEmpty()
    ensures forall species :: species in CropTranslations ==> CropTranslations[species] != ""
    ensures forall condition :: condition in DiseaseTranslations ==> DiseaseTranslations[condition] != ""
  {
  }

  /** Every catalog entry holds three symptoms, three treatments and three prevention steps. */
  lemma CatalogEntriesComplete(key: string)
    requires key in DiseaseDatabase
    ensures |DiseaseDatabase[key].symptoms| == 3
    ensures |DiseaseDatabase[key].treatment| == 3
    ensures |DiseaseDatabase[key].prevention| == 3
  {
  }

  /**
   * Every catalog key has the shape <Species>___<Condition> with a species
   * the crop table translates and a condition the disease table translates.
   */
  lemma CatalogKeysTranslate(key: string)
    requires key in DiseaseDatabase
    ensures |Split(key)| == 2
    ensures Split(key)[0] in CropTranslations
    ensures Split(key)[1] in DiseaseTranslations
  {
    var species, condition := SegmentsOf(key);
    SpeciesSegment(species);
    ConditionSegment(condition);
    NoDelimiterFound(species);
    NoDelimiterFound(condition);
    SplitPair(species, condition);
  }

  /** Each catalog key is one of three species, the delimiter and one of three conditions. */
  lemma SegmentsOf(key: string) returns (species: string, condition: string)
    requires key in DiseaseDatabase
    ensures key == species + Delimiter + condition
    ensures species == "Tomato" || species == "Potato" || species == "Corn_(maize)"
    ensures condition == "Late_blight" || condition == "Early_blight" || condition == "Blight"
  {
    assert key in DiseaseKeys;
    if key == "Tomato___Late_blight" {
      species, condition := "Tomato", "Late_blight";
      assert key == species + Delimiter + condition;
    } else if key == "Tomato___Early_blight" {
      species, condition := "Tomato", "Early_blight";
      assert key == species + Delimiter + condition;
    } else if key == "Potato___Late_blight" {
      species, condition := "Potato", "Late_blight";
      assert key == species + Delimiter + condition;
    } else if key == "Potato___Early_blight" {
      species, condition := "Potato", "Early_blight";
      assert key == species + Delimiter + condition;
    } else {
      assert key == "Corn_(maize)___Blight";
      species, condition := "Corn_(maize)", "Blight";
      assert key == species + Delimiter + condition;
    }
  }

  lemma SpeciesSegment(species: string)
    requires species == "Tomato" || species == "Potato" || species == "Corn_(maize)"
    ensures species in CropTranslations
    ensures FirstDelimiter(species, 0) == -1
    ensures species != [] && species[|species| - 1] != '_'
  {
  }

  lemma ConditionSegment(condition: string)
    requires condition == "Late_blight" || condition == "Early_blight" || condition == "Blight"
    ensures condition in DiseaseTranslations
    ensures FirstDelimiter(condition, 0) == -1
  {
  }
}
