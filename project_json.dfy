/**
 * The JSON form of the project types (src/types/project.ts): the shape in which a
 * breakdown travels between the browser and the edge functions. An absent
 * estimation is an absent key.
 */
module ProjectJson {
  import opened Wrappers
  import opened ProjectTypes
  import opened Json

  function EncodeStrings(ss: seq<string>): (js: seq<Json>)
    ensures |js| == |ss|
    ensures forall i :: 0 <= i < |ss| ==> js[i] == JString(ss[i])
  {
    seq(|ss|, i requires 0 <= i < |ss| => JString(ss[i]))
  }

  function EncodeEstimation(e: Estimation): Json {
    JObject(map["hours" := JNumber(e.hours), "cost" := JNumber(e.cost), "details" := JString(e.details)])
  }

  /** The three keys every feature carries. */
  function FeatureCore(feature: UserStory): map<string, Json> {
    map["name" := JString(feature.name),
        "description" := JString(feature.description),
        "userStories" := JArray(EncodeStrings(feature.userStories))]
  }

  function EncodeFeature(feature: UserStory): Json {
    match feature.estimation
    case None => JObject(FeatureCore(feature))
    case Some(e) => JObject(FeatureCore(feature)["estimation" := EncodeEstimation(e)])
  }

  function EncodeFeatures(features: seq<UserStory>): (js: seq<Json>)
    ensures |js| == |features|
    ensures forall i :: 0 <= i < |features| ==> js[i] == EncodeFeature(features[i])
  {
    seq(|features|, i requires 0 <= i < |features| => EncodeFeature(features[i]))
  }

  function EncodeBreakdown(breakdown: Breakdown): Json {
    JObject(map["features" := JArray(EncodeFeatures(breakdown.features)),
                "technicalComponents" := JArray(EncodeStrings(breakdown.technicalComponents))])
  }

  /** The same breakdown with every estimation removed. */
  function WithoutEstimations(breakdown: Breakdown): (stripped: Breakdown)
    ensures |stripped.features| == |breakdown.features|
    ensures stripped.technicalComponents == breakdown.technicalComponents
    ensures forall i :: 0 <= i < |breakdown.features| ==>
      stripped.features[i] == breakdown.features[i].(estimation := None)
  {
    var features := breakdown.features;
    Breakdown(seq(|features|, i requires 0 <= i < |features| => features[i].(estimation := None)),
              breakdown.technicalComponents)
  }
}
