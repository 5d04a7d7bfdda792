/** The records of the fetch_trends skill: a trending topic and the result of
    one fetch. Both are built only through validating constructors, so a topic
    with an unknown category or an out-of-range engagement score, or a result
    whose declared count disagrees with its topics, is never produced. */
module TrendModels {
  import opened Wrappers
  import opened Validation

  /** The closed set of topic categories. */
  datatype Category = Fashion | Tech | Politics | Entertainment | Sports | Business | Other

  /** The wire spelling of every category. */
  const CategoryNames: set<string> :=
    {"fashion", "tech", "politics", "entertainment", "sports", "business", "other"}

  /** The wire spelling of a category; parsing it gives the category back. */
  function CategoryName(c: Category): (s: string)
    ensures s in CategoryNames
    ensures ParseCategory(s) == Some(c)
  {
    match c
    case Fashion => "fashion"
    case Tech => "tech"
    case Politics => "politics"
    case Entertainment => "entertainment"
    case Sports => "sports"
    case Business => "business"
    case Other => "other"
  }

  /** Reads a category from its wire spelling; anything outside the seven
      spellings is refused, never mapped to a default. */
  function ParseCategory(s: string): (r: Option<Category>)
    ensures r.Some? <==> s in CategoryNames
  {
    match s
    case "fashion" => Some(Fashion)
    case "tech" => Some(Tech)
    case "politics" => Some(Politics)
    case "entertainment" => Some(Entertainment)
    case "sports" => Some(Sports)
    case "business" => Some(Business)
    case "other" => Some(Other)
    case _ => None
  }

  /** Printing a parsed category gives back the spelling it was read from, so
      the two functions are inverse bijections between the seven spellings and
      the seven categories. */
  lemma ParseCategoryInverse(s: string)
    requires ParseCategory(s).Some?
    ensures CategoryName(ParseCategory(s).value) == s
  {
  }

  /** The engagement score domain: the closed interval from 0.0 to 1.0. */
  predicate ScoreInRange(score: real) {
    0.0 <= score <= 1.0
  }

  /** A trending subject as observed on a platform; `fetchedAt` is an instant
      in whole seconds on the UTC time line. */
  datatype TrendTopic = TrendTopic(
    name: string,
    category: Category,
    engagementScore: real,
    sourceUrl: string,
    sourcePlatform: string,
    fetchedAt: int)

  /** Topics as they can exist after construction: the score is in range (the
      category is in range by its type). */
  type Topic = t: TrendTopic | ScoreInRange(t.engagementScore)
    witness TrendTopic("", Other, 0.0, "", "", 0)

  /** The TrendTopic constructor. It accepts exactly the topics whose category
      is one of the seven spellings and whose score lies in [0.0, 1.0]; an
      accepted topic reads back every field exactly as given (the score is
      stored, not clamped or rescaled), and a refused one names each failing
      field. */
  function MakeTopic(
    name: string,
    category: string,
    engagementScore: real,
    sourceUrl: string,
    sourcePlatform: string,
    fetchedAt: int): (r: Result<Topic, ValidationError>)
    ensures r.Success? <==> category in CategoryNames && ScoreInRange(engagementScore)
    ensures r.Success? ==>
      && r.value.name == name
      && CategoryName(r.value.category) == category
      && r.value.engagementScore == engagementScore
      && r.value.sourceUrl == sourceUrl
      && r.value.sourcePlatform == sourcePlatform
      && r.value.fetchedAt == fetchedAt
    ensures r.Failure? ==>
      && (UnknownCategory(category) in r.error.issues <==> category !in CategoryNames)
      && (ScoreOutOfRange(engagementScore) in r.error.issues <==> !ScoreInRange(engagementScore))
  {
    var parsed := ParseCategory(category);
    var issues :=
      (if parsed.None? then [UnknownCategory(category)] else [])
      + (if !ScoreInRange(engagementScore) then [ScoreOutOfRange(engagementScore)] else []);
    if issues == [] then
      ParseCategoryInverse(category);
      Success(TrendTopic(name, parsed.value, engagementScore, sourceUrl, sourcePlatform, fetchedAt))
    else
      Failure(ValidationError(issues))
  }

  /** The outcome of one fetch. `topicCount` is stored alongside `topics` and
      is meaningful only when it agrees with them. */
  datatype TrendResult = TrendResult(
    topics: seq<Topic>,
    agentId: string,
    fetchTimestamp: int,
    platform: string,
    topicCount: int)
  {
    /** The declared count is the actual number of topics. */
    predicate Valid() {
      topicCount == |topics|
    }
  }

  /** The TrendResult constructor: it refuses a declared count that differs
      from the number of topics, and otherwise keeps every field as given. */
  function MakeTrendResult(
    topics: seq<Topic>,
    agentId: string,
    fetchTimestamp: int,
    platform: string,
    topicCount: int): (r: Result<TrendResult, ValidationError>)
    ensures r.Success? <==> topicCount == |topics|
    ensures r.Success? ==>
      && r.value.Valid()
      && r.value.topics == topics
      && r.value.agentId == agentId
      && r.value.fetchTimestamp == fetchTimestamp
      && r.value.platform == platform
    ensures r.Failure? ==> r.error.issues == [TopicCountMismatch(topicCount, |topics|)]
  {
    if topicCount == |topics| then
      Success(TrendResult(topics, agentId, fetchTimestamp, platform, topicCount))
    else
      Failure(ValidationError([TopicCountMismatch(topicCount, |topics|)]))
  }

  /** The sample topic reads back its name, category, score and url; 0.5 is
      accepted unchanged while 1.5 and -0.1 are refused; the two interval
      ends are accepted. */
  lemma ScoreExamples(t: int)
    ensures var r := MakeTopic("Test Trend", "fashion", 0.85, "https://example.com", "twitter", t);
      && r.Success?
      && r.value.name == "Test Trend"
      && r.value.category == Fashion
      && r.value.engagementScore == 0.85
      && r.value.sourceUrl == "https://example.com"
    ensures MakeTopic("Test", "tech", 0.5, "https://example.com", "twitter", t).Success?
    ensures MakeTopic("Test", "tech", 0.5, "https://example.com", "twitter", t).value.engagementScore == 0.5
    ensures MakeTopic("Test", "tech", 1.5, "https://example.com", "twitter", t).Failure?
    ensures MakeTopic("Test", "tech", -0.1, "https://example.com", "twitter", t).Failure?
    ensures MakeTopic("Test", "tech", 0.0, "https://example.com", "twitter", t).Success?
    ensures MakeTopic("Test", "tech", 1.0, "https://example.com", "twitter", t).Success?
  {
  }

  /** Each of the seven spellings is accepted and read back; an unknown one
      is refused. */
  lemma CategoryExamples(t: int)
    ensures forall cat :: cat in CategoryNames ==>
      var r := MakeTopic("Test", cat, 0.5, "https://example.com", "twitter", t);
      r.Success? && CategoryName(r.value.category) == cat
    ensures MakeTopic("Test", "invalid_category", 0.5, "https://example.com", "twitter", t).Failure?
  {
  }

  /** An empty result declared with count 0 is accepted and satisfies the
      count invariant. */
  lemma EmptyResultExample(agentId: string, ts: int, platform: string)
    ensures var r := MakeTrendResult([], agentId, ts, platform, 0);
      r.Success? && r.value.topicCount == |r.value.topics| == 0
  {
  }

  /** Three distinct "Trend 0".."Trend 2" tech topics declared with count 3
      are accepted, and the count equals the number of topics. */
  lemma ThreeTopicResultExample(t: int, agentId: string, ts: int, platform: string)
    ensures var topics := [
        TrendTopic("Trend 0", Tech, 0.5, "https://example.com", "twitter", t),
        TrendTopic("Trend 1", Tech, 0.5, "https://example.com", "twitter", t),
        TrendTopic("Trend 2", Tech, 0.5, "https://example.com", "twitter", t)];
      var r := MakeTrendResult(topics, agentId, ts, platform, 3);
      r.Success? && r.value.topicCount == |r.value.topics| && r.value.topics == topics
  {
  }
}
