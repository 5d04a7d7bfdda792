/** The generate_content skill: it turns a trend topic, given by its name,
    into one candidate post for a platform. The text itself comes from an
    external generation provider, modelled as the `provider` function from
    (topic, platform) to a draft or to nothing when the provider fails. */
module GenerateContent {
  import opened Wrappers

  /** What the provider returns for one request. */
  datatype Draft = Draft(contentId: string, text: string, generatedAt: int)

  /** One candidate post, traceable to the agent, topic and platform that
      produced it. */
  datatype GeneratedContent = GeneratedContent(
    contentId: string,
    agentId: string,
    text: string,
    platform: string,
    trendTopic: string,
    generatedAt: int)
  {
    /** Generated content is never empty. */
    predicate Valid() {
      text != []
    }

    /** The content came from this agent, topic and platform. */
    predicate TracesTo(agent: string, topic: string, target: string) {
      agentId == agent && trendTopic == topic && platform == target
    }
  }

  datatype GenerationError = ProviderUnavailable | EmptyDraft

  /** generate(agent_id, trend_topic, platform) with a bare topic name. It
      succeeds exactly when the provider yields a non-empty draft; the content
      then carries the draft's text and traces back to the request. A failing
      provider and an empty draft are reported, never replaced by placeholder
      content. */
  function Generate(
    agentId: string,
    trendTopic: string,
    platform: string,
    provider: (string, string) -> Option<Draft>): (r: Result<GeneratedContent, GenerationError>)
    ensures r.Success? <==> provider(trendTopic, platform).Some? && provider(trendTopic, platform).value.text != []
    ensures r.Success? ==>
      && r.value.Valid()
      && r.value.TracesTo(agentId, trendTopic, platform)
      && r.value.text == provider(trendTopic, platform).value.text
      && r.value.contentId == provider(trendTopic, platform).value.contentId
    ensures provider(trendTopic, platform).None? ==> r == Failure(ProviderUnavailable)
  {
    match provider(trendTopic, platform)
    case None => Failure(ProviderUnavailable)
    case Some(draft) =>
      if draft.text == [] then Failure(EmptyDraft)
      else Success(GeneratedContent(draft.contentId, agentId, draft.text, platform, trendTopic, draft.generatedAt))
  }
}
