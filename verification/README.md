# Trend, generation and evaluation contracts

A Dafny model of the data-contract layer of a three-stage content pipeline for
social-media agents: `fetch_trends` returns the fresh trending topics for a
platform and niche, `generate` turns a topic name into one candidate post, and
`evaluate` classifies a post as APPROVE, REVIEW or REJECT.

The repository fixes this layer through two pytest suites written before any
implementation, so the model follows what those tests require:

- `TrendModels` (trend_models.dfy): the `TrendTopic` and `TrendResult` records
  and their validating constructors. `Category` is a closed seven-constructor
  datatype with a parser and a printer that are inverse to each other. A topic
  is built only when its category is one of the seven spellings and its
  engagement score lies in [0.0, 1.0]. Out-of-range scores are rejected, never
  clamped. A result is built only when `topic_count` equals the number of
  topics.
- `TrendService` (trend_service.dfy): trend selection and `fetch_trends`.
  Selection keeps the candidates observed at or after `now - max_age_hours`
  and caps them at ten. A single-pass loop is proved to select exactly the
  same topics.
- `GenerateContent` (generate_content.dfy): `generate` with a bare topic name.
- `EvaluateContent` (evaluate_content.dfy): the closed `Verdict` set, the
  `JudgeDecision` record and the `evaluate` policy.
- `Wrappers` and `Validation`: the `Option`/`Result` types and the validation
  error, which lists every rejected field.

The external pieces are parameters. The trend source is a function from
(platform, niche) to a candidate list or `Unavailable`. The generation
provider is a function from (topic, platform) to an optional draft. The judge
is a function from (text, platform) to an optional judgment. The wall clock is
the `now` argument, in whole seconds on the UTC time line, and
`timedelta(hours=h)` is `h * 3600` seconds.

Design decisions where the tests are silent:

- The freshness cutoff is inclusive: a topic observed exactly at
  `now - max_age_hours` is kept, matching the tests' `>=`.
- When more than ten candidates are fresh, the first ten in the source's order
  are kept. No ranking is imposed or claimed.
- `evaluate` on empty text answers REVIEW without consulting the judge. An
  uncertain judgment also resolves to REVIEW. Only an unreachable judge is an
  error.
- An unavailable trend source is a `FetchError`, so it cannot be confused with
  a legitimately empty result.
- Topic names and the agent, platform and niche identifiers are not checked
  for emptiness, because no test rejects an empty one.

## Model

| member | source | states |
|---|---|---|
| TrendModels.CategoryName | tests/test_trend_fetcher.py:95-107 | every category has one of the seven spellings, and parsing that spelling gives the category back |
| TrendModels.ParseCategory | tests/test_trend_fetcher.py:91-118 | a string is accepted as a category exactly when it is one of the seven spellings; anything else, such as "invalid_category", is refused |
| TrendModels.ParseCategoryInverse | tests/test_trend_fetcher.py:95-107 | printing a parsed category gives back the exact string that was read, so each accepted category reads back as given |
| TrendModels.MakeTopic | tests/test_trend_fetcher.py:36-118 | a topic is built exactly when the category is one of the seven and the score lies in [0.0, 1.0]; an accepted topic reads back name, category, score, url, platform and time unchanged; a refused one names each failing field |
| TrendModels.ScoreExamples | tests/test_trend_fetcher.py:36-89 | the sample topic with score 0.85 reads back as given; 0.5 is kept unchanged; 1.5 and -0.1 are refused; 0.0 and 1.0 are accepted |
| TrendModels.CategoryExamples | tests/test_trend_fetcher.py:91-118 | each of the seven spellings is accepted and read back; "invalid_category" is refused |
| TrendModels.MakeTrendResult | tests/test_trend_fetcher.py:120-143 | a result is built exactly when topic_count equals the number of topics, and it then satisfies the count invariant and keeps its fields; a mismatch is reported with both counts |
| TrendModels.EmptyResultExample | tests/test_trend_fetcher.py:19-34 | the empty result declared with count 0 is accepted, and its count equals its length |
| TrendModels.ThreeTopicResultExample | tests/test_trend_fetcher.py:120-143 | a result of three distinct topics declared with count 3 is accepted, keeps its topics, and its count equals its length |
| TrendService.FreshTopics | tests/test_trend_fetcher.py:160-172 | every topic that survives the staleness filter was observed at or after the cutoff and is one of the candidates, and the result is no longer than the input |
| TrendService.FreshTopicsCounts | tests/test_trend_fetcher.py:160-172 | the staleness filter keeps every fresh candidate with its multiplicity and drops every stale one |
| TrendService.SelectTrends | tests/test_trend_fetcher.py:149-172 | the selection holds at most ten topics, all observed at or after now - max_age_hours, all drawn from the candidates; a selection shorter than ten keeps every fresh candidate |
| TrendService.SelectTrendsOnePass | tests/test_trend_fetcher.py:149-172 | a single pass that stops after ten fresh topics selects exactly what SelectTrends selects |
| TrendService.FetchTrends | tests/test_trend_fetcher.py:160-172 | fetch_trends fails exactly when the source is unavailable; otherwise its result satisfies the count invariant, holds at most ten topics, none older than now - max_age_hours, and carries the agent, platform and fetch time |
| TrendService.FetchTrendsDefault | tests/test_skills_interface.py:58-80 | fetch_trends with only agent_id, platform and niche returns a TrendResult satisfying the count invariant, with at most ten topics, none older than eight hours |
| TrendService.FetchTrendsKeepsExactlyTheFresh | tests/test_trend_fetcher.py:160-172 | a stale candidate, or a topic the source never offered, is never returned; when at most ten candidates are fresh, every fresh candidate is returned |
| GenerateContent.Generate | tests/test_skills_interface.py:91-101 | generate with a bare topic name succeeds exactly when the provider yields a non-empty draft; the content has non-empty text and traces to the agent, topic and platform; a provider failure is an error, not placeholder content |
| EvaluateContent.VerdictName | tests/test_skills_interface.py:124-133 | every verdict is spelled APPROVE, REVIEW or REJECT, and parsing that spelling gives the verdict back |
| EvaluateContent.ParseVerdict | tests/test_skills_interface.py:124-133 | a string is accepted as a verdict exactly when it is APPROVE, REVIEW or REJECT |
| EvaluateContent.ParseVerdictInverse | tests/test_skills_interface.py:124-133 | printing a parsed verdict gives back the exact string that was read |
| EvaluateContent.MakeDecision | tests/test_skills_interface.py:124-133 | a decision is built exactly when the verdict is one of the three spellings, and it keeps the content id; any other verdict is rejected |
| EvaluateContent.Evaluate | tests/test_skills_interface.py:112-133 | evaluate fails exactly when the text is non-empty and the judge is unreachable; otherwise it returns a decision for that content id with a verdict from the closed set; a confident judgment is adopted as the verdict, and APPROVE and REJECT come only from the judge's confident word; empty text and uncertain judgments give REVIEW |

## Left out

- The package and module importability checks (tests/test_skills_interface.py:16-47) are Python packaging and have no behaviour.
- The trend source, the generation provider and the judging provider are external collaborators. They are function parameters with no behaviour of their own.
- The wall clock is the `now` argument. The staleness test reads the clock after the call returns, so its cutoff is slightly later than the service's. The model uses one instant for both.
- Engagement scores are `real`, not IEEE floats. Only the range check is modelled.
- `max_age_hours` is a whole number of hours. Fractional windows are not modelled.
- Ranking topics by engagement and breaking ties are not modelled, because the tests fix no order. Selection keeps the source's order.
- Retry policy, timeouts and cancellation of provider calls are not modelled. Each appears only as the corresponding error variant.
- Platform-specific length limits on generated text are not modelled, because they are provider configuration.
- A probabilistic judge is not modelled. The judge is a deterministic function of text and platform.
- Topic names and the agent, platform and niche identifiers are not checked for emptiness. The design calls them non-empty, but no test rejects an empty one.
- Python's exception machinery is replaced by `Result`. `ValueError` from a record constructor becomes `Failure(ValidationError(...))`.
