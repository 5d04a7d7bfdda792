/** The fetch_trends service: it asks the external trend source for
    candidates, discards the stale ones and caps the result at ten topics.
    The source and the wall clock are not modelled; they arrive as the
    `source` function and the `now` instant (whole seconds, UTC). */
module TrendService {
  import opened Wrappers
  import opened TrendModels

  /** At most this many topics are returned by one fetch. */
  const MaxTopics: nat := 10

  /** The staleness window used when the caller gives none. */
  const DefaultMaxAgeHours: nat := 8

  const SecondsPerHour: nat := 3600

  /** What the external trend source answers for a (platform, niche) query. */
  datatype SourceResponse = Available(candidates: seq<Topic>) | Unavailable

  datatype FetchError = SourceUnavailable

  /** The oldest admissible observation instant, `now - max_age_hours`. */
  function Cutoff(now: int, maxAgeHours: nat): int {
    now - maxAgeHours * SecondsPerHour
  }

  /** A topic is fresh when it was observed at or after the cutoff; a topic
      observed exactly at the cutoff is kept. */
  predicate IsFresh(t: TrendTopic, cutoff: int) {
    t.fetchedAt >= cutoff
  }

  /** The fresh candidates, in the source's order. */
  function FreshTopics(candidates: seq<Topic>, cutoff: int): (r: seq<Topic>)
    ensures forall i :: 0 <= i < |r| ==> IsFresh(r[i], cutoff)
    ensures forall i :: 0 <= i < |r| ==> r[i] in candidates
    ensures |r| <= |candidates|
  {
    if candidates == [] then []
    else
      var rest := FreshTopics(candidates[1..], cutoff);
      if IsFresh(candidates[0], cutoff) then [candidates[0]] + rest else rest
  }

  /** Filtering keeps each fresh topic with its multiplicity and drops every
      stale one. */
  lemma {:induction false} FreshTopicsCounts(candidates: seq<Topic>, cutoff: int)
    ensures forall t ::
      multiset(FreshTopics(candidates, cutoff))[t] == if IsFresh(t, cutoff) then multiset(candidates)[t] else 0
  {
    if candidates != [] {
      assert candidates == [candidates[0]] + candidates[1..];
      FreshTopicsCounts(candidates[1..], cutoff);
    }
  }

  /** Filtering distributes over concatenation. */
  lemma {:induction false} FreshTopicsAppend(a: seq<Topic>, b: seq<Topic>, cutoff: int)
    ensures FreshTopics(a + b, cutoff) == FreshTopics(a, cutoff) + FreshTopics(b, cutoff)
  {
    if a == [] {
      assert a + b == b;
    } else {
      assert (a + b)[1..] == a[1..] + b;
      FreshTopicsAppend(a[1..], b, cutoff);
    }
  }

  /** Trend selection: the fresh candidates, cut to at most ten. Which ten are
      kept when more are fresh is the source's order; no ranking is imposed.
      The result holds at most ten topics, all fresh, all drawn from the
      candidates; a result shorter than ten keeps every fresh candidate. */
  function SelectTrends(candidates: seq<Topic>, now: int, maxAgeHours: nat): (r: seq<Topic>)
    ensures |r| <= MaxTopics
    ensures forall i :: 0 <= i < |r| ==> IsFresh(r[i], Cutoff(now, maxAgeHours))
    ensures multiset(r) <= multiset(candidates)
    ensures |r| < MaxTopics ==>
      forall t :: IsFresh(t, Cutoff(now, maxAgeHours)) ==> multiset(r)[t] == multiset(candidates)[t]
  {
    var kept := FreshTopics(candidates, Cutoff(now, maxAgeHours));
    FreshTopicsCounts(candidates, Cutoff(now, maxAgeHours));
    if |kept| <= MaxTopics then kept
    else
      assert kept == kept[..MaxTopics] + kept[MaxTopics..];
      kept[..MaxTopics]
  }

  /** Appending one candidate appends it to the fresh topics exactly when it
      is fresh. */
  lemma FreshTopicsSnoc(s: seq<Topic>, x: Topic, cutoff: int)
    ensures FreshTopics(s + [x], cutoff)
      == FreshTopics(s, cutoff) + (if IsFresh(x, cutoff) then [x] else [])
  {
    FreshTopicsAppend(s, [x], cutoff);
    assert [x][1..] == [];
  }

  /** Once the prefix scanned so far has supplied the cap (or the scan is
      complete), the later candidates cannot change the selection. */
  lemma SelectionOfPrefix(candidates: seq<Topic>, i: nat, now: int, maxAgeHours: nat)
    requires i <= |candidates|
    requires |FreshTopics(candidates[..i], Cutoff(now, maxAgeHours))| <= MaxTopics
    requires i == |candidates| || |FreshTopics(candidates[..i], Cutoff(now, maxAgeHours))| == MaxTopics
    ensures SelectTrends(candidates, now, maxAgeHours) == FreshTopics(candidates[..i], Cutoff(now, maxAgeHours))
  {
    var cutoff := Cutoff(now, maxAgeHours);
    assert candidates == candidates[..i] + candidates[i..];
    FreshTopicsAppend(candidates[..i], candidates[i..], cutoff);
    var head := FreshTopics(candidates[..i], cutoff);
    var all := FreshTopics(candidates, cutoff);
    assert all == head + FreshTopics(candidates[i..], cutoff);
    if i == |candidates| {
      assert candidates[i..] == [];
      assert all == head;
    } else if |all| > MaxTopics {
      assert all[..MaxTopics] == head;
    } else {
      assert all == head;
    }
  }

  /** A single pass over the candidates that stops as soon as ten fresh
      topics are collected; it selects exactly what SelectTrends selects. */
  method SelectTrendsOnePass(candidates: seq<Topic>, now: int, maxAgeHours: nat)
    returns (r: seq<Topic>)
    ensures r == SelectTrends(candidates, now, maxAgeHours)
  {
    var cutoff := Cutoff(now, maxAgeHours);
    r := [];
    var i := 0;
    while i < |candidates| && |r| < MaxTopics
      invariant 0 <= i <= |candidates|
      invariant r == FreshTopics(candidates[..i], cutoff)
      invariant |r| <= MaxTopics
    {
      assert candidates[..i + 1] == candidates[..i] + [candidates[i]];
      FreshTopicsSnoc(candidates[..i], candidates[i], cutoff);
      if IsFresh(candidates[i], cutoff) {
        r := r + [candidates[i]];
      }
      i := i + 1;
    }
    SelectionOfPrefix(candidates, i, now, maxAgeHours);
  }

  /** fetch_trends(agent_id, platform, niche, max_age_hours). An unavailable
      source is reported as a FetchError, never masked as an empty result; an
      available one yields a TrendResult that satisfies the count invariant,
      holds at most ten topics, all observed no earlier than
      `now - max_age_hours`, and is stamped with the requesting agent, the
      platform and the fetch instant. */
  function FetchTrends(
    agentId: string,
    platform: string,
    niche: string,
    maxAgeHours: nat,
    now: int,
    source: (string, string) -> SourceResponse): (r: Result<TrendResult, FetchError>)
    ensures r.Failure? <==> source(platform, niche).Unavailable?
    ensures r.Success? ==>
      && r.value.Valid()
      && |r.value.topics| <= MaxTopics
      && (forall i :: 0 <= i < |r.value.topics| ==>
            IsFresh(r.value.topics[i], Cutoff(now, maxAgeHours)))
      && multiset(r.value.topics) <= multiset(source(platform, niche).candidates)
      && r.value.agentId == agentId
      && r.value.platform == platform
      && r.value.fetchTimestamp == now
  {
    match source(platform, niche)
    case Unavailable => Failure(SourceUnavailable)
    case Available(candidates) =>
      var topics := SelectTrends(candidates, now, maxAgeHours);
      Success(TrendResult(topics, agentId, now, platform, |topics|))
  }

  /** fetch_trends called with only agent_id, platform and niche uses the
      eight-hour window: nothing older than eight hours is returned. */
  function FetchTrendsDefault(
    agentId: string,
    platform: string,
    niche: string,
    now: int,
    source: (string, string) -> SourceResponse): (r: Result<TrendResult, FetchError>)
    ensures r.Failure? <==> source(platform, niche).Unavailable?
    ensures r.Success? ==>
      && r.value.Valid()
      && |r.value.topics| <= 10
      && (forall i :: 0 <= i < |r.value.topics| ==> r.value.topics[i].fetchedAt >= now - 8 * 3600)
  {
    FetchTrends(agentId, platform, niche, DefaultMaxAgeHours, now, source)
  }

  /** Stale candidates never reach the result, and when the source offers
      no more than ten fresh candidates every one of them is returned. */
  lemma FetchTrendsKeepsExactlyTheFresh(
    agentId: string,
    platform: string,
    niche: string,
    maxAgeHours: nat,
    now: int,
    source: (string, string) -> SourceResponse,
    t: TrendTopic)
    requires source(platform, niche).Available?
    ensures var r := FetchTrends(agentId, platform, niche, maxAgeHours, now, source);
      t !in source(platform, niche).candidates ==> t !in r.value.topics
    ensures var r := FetchTrends(agentId, platform, niche, maxAgeHours, now, source);
      !IsFresh(t, Cutoff(now, maxAgeHours)) ==> t !in r.value.topics
    ensures var r := FetchTrends(agentId, platform, niche, maxAgeHours, now, source);
      |FreshTopics(source(platform, niche).candidates, Cutoff(now, maxAgeHours))| <= MaxTopics
      && IsFresh(t, Cutoff(now, maxAgeHours)) && t in source(platform, niche).candidates
      ==> t in r.value.topics
  {
    var cands: seq<Topic> := source(platform, niche).candidates;
    var cutoff := Cutoff(now, maxAgeHours);
    var r := FetchTrends(agentId, platform, niche, maxAgeHours, now, source);
    assert r.value.topics == SelectTrends(cands, now, maxAgeHours);
    if t in r.value.topics {
      assert multiset(r.value.topics)[t] > 0;
    }
    if |FreshTopics(cands, cutoff)| <= MaxTopics && IsFresh(t, cutoff) && t in cands {
      FreshTopicsCounts(cands, cutoff);
      assert multiset(cands)[t] > 0;
      assert multiset(FreshTopics(cands, cutoff))[t] > 0;
    }
  }
}
