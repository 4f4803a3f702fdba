/**
 * `rank_items_via_llm` (travel_planner/llm/openai_client.py): the heuristic
 * scoring used without a client and after a failed call, the code-fence
 * stripping of a model reply, and the top_k truncation.  The chat completion
 * and `json.loads` are inputs: the outcome of the call and a parse function.
 */
module LlmRanker {
  import opened Wrappers
  import opened Money
  import opened Sequences
  import opened PyText
  import opened Records

  /**
   * The price the heuristic reads: `price` when the key is present, else
   * `price_per_night`, else `estimated_price`, else 0.
   */
  function HeuristicPrice(c: Candidate): (p: real)
    ensures c.price.Some? ==> p == c.price.value
    ensures c.price.None? && c.pricePerNight.Some? ==> p == c.pricePerNight.value
    ensures c.price.None? && c.pricePerNight.None? ==> p == c.estimatedPrice.GetOr(0.0)
  {
    if c.price.Some? then c.price.value
    else if c.pricePerNight.Some? then c.pricePerNight.value
    else c.estimatedPrice.GetOr(0.0)
  }

  /** `round(max(1, 100 - price + rating), 2)`. */
  function HeuristicScore(c: Candidate): real {
    var raw := 100.0 - HeuristicPrice(c) + GetOrZero(c.rating);
    Round2(if raw < 1.0 then 1.0 else raw)
  }

  /** Every heuristic score is at least 1 and a whole number of cents. */
  lemma ScoreBounds(c: Candidate)
    ensures HeuristicScore(c) >= 1.0 && IsCents(HeuristicScore(c))
  {
    var raw := 100.0 - HeuristicPrice(c) + GetOrZero(c.rating);
    RoundMonotone(1.0, if raw < 1.0 then 1.0 else raw);
    CentsOfWhole(100);
    RoundIsCents(if raw < 1.0 then 1.0 else raw);
  }

  /** The copy of `c` with its `score` entry set. */
  function Scored(c: Candidate): Candidate {
    c.(score := Some(HeuristicScore(c)))
  }

  /** The `scored` list the heuristic loop builds. */
  function ScoreAll(candidates: seq<Candidate>): (scored: seq<Candidate>)
    ensures |scored| == |candidates|
    ensures forall i :: 0 <= i < |candidates| ==> scored[i] == Scored(candidates[i])
  {
    if candidates == [] then []
    else ScoreAll(candidates[..|candidates| - 1]) + [Scored(candidates[|candidates| - 1])]
  }

  /** The order of the key `-x["score"]`: higher scores first. */
  predicate ScoreFirst(a: Candidate, b: Candidate) {
    a.score.GetOr(0.0) >= b.score.GetOr(0.0)
  }

  lemma ScoreFirstIsTotalPreorder()
    ensures TotalPreorder(ScoreFirst)
  {
  }

  /** What the heuristic returns: the scored copies, best first, cut to `top_k` (a Python slice). */
  function HeuristicRanking(candidates: seq<Candidate>, topK: int): seq<Candidate> {
    SliceTo(SortBy(ScoreAll(candidates), ScoreFirst), topK)
  }

  /** The heuristic ranker, with its scoring loop. */
  method HeuristicRank(candidates: seq<Candidate>, topK: int) returns (ranked: seq<Candidate>)
    ensures ranked == HeuristicRanking(candidates, topK)
  {
    var scored: seq<Candidate> := [];
    for i := 0 to |candidates|
      invariant scored == ScoreAll(candidates[..i])
    {
      assert candidates[..i + 1][..i] == candidates[..i];
      scored := scored + [Scored(candidates[i])];
    }
    assert candidates[..|candidates|] == candidates;
    var sorted := SortBy(scored, ScoreFirst);
    ranked := SliceTo(sorted, topK);
  }

  /**
   * The ranking is ordered by score, best first, and holds a prefix of the
   * sorted scored copies: `top_k` of them for a `top_k` up to the number of
   * candidates, all of them for a larger one.
   */
  lemma HeuristicRankingShape(candidates: seq<Candidate>, topK: int)
    ensures var r := HeuristicRanking(candidates, topK);
            && SortedBy(r, ScoreFirst)
            && (0 <= topK ==> |r| == if topK < |candidates| then topK else |candidates|)
            && r == SortBy(ScoreAll(candidates), ScoreFirst)[..|r|]
  {
    var sorted := SortBy(ScoreAll(candidates), ScoreFirst);
    ScoreFirstIsTotalPreorder();
    SortBySorted(ScoreAll(candidates), ScoreFirst);
    var r := SliceTo(sorted, topK);
    assert forall i :: 0 <= i < |r| ==> r[i] == sorted[i];
  }

  /**
   * Every ranked item is the scored copy of a candidate, with a score of at
   * least 1; the candidates themselves are values and stay as they were.
   */
  lemma HeuristicRankingItems(candidates: seq<Candidate>, topK: int)
    ensures var r := HeuristicRanking(candidates, topK);
            forall x :: x in r ==>
              (exists c :: c in candidates && x == Scored(c)) && x.score.Some? && x.score.value >= 1.0
  {
    var scored := ScoreAll(candidates);
    var sorted := SortBy(scored, ScoreFirst);
    var r := SliceTo(sorted, topK);
    MultisetMembers(sorted, scored);
    forall x | x in r ensures (exists c :: c in candidates && x == Scored(c)) && x.score.Some? && x.score.value >= 1.0 {
      assert x in sorted;
      var i :| 0 <= i < |scored| && scored[i] == x;
      ScoreBounds(candidates[i]);
    }
  }

  /** The first ranked item has the highest score of all candidates. */
  lemma HeuristicTopIsBest(candidates: seq<Candidate>, topK: int)
    requires candidates != [] && topK != 0 && (topK < 0 ==> |candidates| + topK > 0)
    ensures var r := HeuristicRanking(candidates, topK);
            r != [] && forall c :: c in candidates ==> r[0].score.value >= HeuristicScore(c)
  {
    var scored := ScoreAll(candidates);
    var sorted := SortBy(scored, ScoreFirst);
    ScoreFirstIsTotalPreorder();
    SortBySorted(scored, ScoreFirst);
    MultisetMembers(sorted, scored);
    var r := SliceTo(sorted, topK);
    assert r[0] == sorted[0];
    assert r[0] in scored;
    forall c | c in candidates ensures r[0].score.value >= HeuristicScore(c) {
      var i :| 0 <= i < |candidates| && candidates[i] == c;
      assert scored[i] in sorted;
      var j :| 0 <= j < |sorted| && sorted[j] == scored[i];
      assert j == 0 || ScoreFirst(sorted[0], sorted[j]);
    }
  }

  /** Candidates with equal scores keep their input order (Python's sort is stable). */
  lemma HeuristicRankingStable(candidates: seq<Candidate>, c: Candidate)
    ensures TiedWith(HeuristicRanking(candidates, |candidates|), ScoreFirst, c) == TiedWith(ScoreAll(candidates), ScoreFirst, c)
  {
    ScoreFirstIsTotalPreorder();
    SortByStable(ScoreAll(candidates), ScoreFirst, c);
  }

  // ------------------------------------------------------------ model replies

  const Fence: string := "```"

  /** The lines `splitlines` gives that do not start with a fence. */
  function UnfencedLines(lines: seq<string>): (r: seq<string>)
    ensures forall j :: 0 <= j < |r| ==> !StartsWith(r[j], Fence) && r[j] in lines
    ensures forall j :: 0 <= j < |lines| && !StartsWith(lines[j], Fence) ==> lines[j] in r
  {
    Filter(lines, (line: string) => !StartsWith(line, Fence))
  }

  /** The reply text after `strip()` and, when it opens with a fence, the removal of every fence line. */
  function StripCodeFences(text: string): string {
    var t := Strip(text);
    if StartsWith(t, Fence) then JoinLines(UnfencedLines(SplitLines(t))) else t
  }

  /** After stripping a fenced reply, no line of the text starts with a fence. */
  lemma StrippedHasNoFenceLine(text: string, i: int)
    requires StartsWith(Strip(text), Fence)
    requires LineStart(StripCodeFences(text), i)
    ensures !StartsWith(StripCodeFences(text)[i..], Fence)
  {
    var lines := SplitLines(Strip(text));
    var kept := UnfencedLines(lines);
    forall j | 0 <= j < |kept| ensures '\n' !in kept[j] && !StartsWith(kept[j], Fence) {
      var k :| 0 <= k < |lines| && lines[k] == kept[j];
    }
    JoinedLinesAvoidPrefix(kept, Fence, i);
  }

  /** A reply without an opening fence is only stripped of surrounding whitespace. */
  lemma UnfencedReplyKept(text: string)
    requires !StartsWith(Strip(text), Fence)
    ensures StripCodeFences(text) == Strip(text)
  {
  }

  /** What `json.loads` makes of a text: it raises, or a list of items, or some other value. */
  datatype Json = JsonInvalid | JsonList(items: seq<Candidate>) | JsonOther

  /** The chat completion call: it raised, or the reply's content (None when the content is missing). */
  datatype Completion = CallRaised | Reply(content: Option<string>)

  /** The configured client: none, or one whose call yields `completion`. */
  datatype Client = NoClient | OpenAi(completion: Completion)

  /** `rank_items_via_llm(role, candidates, context, top_k)`; `parse` is `json.loads`. */
  method RankItems(client: Client, parse: string -> Json, candidates: seq<Candidate>, topK: int)
    returns (ranked: seq<Candidate>)
    ensures client.NoClient? ==> ranked == HeuristicRanking(candidates, topK)
    ensures client.OpenAi? && client.completion.CallRaised? ==> ranked == HeuristicRanking(candidates, topK)
    ensures client.OpenAi? && client.completion.Reply? && client.completion.content.None? ==>
              ranked == HeuristicRanking(candidates, topK)
    ensures client.OpenAi? && client.completion.Reply? && client.completion.content.Some? ==>
              match parse(StripCodeFences(client.completion.content.value))
              case JsonInvalid => ranked == HeuristicRanking(candidates, topK)
              case JsonList(items) => ranked == SliceTo(items, topK)
              case JsonOther => ranked == []
  {
    if client.NoClient? {
      ranked := HeuristicRank(candidates, topK);
      return;
    }
    match client.completion {
      case CallRaised =>
        ranked := HeuristicRank(candidates, topK);
      case Reply(content) =>
        if content.None? {
          ranked := HeuristicRank(candidates, topK);
        } else {
          var text := StripCodeFences(content.value);
          match parse(text) {
            case JsonInvalid =>
              ranked := HeuristicRank(candidates, topK);
            case JsonList(items) =>
              ranked := SliceTo(items, topK);
            case JsonOther =>
              ranked := [];
          }
        }
    }
  }
}
