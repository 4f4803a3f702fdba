/**
 * `budget_agent` (multi_agent_app_test/agents/budget_agent.py): the limit read
 * from the first message, the dollar amounts read from the whole history, and
 * the spend/remaining arithmetic with its warning.  Each message is its
 * content as text; the final chat call that rewords the report is left out.
 */
module BudgetAgent {
  import opened Wrappers
  import opened PyText

  /** The end of the run of digits that starts at `i` (`i` itself when `s[i]` is no digit). */
  function RunEnd(s: string, i: nat): (e: nat)
    requires i <= |s|
    ensures i <= e <= |s|
    ensures forall k :: i <= k < e ==> IsDigit(s[k])
    ensures e == |s| || !IsDigit(s[e])
    decreases |s| - i
  {
    if i == |s| || !IsDigit(s[i]) then i else RunEnd(s, i + 1)
  }

  /** Three digits in a row start at `j`. */
  predicate ThreeDigitsAt(s: string, j: int) {
    0 <= j && j + 3 <= |s| && IsDigit(s[j]) && IsDigit(s[j + 1]) && IsDigit(s[j + 2])
  }

  /** `s[a..b]` is a whole run of digits: digits only, with no digit just before or just after it. */
  predicate MaximalRun(s: string, a: int, b: int) {
    0 <= a <= b <= |s| && (a == 0 || !IsDigit(s[a - 1])) && (b == |s| || !IsDigit(s[b]))
    && forall k :: a <= k < b ==> IsDigit(s[k])
  }

  // ---------------------------------------------------------------- the limit

  /**
   * Where `re.search(r'\$?(\d{3,})', s)` finds its group, searching from `i`:
   * the first whole run of at least three digits.  The optional `$` never
   * changes the group, and a match cannot start inside a shorter run.
   */
  function LongRunFrom(s: string, i: nat): (r: Option<(nat, nat)>)
    requires i <= |s| && (i == 0 || !IsDigit(s[i - 1]))
    ensures r.Some? ==>
              i <= r.value.0 && r.value.0 + 3 <= r.value.1 && MaximalRun(s, r.value.0, r.value.1)
              && forall j :: i <= j < r.value.0 ==> !ThreeDigitsAt(s, j)
    ensures r.None? <==> forall j :: i <= j ==> !ThreeDigitsAt(s, j)
    decreases |s| - i
  {
    if i == |s| then None
    else if !IsDigit(s[i]) then LongRunFrom(s, i + 1)
    else
      var e := RunEnd(s, i);
      if e - i >= 3 then
        assert ThreeDigitsAt(s, i);
        Some((i, e))
      else if e == |s| then None
      else LongRunFrom(s, e + 1)
  }

  /** `float(m.group(1)) if m else 0.0` for the search over the first message. */
  function Limit(first: string): (limit: real)
    ensures limit >= 0.0
  {
    match LongRunFrom(first, 0)
    case Some((a, b)) => DigitsValue(first[a..b]) as real
    case None => 0.0
  }

  /** A first message with no three digits in a row sets no limit. */
  lemma NoLongRunNoLimit(first: string)
    requires forall j :: !ThreeDigitsAt(first, j)
    ensures Limit(first) == 0.0
  {
  }

  /** `"Plan a trip for $2000"` sets a limit of 2000. */
  lemma LimitExample()
    ensures Limit("for $2000") == 2000.0
  {
    var s := "for $2000";
    assert !IsDigit(s[0]) && !IsDigit(s[1]) && !IsDigit(s[2]) && !IsDigit(s[3]) && !IsDigit(s[4]);
    assert RunEnd(s, 5) == 9;
    assert LongRunFrom(s, 0) == LongRunFrom(s, 5) == Some((5, 9));
    assert s[5..9] == "2000";
    TwoThousand();
  }

  // --------------------------------------------------------------- the prices

  /** A match of `\$(\d+(?:\.\d{2})?)` can start at `p`: a `$` followed by a digit. */
  predicate PriceStartsAt(s: string, p: int) {
    0 <= p && p + 1 < |s| && s[p] == '$' && IsDigit(s[p + 1])
  }

  /** The text of one price: digits, or digits, a `.` and exactly two digits. */
  predicate PriceText(t: string) {
    (t != [] && AllDigits(t))
    || (|t| >= 4 && AllDigits(t[..|t| - 3]) && t[|t| - 3] == '.' && AllDigits(t[|t| - 2..]))
  }

  /** The text between the `$` at `p` and `e` is a price. */
  predicate PriceSpan(s: string, p: int, e: int) {
    0 <= p < e <= |s| && PriceText(s[p + 1..e])
  }

  /**
   * Where the match that starts at `p` ends: the whole digit run, then `.dd`
   * when a `.` and two digits follow it.  The match is the longest price text
   * starting after the `$`, as the greedy `\d+(?:\.\d{2})?` makes it.
   */
  function PriceEnd(s: string, p: nat): (e: nat)
    requires PriceStartsAt(s, p)
    ensures p + 2 <= e <= |s|
    ensures PriceSpan(s, p, e)
    ensures forall k :: p < k < e ==> s[k] != '$'
    ensures forall e' :: e < e' ==> !PriceSpan(s, p, e')
  {
    var w := RunEnd(s, p + 1);
    var dd := w + 2 < |s| && s[w] == '.' && IsDigit(s[w + 1]) && IsDigit(s[w + 2]);
    PriceEndIsLongest(s, p, w, dd);
    if dd then w + 3 else w
  }

  /** The end PriceEnd picks gives a price text, and none reaching past it is one. */
  lemma PriceEndIsLongest(s: string, p: nat, w: nat, dd: bool)
    requires PriceStartsAt(s, p) && w == RunEnd(s, p + 1)
    requires dd == (w + 2 < |s| && s[w] == '.' && IsDigit(s[w + 1]) && IsDigit(s[w + 2]))
    ensures PriceSpan(s, p, if dd then w + 3 else w)
    ensures forall e' :: (if dd then w + 3 else w) < e' ==> !PriceSpan(s, p, e')
  {
    if dd {
      var t := s[p + 1..w + 3];
      assert |t| >= 4 && t[..|t| - 3] == s[p + 1..w] && t[|t| - 3] == '.' && t[|t| - 2..] == s[w + 1..w + 3];
    } else {
      assert s[p + 1..w] != [] && AllDigits(s[p + 1..w]);
    }
    forall e' | (if dd then w + 3 else w) < e' ensures !PriceSpan(s, p, e') {
      if e' <= |s| {
        NoLongerPrice(s, p, w, dd, e');
      }
    }
  }

  /** No text reaching past the match is a price: the digit run is whole and `.dd` is taken when present. */
  lemma NoLongerPrice(s: string, p: nat, w: nat, dd: bool, e': nat)
    requires PriceStartsAt(s, p) && w == RunEnd(s, p + 1)
    requires dd == (w + 2 < |s| && s[w] == '.' && IsDigit(s[w + 1]) && IsDigit(s[w + 2]))
    requires (if dd then w + 3 else w) < e' <= |s|
    ensures !PriceText(s[p + 1..e'])
  {
    var t := s[p + 1..e'];
    assert t[w - p - 1] == s[w] && !IsDigit(s[w]);
    if |t| >= 4 {
      var head, dot, tail := t[..|t| - 3], t[|t| - 3], t[|t| - 2..];
      assert dot == s[e' - 3] && tail[0] == s[e' - 2] && tail[1] == s[e' - 1];
      assert w - p - 1 < |t| - 3 ==> head[w - p - 1] == s[w];
      assert w < e' - 3 || e' - 3 < w || e' - 3 == w;
      assert e' - 3 < w && p + 1 <= e' - 3 ==> IsDigit(s[e' - 3]);
    }
  }

  /**
   * The matches `re.findall` makes from `i` on, as (start, end) pairs: the
   * search resumes after each match, and every `$` followed by a digit starts
   * one, since no match holds a `$` past its first character.
   */
  function MatchesFrom(s: string, i: nat): (r: seq<(nat, nat)>)
    requires i <= |s|
    ensures forall k :: 0 <= k < |r| ==> i <= r[k].0 && PriceStartsAt(s, r[k].0) && r[k].1 == PriceEnd(s, r[k].0)
    ensures forall k :: 0 <= k < |r| - 1 ==> r[k].1 <= r[k + 1].0
    decreases |s| - i
  {
    if i == |s| then []
    else if PriceStartsAt(s, i) then [(i, PriceEnd(s, i))] + MatchesFrom(s, PriceEnd(s, i))
    else MatchesFrom(s, i + 1)
  }

  /** Every `$` followed by a digit from `i` on starts one of the matches. */
  lemma {:induction false} MatchesCover(s: string, i: nat, p: nat)
    requires i <= p && PriceStartsAt(s, p)
    ensures exists k :: 0 <= k < |MatchesFrom(s, i)| && MatchesFrom(s, i)[k].0 == p
    decreases |s| - i
  {
    var r := MatchesFrom(s, i);
    if PriceStartsAt(s, i) {
      var e := PriceEnd(s, i);
      assert r == [(i, e)] + MatchesFrom(s, e);
      if p == i {
        assert r[0].0 == p;
      } else {
        DollarNotInside(s, i, e, p);
        MatchesCover(s, e, p);
        var rest := MatchesFrom(s, e);
        var k :| 0 <= k < |rest| && rest[k].0 == p;
        assert r[k + 1] == rest[k];
      }
    } else {
      assert i != p && i < |s|;
      assert r == MatchesFrom(s, i + 1);
      MatchesCover(s, i + 1, p);
    }
  }

  /** A `$` after the start of a match lies past its end, as no match holds a `$` after its first character. */
  lemma DollarNotInside(s: string, i: nat, e: nat, p: nat)
    requires PriceStartsAt(s, i) && e == PriceEnd(s, i)
    requires i < p && PriceStartsAt(s, p)
    ensures e <= p
  {
  }

  /** The group texts `re.findall` returns, in order. */
  function Prices(s: string): (r: seq<string>)
    ensures forall k :: 0 <= k < |r| ==> PriceText(r[k])
  {
    var ms := MatchesFrom(s, 0);
    seq(|ms|, k requires 0 <= k < |ms| => s[ms[k].0 + 1..ms[k].1])
  }

  /** `float(p)` reads a price text as digits and two optional decimals. */
  lemma {:induction false} PriceValue(t: string)
    requires PriceText(t)
    ensures ParseDecimal(t).Some?
  {
    if AllDigits(t) {
      assert IndexOf(t, '.') == |t|;
      assert t[..|t|] == t;
    } else {
      assert IndexOf(t, '.') == |t| - 3;
    }
  }

  /** `sum(float(p) for p in prices)`. */
  function PriceSum(prices: seq<string>): (total: real)
    ensures total >= 0.0
  {
    if prices == [] then 0.0 else ParseDecimal(prices[0]).GetOr(0.0) + PriceSum(prices[1..])
  }

  /** `" ".join(messages)`. */
  function JoinSpaced(messages: seq<string>): string {
    if messages == [] then ""
    else if |messages| == 1 then messages[0]
    else messages[0] + " " + JoinSpaced(messages[1..])
  }

  // ------------------------------------------------------------------- report

  const OverBudget: string := "WARNING: You are over budget! Please find cheaper alternatives."
  const WithinLimits: string := "Budget is currently within limits."

  /** The figures of the report and its closing line; `currentBudget` is what the node stores in the state. */
  datatype BudgetUpdate = BudgetUpdate(limit: real, currentBudget: real, remaining: real, verdict: string)

  /** `budget_agent(state)`: the empty history makes `messages[0]` raise. */
  function Budget(messages: seq<string>): Result<BudgetUpdate, string> {
    if messages == [] then Failure("list index out of range")
    else
      var limit := Limit(messages[0]);
      var currentTotal := PriceSum(Prices(JoinSpaced(messages))) - limit;
      var remaining := limit - currentTotal;
      Success(BudgetUpdate(limit, currentTotal, remaining, if remaining < 0.0 then OverBudget else WithinLimits))
  }

  /**
   * The node fails only on an empty history.  The stored budget is the sum of
   * every dollar amount less the limit, the remainder is twice the limit less
   * that sum, and the warning is given exactly when the remainder is negative,
   * that is when the amounts add up to more than twice the limit.
   */
  lemma BudgetFigures(messages: seq<string>)
    ensures Budget(messages).Success? <==> messages != []
    ensures messages != [] ==>
              var u := Budget(messages).value;
              var spent := PriceSum(Prices(JoinSpaced(messages)));
              && u.limit == Limit(messages[0])
              && u.currentBudget == spent - u.limit
              && u.remaining == 2.0 * u.limit - spent
              && (u.verdict == OverBudget <==> u.remaining < 0.0)
              && (u.verdict == OverBudget <==> spent > 2.0 * u.limit)
              && (u.verdict == OverBudget || u.verdict == WithinLimits)
  {
  }

  // ---------------------------------------------------------- intended spend

  /**
   * The spend as the comment beside the arithmetic describes it: the limit is
   * taken off only when it is the first amount found, the echo of the user's
   * own `$` budget.
   */
  function IntendedSpend(limit: real, prices: seq<string>): real {
    var all := PriceSum(prices);
    if prices != [] && ParseDecimal(prices[0]).GetOr(0.0) == limit then all - limit else all
  }

  /**
   * The report with the intended spend.  The spend it stores is never
   * negative and adds up only amounts that are not the echoed limit.
   */
  function IntendedBudget(messages: seq<string>): (r: Result<BudgetUpdate, string>)
    ensures r.Success? <==> messages != []
    ensures r.Success? ==> r.value.currentBudget >= 0.0 && (r.value.verdict == OverBudget <==> r.value.currentBudget > r.value.limit)
  {
    if messages == [] then Failure("list index out of range")
    else
      var limit := Limit(messages[0]);
      var spend := IntendedSpend(limit, Prices(JoinSpaced(messages)));
      var remaining := limit - spend;
      Success(BudgetUpdate(limit, spend, remaining, if remaining < 0.0 then OverBudget else WithinLimits))
  }

  /** When the first amount is not the limit, the intended spend is the plain sum. */
  lemma IntendedSpendWithoutEcho(limit: real, prices: seq<string>)
    requires prices == [] || ParseDecimal(prices[0]).GetOr(0.0) != limit
    ensures IntendedSpend(limit, prices) == PriceSum(prices)
  {
  }

  /**
   * A budget written without `$` ("2000") is still taken off the spend, which
   * then reads as negative: -2000 for a history with no amount at all.
   */
  lemma NegativeSpendAsWritten()
    ensures Budget(["Budget 2000"]).Success?
    ensures Budget(["Budget 2000"]).value.currentBudget == -2000.0
    ensures IntendedBudget(["Budget 2000"]).value.currentBudget == 0.0
  {
    var s := "Budget 2000";
    assert JoinSpaced([s]) == s;
    BareLimit();
    NoDollarNoPrices();
  }

  /** The digit value behind LimitExample and NegativeSpendAsWritten. */
  lemma TwoThousand()
    ensures DigitsValue("2000") == 2000
  {
    assert "2000"[..3] == "200" && "200"[..2] == "20" && "20"[..1] == "2" && "2"[..0] == "";
  }

  /** The limit NegativeSpendAsWritten starts from: a bare number counts without a `$`. */
  lemma BareLimit()
    ensures Limit("Budget 2000") == 2000.0
  {
    var s := "Budget 2000";
    assert forall j :: 0 <= j < 7 ==> !IsDigit(s[j]);
    assert RunEnd(s, 7) == 11;
    assert LongRunFrom(s, 0) == Some((7, 11));
    assert s[7..11] == "2000";
    TwoThousand();
  }

  /** The other half of NegativeSpendAsWritten: without a `$` no price is found. */
  lemma NoDollarNoPrices()
    ensures MatchesFrom("Budget 2000", 0) == []
  {
    var s := "Budget 2000";
    assert forall p :: !PriceStartsAt(s, p);
  }
}
