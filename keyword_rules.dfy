/**
 * Reference meaning of the reply generators' if-chains: an ordered table of
 * keyword rules over the lower-cased message, where a rule fires when the
 * message includes any of its keywords and the first rule that fires wins.
 */
module KeywordRules {
  import opened Wrappers
  import opened Text

  datatype Rule<T> = Rule(keywords: seq<string>, outcome: T)

  /** `includes(k1) || includes(k2) || ...`, evaluated left to right. */
  predicate AnyContains(lower: string, keywords: seq<string>)
    decreases |keywords|
  {
    |keywords| > 0 && (Contains(lower, keywords[0]) || AnyContains(lower, keywords[1..]))
  }

  /** The disjunction holds exactly when one of the keywords is included. */
  lemma {:induction false} AnyContainsIff(lower: string, keywords: seq<string>)
    ensures AnyContains(lower, keywords) <==> exists i :: 0 <= i < |keywords| && Contains(lower, keywords[i])
    decreases |keywords|
  {
    if |keywords| > 0 {
      AnyContainsIff(lower, keywords[1..]);
      if exists i :: 0 <= i < |keywords| && Contains(lower, keywords[i]) {
        var i :| 0 <= i < |keywords| && Contains(lower, keywords[i]);
        if i > 0 {
          assert keywords[1..][i - 1] == keywords[i];
        }
      }
    }
  }

  /** Rule `k` is the first rule of `rules` that fires on `lower`. */
  predicate FirstFiringAt<T>(rules: seq<Rule<T>>, lower: string, k: int) {
    && 0 <= k < |rules|
    && AnyContains(lower, rules[k].keywords)
    && forall j :: 0 <= j < k ==> !AnyContains(lower, rules[j].keywords)
  }

  /**
   * The outcome of the first rule that fires, if any: some rule fires
   * exactly when there is an outcome, and the outcome is that of the
   * lowest-numbered rule that fires.
   */
  function FirstMatch<T>(rules: seq<Rule<T>>, lower: string): (r: Option<T>)
    ensures r.Some? <==> exists k :: 0 <= k < |rules| && AnyContains(lower, rules[k].keywords)
    ensures r.Some? ==> exists k :: FirstFiringAt(rules, lower, k) && r.value == rules[k].outcome
    decreases |rules|
  {
    if |rules| == 0 then None
    else if AnyContains(lower, rules[0].keywords) then
      assert FirstFiringAt(rules, lower, 0);
      Some(rules[0].outcome)
    else
      var r := FirstMatch(rules[1..], lower);
      assert forall k :: 1 <= k < |rules| ==> rules[k] == rules[1..][k - 1];
      assert r.Some? ==> exists k :: FirstFiringAt(rules, lower, k) && r.value == rules[k].outcome by {
        if r.Some? {
          var k :| FirstFiringAt(rules[1..], lower, k) && r.value == rules[1..][k].outcome;
          assert FirstFiringAt(rules, lower, k + 1);
        }
      }
      r
  }

  /** Only the first rule that fires decides: whatever rule `k` says, when it is the first to fire its outcome is the result. */
  lemma FirstMatchIsFirst<T>(rules: seq<Rule<T>>, lower: string, k: int)
    requires FirstFiringAt(rules, lower, k)
    ensures FirstMatch(rules, lower) == Some(rules[k].outcome)
  {
    var r := FirstMatch(rules, lower);
    var k' :| FirstFiringAt(rules, lower, k') && r.value == rules[k'].outcome;
    assert k' == k;
  }

  /** One step of `FirstMatch`: the head rule decides when it fires, the rest of the table otherwise. */
  lemma FirstMatchStep<T>(rules: seq<Rule<T>>, lower: string)
    requires |rules| > 0
    ensures FirstMatch(rules, lower) == if AnyContains(lower, rules[0].keywords) then Some(rules[0].outcome) else FirstMatch(rules[1..], lower)
  {
  }

  /** `AnyContains` over a literal list of one to five keywords is the plain disjunction. */
  lemma AnyContains1(lower: string, a: string)
    ensures AnyContains(lower, [a]) == Contains(lower, a)
  {
    assert [a][1..] == [];
  }

  lemma AnyContains2(lower: string, a: string, b: string)
    ensures AnyContains(lower, [a, b]) == (Contains(lower, a) || Contains(lower, b))
  {
    assert [a, b][1..] == [b];
    AnyContains1(lower, b);
  }

  lemma AnyContains3(lower: string, a: string, b: string, c: string)
    ensures AnyContains(lower, [a, b, c]) == (Contains(lower, a) || Contains(lower, b) || Contains(lower, c))
  {
    assert [a, b, c][1..] == [b, c];
    AnyContains2(lower, b, c);
  }

  lemma AnyContains4(lower: string, a: string, b: string, c: string, d: string)
    ensures AnyContains(lower, [a, b, c, d])
         == (Contains(lower, a) || Contains(lower, b) || Contains(lower, c) || Contains(lower, d))
  {
    assert [a, b, c, d][1..] == [b, c, d];
    AnyContains3(lower, b, c, d);
  }

  lemma AnyContains5(lower: string, a: string, b: string, c: string, d: string, e: string)
    ensures AnyContains(lower, [a, b, c, d, e])
         == (Contains(lower, a) || Contains(lower, b) || Contains(lower, c) || Contains(lower, d) || Contains(lower, e))
  {
    assert [a, b, c, d, e][1..] == [b, c, d, e];
    AnyContains4(lower, b, c, d, e);
  }
}
