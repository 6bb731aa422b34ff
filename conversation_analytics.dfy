/**
 * The analytics panel (`ConversationAnalytics`): message counts, the
 * average assistant confidence and the histogram of assistant moods,
 * computed from the message list. The `filter`/`reduce` chains are left
 * folds, so each aggregate here recurs on the list without its last
 * message.
 */
module ConversationAnalytics {
  import opened Wrappers
  import opened JsMath
  import opened Messages

  /** `messages.filter(m => m.isUser).length`. */
  function UserCount(ms: seq<Message>): nat
    decreases |ms|
  {
    if |ms| == 0 then 0
    else UserCount(ms[..|ms| - 1]) + (if ms[|ms| - 1].isUser then 1 else 0)
  }

  /** `messages.filter(m => !m.isUser).length`. */
  function AiCount(ms: seq<Message>): nat
    decreases |ms|
  {
    if |ms| == 0 then 0
    else AiCount(ms[..|ms| - 1]) + (if ms[|ms| - 1].isUser then 0 else 1)
  }

  /** Every message is counted once: as the user's or as the assistant's. */
  lemma {:induction false} CountsPartition(ms: seq<Message>)
    ensures UserCount(ms) + AiCount(ms) == |ms|
    decreases |ms|
  {
    if |ms| > 0 {
      CountsPartition(ms[..|ms| - 1]);
    }
  }

  /** A message whose confidence enters the sum: an assistant message with a confidence that is not 0 (`m.confidence` is truthy). */
  predicate Counted(m: Message) {
    !m.isUser && m.confidence.Some? && m.confidence.value != 0.0
  }

  /** The `reduce` of the confidences of the counted messages. */
  function ConfidenceSum(ms: seq<Message>): real
    decreases |ms|
  {
    if |ms| == 0 then 0.0
    else
      var m := ms[|ms| - 1];
      ConfidenceSum(ms[..|ms| - 1]) + (if Counted(m) then m.confidence.value else 0.0)
  }

  /** Every assistant confidence present lies in `[0, 1]`. */
  predicate ConfidencesInRange(ms: seq<Message>) {
    forall i :: 0 <= i < |ms| && !ms[i].isUser && ms[i].confidence.Some? ==> 0.0 <= ms[i].confidence.value <= 1.0
  }

  /** `averageConfidence`: the sum over `Math.max(aiMessages, 1)`. */
  function AverageConfidence(ms: seq<Message>): real {
    ConfidenceSum(ms) / Max(AiCount(ms), 1) as real
  }

  /** With confidences in `[0, 1]` the sum lies between 0 and the number of assistant messages. */
  lemma {:induction false} ConfidenceSumBounds(ms: seq<Message>)
    requires ConfidencesInRange(ms)
    ensures 0.0 <= ConfidenceSum(ms) <= AiCount(ms) as real
    decreases |ms|
  {
    if |ms| > 0 {
      var p := ms[..|ms| - 1];
      assert forall i :: 0 <= i < |p| ==> p[i] == ms[i];
      ConfidenceSumBounds(p);
    }
  }

  /**
   * With confidences in `[0, 1]` the average lies in `[0, 1]`, and with no
   * assistant message it is 0.
   */
  lemma AverageConfidenceBounds(ms: seq<Message>)
    requires ConfidencesInRange(ms)
    ensures 0.0 <= AverageConfidence(ms) <= 1.0
    ensures AiCount(ms) == 0 ==> AverageConfidence(ms) == 0.0
  {
    ConfidenceSumBounds(ms);
    var n := Max(AiCount(ms), 1) as real;
    assert ConfidenceSum(ms) <= n;
    assert ConfidenceSum(ms) / n <= n / n;
  }

  /**
   * A message the sum skips (the user's, or one with no or zero
   * confidence) leaves the sum as it is, but an assistant message still
   * counts in the denominator.
   */
  lemma SkippedMessage(ms: seq<Message>, m: Message)
    requires !Counted(m)
    ensures ConfidenceSum(ms + [m]) == ConfidenceSum(ms)
    ensures AiCount(ms + [m]) == AiCount(ms) + (if m.isUser then 0 else 1)
  {
    assert (ms + [m])[..|ms|] == ms;
  }

  /** The percentage shown, `Math.round(averageConfidence * 100)`: between 0 and 100 when confidences lie in `[0, 1]`. */
  function ConfidencePercent(ms: seq<Message>): (p: int)
    requires ConfidencesInRange(ms)
    ensures 0 <= p <= 100
  {
    AverageConfidenceBounds(ms);
    Round(AverageConfidence(ms) * 100.0)
  }

  /** An assistant message the histogram counts: its mood is present and not the empty string. */
  predicate HasMood(m: Message) {
    !m.isUser && m.mood.Some? && |m.mood.value| > 0
  }

  /** The number of messages the histogram counts. */
  function MoodCount(ms: seq<Message>): nat
    decreases |ms|
  {
    if |ms| == 0 then 0
    else MoodCount(ms[..|ms| - 1]) + (if HasMood(ms[|ms| - 1]) then 1 else 0)
  }

  /** The number of counted messages with mood `k`. */
  function MoodTally(ms: seq<Message>, k: string): nat
    decreases |ms|
  {
    if |ms| == 0 then 0
    else
      var m := ms[|ms| - 1];
      MoodTally(ms[..|ms| - 1], k) + (if HasMood(m) && m.mood.value == k then 1 else 0)
  }

  /** Counted messages are assistant messages. */
  lemma {:induction false} MoodCountAtMostAi(ms: seq<Message>)
    ensures MoodCount(ms) <= AiCount(ms)
    decreases |ms|
  {
    if |ms| > 0 {
      MoodCountAtMostAi(ms[..|ms| - 1]);
    }
  }

  /** One key of the `Record<string, number>` with its count. */
  datatype Entry = Entry(mood: string, count: nat)

  /** `k` is a key of `d`. */
  predicate HasKey(d: seq<Entry>, k: string)
    decreases |d|
  {
    |d| > 0 && (d[0].mood == k || HasKey(d[1..], k))
  }

  /** No key appears twice. */
  predicate DistinctKeys(d: seq<Entry>)
    decreases |d|
  {
    |d| == 0 || (!HasKey(d[1..], d[0].mood) && DistinctKeys(d[1..]))
  }

  /** `HasKey` holds exactly for the keys at some position. */
  lemma {:induction false} HasKeyIff(d: seq<Entry>, k: string)
    ensures HasKey(d, k) <==> exists i :: 0 <= i < |d| && d[i].mood == k
    decreases |d|
  {
    if |d| > 0 {
      HasKeyIff(d[1..], k);
      if exists i :: 0 <= i < |d| && d[i].mood == k {
        var i :| 0 <= i < |d| && d[i].mood == k;
        if i > 0 {
          assert d[1..][i - 1].mood == k;
        }
      }
    }
  }

  /** Distinct keys in the positional sense: no two positions hold the same key. */
  lemma {:induction false} DistinctKeysIff(d: seq<Entry>)
    ensures DistinctKeys(d) <==> forall i, j :: 0 <= i < j < |d| ==> d[i].mood != d[j].mood
    decreases |d|
  {
    if |d| > 0 {
      DistinctKeysIff(d[1..]);
      HasKeyIff(d[1..], d[0].mood);
      if forall i, j :: 0 <= i < j < |d| ==> d[i].mood != d[j].mood {
        assert forall i, j :: 0 <= i < j < |d[1..]| ==> d[1..][i].mood != d[1..][j].mood by {
          forall i, j | 0 <= i < j < |d[1..]| ensures d[1..][i].mood != d[1..][j].mood {
            assert d[1..][i] == d[i + 1] && d[1..][j] == d[j + 1];
          }
        }
        assert forall i :: 0 <= i < |d[1..]| ==> d[1..][i].mood != d[0].mood by {
          forall i | 0 <= i < |d[1..]| ensures d[1..][i].mood != d[0].mood {
            assert d[1..][i] == d[i + 1];
          }
        }
      }
      if DistinctKeys(d) {
        forall i, j | 0 <= i < j < |d| ensures d[i].mood != d[j].mood {
          assert d[j] == d[1..][j - 1];
          if i > 0 {
            assert d[i] == d[1..][i - 1];
          }
        }
      }
    }
  }

  /** Every key has a count of at least 1. */
  predicate Positive(d: seq<Entry>) {
    forall i :: 0 <= i < |d| ==> d[i].count >= 1
  }

  /** The count stored under `k`, 0 when `k` is no key (`acc[k] || 0`). */
  function Lookup(d: seq<Entry>, k: string): nat
    decreases |d|
  {
    if |d| == 0 then 0
    else if d[0].mood == k then d[0].count
    else Lookup(d[1..], k)
  }

  /** The sum of all counts. */
  function Total(d: seq<Entry>): nat
    decreases |d|
  {
    if |d| == 0 then 0 else d[0].count + Total(d[1..])
  }

  /**
   * `acc[k] = (acc[k] || 0) + 1`: an existing key keeps its place and its
   * count grows by one; a new key goes last with count 1. The keys before
   * stay where they were, distinct keys stay distinct and counts stay
   * positive.
   */
  function Bump(d: seq<Entry>, k: string): (r: seq<Entry>)
    ensures Total(r) == Total(d) + 1
    ensures forall k' :: Lookup(r, k') == Lookup(d, k') + (if k' == k then 1 else 0)
    ensures forall k' :: HasKey(r, k') <==> HasKey(d, k') || k' == k
    ensures |r| == |d| + (if HasKey(d, k) then 0 else 1)
    ensures forall i :: 0 <= i < |d| ==> r[i].mood == d[i].mood
    ensures !HasKey(d, k) ==> r[|d|] == Entry(k, 1)
    ensures DistinctKeys(d) ==> DistinctKeys(r)
    ensures Positive(d) ==> Positive(r)
    decreases |d|
  {
    if |d| == 0 then [Entry(k, 1)]
    else if d[0].mood == k then [d[0].(count := d[0].count + 1)] + d[1..]
    else [d[0]] + Bump(d[1..], k)
  }

  /** `moodDistribution`: the histogram of moods over the counted messages, keys in first-seen order. */
  function Distribution(ms: seq<Message>): (d: seq<Entry>)
    ensures DistinctKeys(d) && Positive(d)
    ensures Total(d) == MoodCount(ms)
    ensures forall k :: Lookup(d, k) == MoodTally(ms, k)
    decreases |ms|
  {
    if |ms| == 0 then []
    else
      var acc := Distribution(ms[..|ms| - 1]);
      var m := ms[|ms| - 1];
      if HasMood(m) then Bump(acc, m.mood.value) else acc
  }

  /** An entry's count is at most the total. */
  lemma {:induction false} EntryAtMostTotal(d: seq<Entry>, i: int)
    requires 0 <= i < |d|
    ensures d[i].count <= Total(d)
    decreases |d|
  {
    if i > 0 {
      EntryAtMostTotal(d[1..], i - 1);
    }
  }

  /** With positive counts the list is empty exactly when the total is 0. */
  lemma EmptyIffZero(d: seq<Entry>)
    requires Positive(d)
    ensures |d| == 0 <==> Total(d) == 0
  {
  }

  /** The panel shows the histogram exactly when some assistant message has a mood. */
  lemma MoodPanelShown(ms: seq<Message>)
    ensures |Distribution(ms)| > 0 <==> MoodCount(ms) > 0
  {
    EmptyIffZero(Distribution(ms));
  }

  /** The histogram counts add up to the counted messages, no more than the assistant messages. */
  lemma DistributionTotal(ms: seq<Message>)
    ensures Total(Distribution(ms)) == MoodCount(ms) <= AiCount(ms)
  {
    MoodCountAtMostAi(ms);
  }

  /** A bar's width, `(count / aiMessages) * 100` percent. */
  function BarWidth(count: nat, aiMessages: nat): real
    requires aiMessages > 0
  {
    count as real / aiMessages as real * 100.0
  }

  /** Every bar of the histogram is wider than 0 % and at most 100 %, so the division is by a positive count. */
  lemma BarWidthsInRange(ms: seq<Message>, i: int)
    requires 0 <= i < |Distribution(ms)|
    ensures AiCount(ms) > 0
    ensures 0.0 < BarWidth(Distribution(ms)[i].count, AiCount(ms)) <= 100.0
  {
    var d := Distribution(ms);
    EntryAtMostTotal(d, i);
    DistributionTotal(ms);
    PercentOfWhole(d[i].count, AiCount(ms));
  }

  /** A part of at least 1 out of a whole no smaller than it is more than 0 % and at most 100 % of it. */
  lemma PercentOfWhole(part: nat, whole: nat)
    requires 1 <= part <= whole
    ensures 0.0 < BarWidth(part, whole) <= 100.0
  {
    var c, n := part as real, whole as real;
    var q := c / n;
    assert q * n == c;
    assert q <= 1.0;
  }
}
