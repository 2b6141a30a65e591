/** The rule-based parts of the sentiment analyzer: turning the classifier's
    three class probabilities into a label and a compound score, and the
    threshold rule that labels a whole conversation from its compound scores.
    The RoBERTa network itself is an input: it is represented by the
    probabilities it produces. */
module Sentiment {

  /** A statement label: the classifier's output classes. */
  datatype Label = Negative | Neutral | Positive {
    /** The label as the program spells it. */
    function Name(): string {
      match this
      case Negative => "Negative"
      case Neutral => "Neutral"
      case Positive => "Positive"
    }
  }

  /** The classifier's output labels, in the order of its output classes. */
  const Labels: seq<Label> := [Negative, Neutral, Positive]

  /** A conversation's overall sentiment: one of the statement labels, or
      the special value for a conversation without user statements. */
  datatype Overall = Labelled(verdict: Label) | NoUserInput {
    function Name(): string {
      match this
      case Labelled(l) => l.Name()
      case NoUserInput => "Neutral (No user input)"
    }
  }

  /** Inclusive bound of the mean for an overall "Positive"; its negation
      is the inclusive bound for "Negative". */
  const Threshold: real := 0.35

  /** Softmax output of the classifier for one statement. */
  datatype Probabilities = Probabilities(negative: real, neutral: real, positive: real)

  /** Result of analyzing one statement. */
  datatype Classification = Classification(compound: real, sentimentLabel: Label)

  /** Index of the first largest element, as `torch.argmax` reports it. */
  function ArgMax(s: seq<real>): (k: nat)
    requires |s| > 0
    ensures k < |s|
    ensures forall j :: 0 <= j < |s| ==> s[j] <= s[k]
    ensures forall j :: 0 <= j < k ==> s[j] < s[k]
    decreases |s|
  {
    if |s| == 1 then 0
    else
      var k := ArgMax(s[..|s| - 1]);
      if s[k] < s[|s| - 1] then |s| - 1 else k
  }

  /** `analyze_statement` after the network has run: the label of the most
      probable class (the first one on a tie) and the compound score
      "positive minus negative". */
  function AnalyzeStatement(p: Probabilities): (c: Classification)
    ensures c.compound == p.positive - p.negative
    ensures c.sentimentLabel == Negative <==> p.negative >= p.neutral && p.negative >= p.positive
    ensures c.sentimentLabel == Neutral <==> p.neutral > p.negative && p.neutral >= p.positive
    ensures c.sentimentLabel == Positive <==> p.positive > p.negative && p.positive > p.neutral
  {
    var scores := [p.negative, p.neutral, p.positive];
    var k := ArgMax(scores);
    assert scores[0] == p.negative && scores[1] == p.neutral && scores[2] == p.positive;
    Classification(p.positive - p.negative, Labels[k])
  }

  /** Sum of a list of scores, as Python's `sum` gives it over exact reals. */
  function Sum(s: seq<real>): real
    decreases |s|
  {
    if s == [] then 0.0 else s[0] + Sum(s[1..])
  }

  /** `sum(s) / len(s)`. */
  function Mean(s: seq<real>): real
    requires |s| > 0
  {
    Sum(s) / (|s| as real)
  }

  /** `aggregate_sentiment`: the overall label of a conversation. Both
      thresholds are inclusive, and the empty list has its own label. */
  function AggregateSentiment(scores: seq<real>): (r: Overall)
    ensures r == NoUserInput <==> scores == []
    ensures scores != [] ==> (r == Labelled(Positive) <==> Mean(scores) >= Threshold)
    ensures scores != [] ==> (r == Labelled(Negative) <==> Mean(scores) <= -Threshold)
    ensures scores != [] ==> (r == Labelled(Neutral) <==> -Threshold < Mean(scores) < Threshold)
  {
    if scores == [] then NoUserInput
    else
      var avg := Sum(scores) / (|scores| as real);
      if avg >= Threshold then Labelled(Positive)
      else if avg <= -Threshold then Labelled(Negative)
      else Labelled(Neutral)
  }

  /** Position of an overall label on the negative-to-positive scale. */
  function Rank(overall: Overall): int {
    match overall
    case Labelled(Negative) => 0
    case Labelled(Positive) => 2
    case _ => 1
  }

  lemma {:induction false} SumConcat(a: seq<real>, b: seq<real>)
    ensures Sum(a + b) == Sum(a) + Sum(b)
    decreases |a|
  {
    if a != [] {
      assert (a + b)[1..] == a[1..] + b;
      SumConcat(a[1..], b);
    } else {
      assert a + b == b;
    }
  }

  /** Taking one score out of the list takes it out of the sum. */
  lemma SumWithout(b: seq<real>, j: nat)
    requires j < |b|
    ensures Sum(b) == b[j] + Sum(b[..j] + b[j + 1..])
  {
    assert b == b[..j] + b[j..];
    assert b[j..][1..] == b[j + 1..];
    SumConcat(b[..j], b[j..]);
    SumConcat(b[..j], b[j + 1..]);
  }

  /** Removing the same value from two lists with equal multisets leaves
      lists with equal multisets. */
  lemma MultisetWithout(a: seq<real>, b: seq<real>, j: nat)
    requires multiset(a) == multiset(b)
    requires a != [] && j < |b| && b[j] == a[0]
    ensures multiset(a[1..]) == multiset(b[..j] + b[j + 1..])
  {
    assert b == b[..j] + [b[j]] + b[j + 1..];
    assert a == [a[0]] + a[1..];
    assert multiset(b) == multiset(b[..j]) + multiset{b[j]} + multiset(b[j + 1..]);
    assert multiset(a) == multiset{a[0]} + multiset(a[1..]);
    var m := multiset(b[..j] + b[j + 1..]);
    assert m == multiset(b[..j]) + multiset(b[j + 1..]);
    forall x ensures m[x] == multiset(a[1..])[x] {
      assert multiset(a)[x] == multiset(b)[x];
    }
  }

  /** The sum does not depend on the order of the scores. */
  lemma {:induction false} SumPermutation(a: seq<real>, b: seq<real>)
    requires multiset(a) == multiset(b)
    ensures Sum(a) == Sum(b)
    decreases |a|
  {
    if a == [] {
      assert |b| == |multiset(b)| == 0;
    } else {
      assert a[0] in multiset(a);
      var j :| 0 <= j < |b| && b[j] == a[0];
      MultisetWithout(a, b, j);
      SumPermutation(a[1..], b[..j] + b[j + 1..]);
      SumWithout(b, j);
    }
  }

  /** Raising any score never lowers the sum. */
  lemma {:induction false} SumMonotone(a: seq<real>, b: seq<real>)
    requires |a| == |b|
    requires forall i :: 0 <= i < |a| ==> a[i] <= b[i]
    ensures Sum(a) <= Sum(b)
    decreases |a|
  {
    if a != [] {
      SumMonotone(a[1..], b[1..]);
    }
  }

  lemma {:induction false} SumConstant(s: seq<real>, x: real)
    requires forall i :: 0 <= i < |s| ==> s[i] == x
    ensures Sum(s) == |s| as real * x
    decreases |s|
  {
    if s != [] {
      SumConstant(s[1..], x);
    }
  }

  /** Dividing a total of at least `n * y` among `n` gives at least `y`. */
  lemma DivideBound(total: real, n: real, y: real)
    requires n > 0.0
    ensures total >= n * y ==> total / n >= y
    ensures total <= n * y ==> total / n <= y
  {
    assert total / n - y == (total - n * y) / n;
  }

  /** The overall label depends only on the mean: lists with equal means
      get equal labels. */
  lemma AggregateDependsOnlyOnMean(a: seq<real>, b: seq<real>)
    requires a != [] && b != []
    requires Mean(a) == Mean(b)
    ensures AggregateSentiment(a) == AggregateSentiment(b)
  {
  }

  /** Reordering the user turns does not change the overall label. */
  lemma AggregateOrderIndependent(a: seq<real>, b: seq<real>)
    requires multiset(a) == multiset(b)
    ensures AggregateSentiment(a) == AggregateSentiment(b)
  {
    assert |a| == |multiset(a)| == |multiset(b)| == |b|;
    SumPermutation(a, b);
  }

  /** Making every statement at least as positive never makes the overall
      label more negative. */
  lemma AggregateMonotone(a: seq<real>, b: seq<real>)
    requires a != [] && |a| == |b|
    requires forall i :: 0 <= i < |a| ==> a[i] <= b[i]
    ensures Rank(AggregateSentiment(a)) <= Rank(AggregateSentiment(b))
  {
    SumMonotone(a, b);
    var n := |a| as real;
    assert Sum(a) / n <= Sum(b) / n;
  }

  /** If every statement scores at least the threshold, the conversation
      is "Positive". */
  lemma AggregateUnanimouslyPositive(s: seq<real>)
    requires s != []
    requires forall i :: 0 <= i < |s| ==> s[i] >= Threshold
    ensures AggregateSentiment(s) == Labelled(Positive)
  {
    var floor := seq(|s|, i => Threshold);
    SumMonotone(floor, s);
    SumConstant(floor, Threshold);
    DivideBound(Sum(s), |s| as real, Threshold);
  }

  /** If every statement scores at most minus the threshold, the
      conversation is "Negative". */
  lemma AggregateUnanimouslyNegative(s: seq<real>)
    requires s != []
    requires forall i :: 0 <= i < |s| ==> s[i] <= -Threshold
    ensures AggregateSentiment(s) == Labelled(Negative)
  {
    var ceiling := seq(|s|, i => -Threshold);
    SumMonotone(s, ceiling);
    SumConstant(ceiling, -Threshold);
    DivideBound(Sum(s), |s| as real, -Threshold);
  }

  /** Worked cases: a mean of 0.4, a mean of exactly -0.35 (boundary
      included), a mean of 0, and no user input. */
  lemma AggregateExamples()
    ensures AggregateSentiment([0.4, 0.5, 0.3]).Name() == "Positive"
    ensures AggregateSentiment([-0.4, -0.3]).Name() == "Negative"
    ensures AggregateSentiment([0.1, -0.1]).Name() == "Neutral"
    ensures AggregateSentiment([]).Name() == "Neutral (No user input)"
  {
    var s1, s2, s3 := [0.4, 0.5, 0.3], [-0.4, -0.3], [0.1, -0.1];
    assert Sum(s1) == 1.2 by {
      assert s1[1..] == [0.5, 0.3];
      assert [0.5, 0.3][1..] == [0.3];
      assert Sum([0.3]) == 0.3;
    }
    assert Mean(s1) == 0.4;
    assert Sum(s2) == -0.7 by {
      assert s2[1..] == [-0.3];
      assert Sum([-0.3]) == -0.3;
    }
    assert Mean(s2) == -0.35;
    assert Sum(s3) == 0.0 by {
      assert s3[1..] == [-0.1];
      assert Sum([-0.1]) == -0.1;
    }
    assert Mean(s3) == 0.0;
  }
}
