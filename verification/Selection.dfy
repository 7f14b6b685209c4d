/** Greedy selection of ranked candidates under a total and a per-industry limit. */
module Selection {
  import opened Common

  datatype EntrySignal = EntrySignal(symbol: Symbol, date: Date, score: real, rank: nat, industry: Option<Industry>)

  function CountIndustry(xs: seq<EntrySignal>, industry: Option<Industry>): nat {
    if xs == [] then 0
    else CountIndustry(xs[..|xs| - 1], industry) + if xs[|xs| - 1].industry == industry then 1 else 0
  }

  predicate Rejected(selected: seq<EntrySignal>, signal: EntrySignal, maxPositions: int, maxPerIndustry: int) {
    |selected| >= maxPositions || CountIndustry(selected, signal.industry) >= maxPerIndustry
  }

  /** The selection after looking at the whole ranked list, best candidate first. */
  function Select(ranked: seq<EntrySignal>, maxPositions: int, maxPerIndustry: int): seq<EntrySignal> {
    if ranked == [] then []
    else
      var selected := Select(ranked[..|ranked| - 1], maxPositions, maxPerIndustry);
      var signal := ranked[|ranked| - 1];
      if Rejected(selected, signal, maxPositions, maxPerIndustry) then selected
      else selected + [signal.(rank := |selected| + 1)]
  }

  lemma {:induction false} FullStaysFull(ranked: seq<EntrySignal>, k: nat, maxPositions: int, maxPerIndustry: int)
    requires k <= |ranked| && |Select(ranked[..k], maxPositions, maxPerIndustry)| >= maxPositions
    ensures Select(ranked, maxPositions, maxPerIndustry) == Select(ranked[..k], maxPositions, maxPerIndustry)
  {
    if k < |ranked| {
      assert ranked[..|ranked| - 1][..k] == ranked[..k];
      FullStaysFull(ranked[..|ranked| - 1], k, maxPositions, maxPerIndustry);
    } else {
      assert ranked[..k] == ranked;
    }
  }

  lemma NoneCounted()
    ensures forall x :: CountIndustry([], x) == 0
  {
  }

  method SelectCandidates(ranked: seq<EntrySignal>, maxPositions: int, maxPerIndustry: int)
    returns (selected: seq<EntrySignal>)
    ensures selected == Select(ranked, maxPositions, maxPerIndustry)
  {
    hide CountIndustry;
    NoneCounted();
    selected := [];
    var industries: map<Option<Industry>, int> := map[];
    var i := 0;
    while i < |ranked|
      invariant 0 <= i <= |ranked|
      invariant selected == Select(ranked[..i], maxPositions, maxPerIndustry)
      invariant forall x :: CountIndustry(selected, x) == if x in industries then industries[x] else 0
    {
      assert ranked[..i + 1][..i] == ranked[..i];
      if |selected| >= maxPositions {
        FullStaysFull(ranked, i, maxPositions, maxPerIndustry);
        return;
      }
      var signal := ranked[i];
      var count := if signal.industry in industries then industries[signal.industry] else 0;
      i := i + 1;
      if count >= maxPerIndustry {
        continue;
      }
      industries := industries[signal.industry := count + 1];
      forall x { ListSnoc(selected, signal.(rank := |selected| + 1), x); }
      selected := selected + [signal.(rank := |selected| + 1)];
    }
    assert ranked[..i] == ranked;
  }

  // ----- arbitrary choices from the ranked list

  /** A choice marks the candidates it takes. */
  type Choice = seq<bool>

  function Size(c: Choice): nat {
    if c == [] then 0 else Size(c[..|c| - 1]) + if c[|c| - 1] then 1 else 0
  }

  function SizeIn(ranked: seq<EntrySignal>, c: Choice, industry: Option<Industry>): nat
    requires |c| == |ranked|
  {
    if c == [] then 0
    else SizeIn(ranked[..|c| - 1], c[..|c| - 1], industry)
         + if c[|c| - 1] && ranked[|c| - 1].industry == industry then 1 else 0
  }

  function Score(ranked: seq<EntrySignal>, c: Choice): real
    requires |c| == |ranked|
  {
    if c == [] then 0.0
    else Score(ranked[..|c| - 1], c[..|c| - 1]) + if c[|c| - 1] then ranked[|c| - 1].score else 0.0
  }

  function TotalScore(xs: seq<EntrySignal>): real {
    if xs == [] then 0.0 else TotalScore(xs[..|xs| - 1]) + xs[|xs| - 1].score
  }

  ghost predicate Feasible(ranked: seq<EntrySignal>, c: Choice, maxPositions: int, maxPerIndustry: int) {
    && |c| == |ranked|
    && Size(c) <= maxPositions
    && forall industry :: SizeIn(ranked, c, industry) <= maxPerIndustry
  }

  /** Best candidate first, and no negative score. */
  ghost predicate RankedByScore(ranked: seq<EntrySignal>) {
    && (forall i | 0 <= i < |ranked| :: ranked[i].score >= 0.0)
    && (forall i, j | 0 <= i < j < |ranked| :: ranked[i].score >= ranked[j].score)
  }

  /** The choice the selection makes. */
  function Greedy(ranked: seq<EntrySignal>, maxPositions: int, maxPerIndustry: int): (c: Choice)
    ensures |c| == |ranked|
  {
    if ranked == [] then []
    else
      var before := ranked[..|ranked| - 1];
      Greedy(before, maxPositions, maxPerIndustry)
      + [!Rejected(Select(before, maxPositions, maxPerIndustry), ranked[|ranked| - 1], maxPositions, maxPerIndustry)]
  }

  lemma ChoiceSnoc(ranked: seq<EntrySignal>, c: Choice, signal: EntrySignal, taken: bool, industry: Option<Industry>)
    requires |c| == |ranked|
    ensures Size(c + [taken]) == Size(c) + if taken then 1 else 0
    ensures SizeIn(ranked + [signal], c + [taken], industry)
         == SizeIn(ranked, c, industry) + if taken && signal.industry == industry then 1 else 0
    ensures Score(ranked + [signal], c + [taken]) == Score(ranked, c) + if taken then signal.score else 0.0
  {
    assert (c + [taken])[..|c|] == c && (ranked + [signal])[..|c|] == ranked;
  }

  lemma ListSnoc(xs: seq<EntrySignal>, x: EntrySignal, industry: Option<Industry>)
    ensures CountIndustry(xs + [x], industry) == CountIndustry(xs, industry) + if x.industry == industry then 1 else 0
    ensures TotalScore(xs + [x]) == TotalScore(xs) + x.score
  {
    assert (xs + [x])[..|xs|] == xs;
  }

  lemma {:induction false} GreedyIsSelect(ranked: seq<EntrySignal>, maxPositions: int, maxPerIndustry: int,
                                          industry: Option<Industry>)
    ensures var g := Greedy(ranked, maxPositions, maxPerIndustry);
            var s := Select(ranked, maxPositions, maxPerIndustry);
            && Size(g) == |s|
            && SizeIn(ranked, g, industry) == CountIndustry(s, industry)
            && Score(ranked, g) == TotalScore(s)
            && (0 <= maxPositions ==> |s| <= maxPositions)
            && (0 <= maxPerIndustry ==> CountIndustry(s, industry) <= maxPerIndustry)
  {
    if ranked == [] {
    } else {
      var before := ranked[..|ranked| - 1];
      var last := ranked[|ranked| - 1];
      GreedyIsSelect(before, maxPositions, maxPerIndustry, industry);
      var g, s := Greedy(before, maxPositions, maxPerIndustry), Select(before, maxPositions, maxPerIndustry);
      assert ranked == before + [last];
      hide Size, SizeIn, Score, TotalScore, CountIndustry;
      ChoiceSnoc(before, g, last, !Rejected(s, last, maxPositions, maxPerIndustry), industry);
      ListSnoc(s, last.(rank := |s| + 1), industry);
    }
  }

  lemma {:induction false} SizeInBounds(ranked: seq<EntrySignal>, c: Choice, industry: Option<Industry>)
    requires |c| == |ranked|
    ensures SizeIn(ranked, c, industry) <= CountIndustry(ranked, industry)
    ensures SizeIn(ranked, c, industry) <= Size(c)
  {
    if c == [] {
    } else {
      SizeInBounds(ranked[..|c| - 1], c[..|c| - 1], industry);
    }
  }

  /** While there is room, the greedy choice fills every industry as far as limit or list allow. */
  lemma {:induction false} GreedyFillsIndustry(ranked: seq<EntrySignal>, maxPositions: int, maxPerIndustry: int,
                                               industry: Option<Industry>)
    ensures var s := Select(ranked, maxPositions, maxPerIndustry);
            |s| < maxPositions ==>
              CountIndustry(s, industry) >= maxPerIndustry
                  || CountIndustry(s, industry) == CountIndustry(ranked, industry)
  {
    if ranked == [] {
    } else {
      var before := ranked[..|ranked| - 1];
      GreedyFillsIndustry(before, maxPositions, maxPerIndustry, industry);
      var s := Select(before, maxPositions, maxPerIndustry);
      assert (s + [ranked[|ranked| - 1].(rank := |s| + 1)])[..|s|] == s;
    }
  }

  /** The choice without one industry. */
  function Without(ranked: seq<EntrySignal>, c: Choice, industry: Option<Industry>): (r: Choice)
    requires |c| == |ranked|
    ensures |r| == |c|
  {
    if c == [] then []
    else Without(ranked[..|c| - 1], c[..|c| - 1], industry) + [c[|c| - 1] && ranked[|c| - 1].industry != industry]
  }

  lemma {:induction false} WithoutCounts(ranked: seq<EntrySignal>, c: Choice, industry: Option<Industry>,
                                         other: Option<Industry>)
    requires |c| == |ranked|
    ensures var w := Without(ranked, c, industry);
            && Size(c) == SizeIn(ranked, c, industry) + Size(w)
            && SizeIn(ranked, w, other) == if other == industry then 0 else SizeIn(ranked, c, other)
  {
    if c == [] {
    } else {
      var w := Without(ranked[..|c| - 1], c[..|c| - 1], industry);
      WithoutCounts(ranked[..|c| - 1], c[..|c| - 1], industry, other);
      assert (w + [c[|c| - 1] && ranked[|c| - 1].industry != industry])[..|w|] == w;
    }
  }

  lemma {:induction false} SomeIndustryChosen(ranked: seq<EntrySignal>, c: Choice) returns (industry: Option<Industry>)
    requires |c| == |ranked| && Size(c) > 0
    ensures SizeIn(ranked, c, industry) > 0
  {
    var n := |c| - 1;
    if c[n] {
      industry := ranked[n].industry;
    } else {
      industry := SomeIndustryChosen(ranked[..n], c[..n]);
    }
  }

  /** Fewer in every industry means fewer in all. */
  lemma {:induction false} FewerEverywhere(ranked: seq<EntrySignal>, a: Choice, b: Choice)
    requires |a| == |b| == |ranked|
    requires forall industry :: SizeIn(ranked, a, industry) <= SizeIn(ranked, b, industry)
    ensures Size(a) <= Size(b)
    decreases Size(a)
  {
    if Size(a) > 0 {
      var industry := SomeIndustryChosen(ranked, a);
      forall other ensures
        SizeIn(ranked, Without(ranked, a, industry), other) <= SizeIn(ranked, Without(ranked, b, industry), other)
      {
        WithoutCounts(ranked, a, industry, other);
        WithoutCounts(ranked, b, industry, other);
      }
      WithoutCounts(ranked, a, industry, industry);
      WithoutCounts(ranked, b, industry, industry);
      FewerEverywhere(ranked, Without(ranked, a, industry), Without(ranked, b, industry));
    }
  }

  /** No feasible choice takes more candidates than the greedy one. */
  lemma GreedyIsLargest(ranked: seq<EntrySignal>, c: Choice, maxPositions: int, maxPerIndustry: int)
    requires Feasible(ranked, c, maxPositions, maxPerIndustry)
    ensures Size(c) <= Size(Greedy(ranked, maxPositions, maxPerIndustry))
  {
    var g := Greedy(ranked, maxPositions, maxPerIndustry);
    GreedyIsSelect(ranked, maxPositions, maxPerIndustry, None);
    if Size(g) < maxPositions {
      forall industry ensures SizeIn(ranked, c, industry) <= SizeIn(ranked, g, industry) {
        GreedyIsSelect(ranked, maxPositions, maxPerIndustry, industry);
        GreedyFillsIndustry(ranked, maxPositions, maxPerIndustry, industry);
        SizeInBounds(ranked, c, industry);
      }
      FewerEverywhere(ranked, c, g);
    }
  }

  lemma PrefixFeasible(ranked: seq<EntrySignal>, c: Choice, maxPositions: int, maxPerIndustry: int)
    requires Feasible(ranked, c, maxPositions, maxPerIndustry) && c != []
    ensures Feasible(ranked[..|c| - 1], c[..|c| - 1], maxPositions, maxPerIndustry)
  {
    var before, start := ranked[..|c| - 1], c[..|c| - 1];
    forall industry ensures SizeIn(before, start, industry) <= maxPerIndustry {
      assert SizeIn(ranked, c, industry) <= maxPerIndustry;
    }
  }

  /** The lead of `g` over `c` in score is at least its lead in size, each counted at `floor`. */
  ghost predicate Leads(ranked: seq<EntrySignal>, g: Choice, c: Choice, floor: real)
    requires |g| == |c| == |ranked|
  {
    Score(ranked, g) - Score(ranked, c) >= floor * (Size(g) - Size(c)) as real
  }

  lemma LeadsSnoc(ranked: seq<EntrySignal>, g: Choice, c: Choice, floor: real, last: EntrySignal, taken: bool,
                  other: bool)
    requires |g| == |c| == |ranked| && Size(c) <= Size(g)
    requires Leads(ranked, g, c, floor) && floor >= last.score
    ensures Leads(ranked + [last], g + [taken], c + [other], last.score)
  {
    hide Score, Size, SizeIn;
    ChoiceSnoc(ranked, g, last, taken, None);
    ChoiceSnoc(ranked, c, last, other, None);
    assert Size(g + [taken]) - Size(c + [other]) == Size(g) - Size(c)
           + (if taken then 1 else 0) - (if other then 1 else 0);
    LeadStep(Score(ranked, g) - Score(ranked, c), floor, last.score, Size(g) - Size(c), taken, other);
  }

  /** The greedy choice leads every feasible choice, counted at the lowest score so far. */
  lemma {:induction false} GreedyLeads(ranked: seq<EntrySignal>, c: Choice, maxPositions: int, maxPerIndustry: int)
    requires RankedByScore(ranked) && ranked != []
    requires Feasible(ranked, c, maxPositions, maxPerIndustry)
    ensures Leads(ranked, Greedy(ranked, maxPositions, maxPerIndustry), c, ranked[|ranked| - 1].score)
  {
    var n := |ranked| - 1;
    var before, last := ranked[..n], ranked[n];
    var g, d := Greedy(before, maxPositions, maxPerIndustry), c[..n];
    var taken := !Rejected(Select(before, maxPositions, maxPerIndustry), last, maxPositions, maxPerIndustry);
    assert ranked == before + [last] && c == d + [c[n]];
    PrefixFeasible(ranked, c, maxPositions, maxPerIndustry);
    GreedyIsLargest(before, d, maxPositions, maxPerIndustry);
    if n > 0 {
      GreedyLeads(before, d, maxPositions, maxPerIndustry);
    }
    hide Leads, Score, Size;
    LeadsSnoc(before, g, d, if n > 0 then ranked[n - 1].score else last.score, last, taken, c[n]);
  }

  lemma LeadStep(gain: real, previous: real, score: real, lead: int, taken: bool, other: bool)
    requires previous >= score && lead >= 0 && gain >= previous * lead as real
    ensures gain + (if taken then score else 0.0) - (if other then score else 0.0)
         >= score * (lead + (if taken then 1 else 0) - (if other then 1 else 0)) as real
  {
    MulMonotone(score, previous, lead as real);
  }

  /** Greedy selection is optimal: it is feasible, and no choice within the two limits, however made,
      has a higher total score. */
  lemma GreedyIsOptimal(ranked: seq<EntrySignal>, c: Choice, maxPositions: int, maxPerIndustry: int)
    requires RankedByScore(ranked)
    requires Feasible(ranked, c, maxPositions, maxPerIndustry)
    ensures Feasible(ranked, Greedy(ranked, maxPositions, maxPerIndustry), maxPositions, maxPerIndustry)
    ensures Score(ranked, c) <= Score(ranked, Greedy(ranked, maxPositions, maxPerIndustry))
    ensures Score(ranked, Greedy(ranked, maxPositions, maxPerIndustry))
              == TotalScore(Select(ranked, maxPositions, maxPerIndustry))
  {
    hide Score, Size, SizeIn, Select, Greedy, TotalScore, CountIndustry;
    var g := Greedy(ranked, maxPositions, maxPerIndustry);
    assert SizeIn(ranked, c, None) <= maxPerIndustry;
    forall industry ensures SizeIn(ranked, g, industry) <= maxPerIndustry {
      GreedyIsSelect(ranked, maxPositions, maxPerIndustry, industry);
    }
    GreedyIsSelect(ranked, maxPositions, maxPerIndustry, None);
    if ranked != [] {
      GreedyLeads(ranked, c, maxPositions, maxPerIndustry);
      GreedyIsLargest(ranked, c, maxPositions, maxPerIndustry);
      MulMonotone(0.0, ranked[|ranked| - 1].score, (Size(g) - Size(c)) as real);
    }
  }
}
