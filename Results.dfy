/**
  What the page derives from the tally: the rounded percentage per option, the
  ascending list of participating house numbers, and the text of the results report.
*/
module Results {
  import opened JsNumbers
  import opened Tally
  import opened Sorting

  /**
    `Math.round((count / total) * 100)`, or 0 when nobody voted, in exact integer
    arithmetic: the nearest integer to 100 * count / total, halves rounded up.
  */
  function Percentage(count: nat, total: nat): (p: nat)
    ensures total == 0 ==> p == 0
    ensures total > 0 ==> 2 * total * p <= 200 * count + total < 2 * total * p + 2 * total
  {
    if total == 0 then 0 else (200 * count + total) / (2 * total)
  }

  /** An option's share of the votes cast, as the report and the live view show it. */
  function PercentageOf(t: VoteCounts, o: VoteOption): nat {
    Percentage(Count(t, o), Total(t))
  }

  /** For a count that is part of the total, the percentage lies in 0..100. */
  lemma PercentageBounds(count: nat, total: nat)
    requires count <= total
    ensures Percentage(count, total) <= 100
  {
    var p := Percentage(count, total);
    if total > 0 && p > 100 {
      assert 2 * total * p >= 2 * total * 101 by {
        MulMonotone(2 * total, 101, p);
      }
    }
  }

  lemma MulMonotone(a: nat, b: nat, c: nat)
    requires b <= c
    ensures a * b <= a * c
  {
  }

  /**
    Each option's percentage is 0..100; all are 0 before the first vote; afterwards the
    three rounded percentages add up to 99, 100 or 101.
  */
  lemma PercentagesOfTally(t: VoteCounts)
    ensures forall o :: PercentageOf(t, o) <= 100
    ensures Total(t) == 0 ==> forall o :: PercentageOf(t, o) == 0
    ensures Total(t) > 0 ==>
      99 <= PercentageOf(t, Struiken) + PercentageOf(t, Gras) + PercentageOf(t, Onthouding) <= 101
  {
    forall o ensures PercentageOf(t, o) <= 100 {
      PercentageBounds(Count(t, o), Total(t));
    }
    if Total(t) > 0 {
      PercentageSum(Count(t, Struiken), Count(t, Gras), Count(t, Onthouding));
    }
  }

  /** Three rounded shares of one positive total sum to within one of 100. */
  lemma PercentageSum(a: nat, b: nat, c: nat)
    requires a + b + c > 0
    ensures 99 <= Percentage(a, a + b + c) + Percentage(b, a + b + c) + Percentage(c, a + b + c) <= 101
  {
    var t := a + b + c;
    var pa, pb, pc := Percentage(a, t), Percentage(b, t), Percentage(c, t);
    var sum := pa + pb + pc;
    assert 2 * t * sum == 2 * t * pa + 2 * t * pb + 2 * t * pc;
    assert 2 * t * sum <= 203 * t;
    assert 197 * t < 2 * t * sum;
    if sum > 101 {
      MulMonotone(2 * t, 102, sum);
    }
    if sum < 99 {
      MulMonotone(2 * t, sum, 98);
    }
  }

  /** The participating house numbers, ascending (`allVoters`). */
  function SortedVoters(t: VoteCounts): (r: seq<int>)
    ensures SortedAscending(r)
    ensures multiset(r) == multiset(Voters(t))
  {
    Sort(Voters(t))
  }

  /** `array.join(', ')` over numbers. */
  function JoinNumbers(xs: seq<int>): string {
    if xs == [] then ""
    else if |xs| == 1 then IntToString(xs[0])
    else IntToString(xs[0]) + ", " + JoinNumbers(xs[1..])
  }

  /** The joined text is empty exactly when there are no numbers. */
  lemma JoinNumbersEmptyIff(xs: seq<int>)
    ensures JoinNumbers(xs) == "" <==> xs == []
  {
    if xs != [] {
      assert |IntToString(xs[0])| >= 1;
    }
  }

  /** Each further number is appended after a ", " separator. */
  lemma {:induction false} JoinNumbersSnoc(xs: seq<int>, x: int)
    requires xs != []
    ensures JoinNumbers(xs + [x]) == JoinNumbers(xs) + ", " + IntToString(x)
  {
    var ys := xs + [x];
    assert ys[0] == xs[0] && ys[1..] == xs[1..] + [x];
    if |xs| > 1 {
      JoinNumbersSnoc(xs[1..], x);
      ConcatAssoc4(IntToString(xs[0]), ", ", JoinNumbers(xs[1..]), ", " + IntToString(x));
    }
  }

  function OptionEmoji(o: VoteOption): string {
    match o
    case Struiken => "\U{1F333}"
    case Gras => "\U{1F331}"
    case Onthouding => "\U{1F937}\U{200D}\U{2640}\U{FE0F}"
  }

  function OptionLabel(o: VoteOption): string {
    match o
    case Struiken => "Struiken laten staan"
    case Gras => "Gras terug"
    case Onthouding => "Onthouding"
  }

  const TitleLine: string := "\U{1F33F} BUURTSTEMMING RESULTATEN \U{1F33F}\n"

  /** The date line; the date is the caller's `toLocaleDateString('nl-NL')` text. */
  function DateLine(date: string): string {
    "Datum: " + date + "\n"
  }

  const SubjectLine: string := "Onderwerp: Laten we de struiken staan of willen we ons gras terug?\n\n"

  const ResultsHeading: string := "\U{1F4CA} UITSLAG:\n"

  /** The report's opening lines. */
  function ReportHeader(date: string): string {
    TitleLine + DateLine(date) + SubjectLine + ResultsHeading
  }

  /** `${emoji} ${label}: ${count} stemmen (${percentage}%)` and a newline. */
  function FormatOptionLine(emoji: string, name: string, count: nat, percentage: nat): string {
    emoji + " " + name + ": " + NatToString(count) + " stemmen (" + NatToString(percentage) + "%)\n"
  }

  /** One option's line: emoji, label, count and rounded percentage. */
  function OptionLine(t: VoteCounts, o: VoteOption): string {
    FormatOptionLine(OptionEmoji(o), OptionLabel(o), Count(t, o), PercentageOf(t, o))
  }

  /** The option lines for `os`, in that order. */
  function OptionLines(t: VoteCounts, os: seq<VoteOption>): string {
    if os == [] then "" else OptionLines(t, os[..|os| - 1]) + OptionLine(t, os[|os| - 1])
  }

  const ClosingStatement: string :=
    "Deze stemming is transparant uitgevoerd met alle buurtbewoners van huisnummers: "
    + "101, 103, 105, 107, 109, 111, 113, 115, 117, 119, 121, 123, 125, 127, 129, 131, 133."

  /** The line with the total number of votes. */
  function TotalLine(t: VoteCounts): string {
    "\nTotaal aantal stemmen: " + NatToString(Total(t)) + "\n"
  }

  /** The line listing the participating house numbers, ascending, comma-separated. */
  function VotersLine(t: VoteCounts): string {
    "Deelgenomen huisnummers: " + JoinNumbers(SortedVoters(t)) + "\n\n"
  }

  /**
    The whole report: header, the option lines in the order of `Options`, the total,
    the participating house numbers and the closing statement naming the roll.
  */
  function ResultsText(t: VoteCounts, date: string): string {
    ReportHeader(date) + OptionLines(t, Options) + TotalLine(t) + VotersLine(t) + ClosingStatement
  }

  /** Extending the options printed by one appends that option's line. */
  lemma OptionLinesStep(t: VoteCounts, header: string, i: nat)
    requires i < |Options|
    ensures header + OptionLines(t, Options[..i + 1]) == header + OptionLines(t, Options[..i]) + OptionLine(t, Options[i])
  {
    assert Options[..i + 1][..i] == Options[..i];
    ConcatAssoc(header, OptionLines(t, Options[..i]), OptionLine(t, Options[i]));
  }

  /** Option lines agree for tallies with the same counts and total. */
  lemma {:induction false} OptionLinesAgree(t1: VoteCounts, t2: VoteCounts, os: seq<VoteOption>)
    requires forall o :: Count(t1, o) == Count(t2, o)
    requires Total(t1) == Total(t2)
    ensures OptionLines(t1, os) == OptionLines(t2, os)
  {
    if os != [] {
      OptionLinesAgree(t1, t2, os[..|os| - 1]);
      var o := os[|os| - 1];
      assert PercentageOf(t1, o) == PercentageOf(t2, o);
    }
  }

  /**
    The report depends on the votes only through the per-option counts and the
    house numbers that voted, not on arrival order or on which list holds whom.
  */
  lemma ResultsTextDeterminedByCountsAndVoters(t1: VoteCounts, t2: VoteCounts, date: string)
    requires forall o :: Count(t1, o) == Count(t2, o)
    requires multiset(Voters(t1)) == multiset(Voters(t2))
    ensures ResultsText(t1, date) == ResultsText(t2, date)
  {
    SortedUnique(SortedVoters(t1), SortedVoters(t2));
    TotalIsVoterCount(t1);
    TotalIsVoterCount(t2);
    OptionLinesAgree(t1, t2, Options);
    assert TotalLine(t1) == TotalLine(t2);
    assert VotersLine(t1) == VotersLine(t2);
  }

  /** The option lines of the report, one per option in the order of `Options`. */
  lemma OptionLinesInOrder(t: VoteCounts)
    ensures OptionLines(t, Options) == OptionLine(t, Struiken) + OptionLine(t, Gras) + OptionLine(t, Onthouding)
  {
    assert [Struiken][..0] == [];
    assert OptionLines(t, [Struiken]) == OptionLine(t, Struiken);
    assert [Struiken, Gras][..1] == [Struiken];
    assert OptionLines(t, [Struiken, Gras]) == OptionLine(t, Struiken) + OptionLine(t, Gras);
    assert Options[..2] == [Struiken, Gras];
  }

  /** The report prints the options in the fixed order struiken, gras, onthouding. */
  lemma ResultsTextLayout(t: VoteCounts, date: string)
    ensures ResultsText(t, date) ==
      ReportHeader(date) + OptionLine(t, Struiken) + OptionLine(t, Gras) + OptionLine(t, Onthouding)
      + TotalLine(t) + VotersLine(t) + ClosingStatement
  {
    OptionLinesInOrder(t);
    ConcatRegroup(ReportHeader(date), OptionLine(t, Struiken), OptionLine(t, Gras), OptionLine(t, Onthouding),
      TotalLine(t), VotersLine(t), ClosingStatement);
  }

  lemma ConcatRegroup(h: string, s: string, g: string, o: string, a: string, b: string, c: string)
    ensures h + (s + g + o) + a + b + c == h + s + g + o + a + b + c
  {
  }

  lemma ConcatAssoc4(a: string, b: string, c: string, d: string)
    ensures a + b + c + d == a + b + (c + d)
  {
  }

  lemma ConcatAssoc(a: string, b: string, c: string)
    ensures a + b + c == a + (b + c)
  {
  }
}
