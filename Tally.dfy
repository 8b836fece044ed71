/**
  The tally: one ordered list of votes per option, in arrival order, and the
  one-vote-per-household rule that holds across the three lists.
*/
module Tally {
  import opened Wrappers
  import opened JsNumbers
  import opened Roll

  /** The three ballot options, in the order the page declares them. */
  datatype VoteOption = Struiken | Gras | Onthouding

  /** A recorded vote; the timestamp is the ISO text handed in by the caller. */
  datatype Vote = Vote(houseNumber: int, timestamp: string, option: VoteOption)

  /** The page's `votes` state: a list of votes per option. */
  datatype VoteCounts = VoteCounts(struiken: seq<Vote>, gras: seq<Vote>, onthouding: seq<Vote>)

  /** The state the page starts with. */
  const NoVotes: VoteCounts := VoteCounts([], [], [])

  /** The options in the order `Object.keys(votes)` lists them. */
  const Options: seq<VoteOption> := [Struiken, Gras, Onthouding]

  /** The list of votes for one option. */
  function VotesFor(t: VoteCounts, o: VoteOption): seq<Vote> {
    match o
    case Struiken => t.struiken
    case Gras => t.gras
    case Onthouding => t.onthouding
  }

  /** The number of votes for one option. */
  function Count(t: VoteCounts, o: VoteOption): nat {
    |VotesFor(t, o)|
  }

  /** The total: the sum of the three list lengths (the `reduce` over `Object.values(votes)`). */
  function Total(t: VoteCounts): nat {
    |t.struiken| + |t.gras| + |t.onthouding|
  }

  /**
    The house numbers of a list of votes, in list order (`map(vote => vote.houseNumber)`).
    A number is among them exactly when some vote in the list carries it, which is what
    the `some` search of the duplicate test asks.
  */
  function HouseNumbersOf(votes: seq<Vote>): (r: seq<int>)
    ensures |r| == |votes|
    ensures forall i :: 0 <= i < |votes| ==> r[i] == votes[i].houseNumber
    ensures forall n :: n in r <==> VotedIn(votes, n)
  {
    seq(|votes|, i requires 0 <= i < |votes| => votes[i].houseNumber)
  }

  /** Every house number that voted, lists concatenated in option order (`flat().map(...)`). */
  function Voters(t: VoteCounts): seq<int> {
    HouseNumbersOf(t.struiken + t.gras + t.onthouding)
  }

  /** `voteList.some(vote => vote.houseNumber === n)`. */
  predicate VotedIn(votes: seq<Vote>, n: int) {
    exists i :: 0 <= i < |votes| && votes[i].houseNumber == n
  }

  /**
    Whether the typed house number already voted in any list. A text that parses to
    NaN equals no recorded number.
  */
  predicate HasAlreadyVoted(t: VoteCounts, houseNumber: string) {
    match ParseInt(houseNumber)
    case None => false
    case Some(n) => VotedIn(t.struiken, n) || VotedIn(t.gras, n) || VotedIn(t.onthouding, n)
  }

  /** The new state after a vote is accepted: the vote goes to the end of its own option's list. */
  function Record(t: VoteCounts, v: Vote): (r: VoteCounts)
    ensures VotesFor(r, v.option) == VotesFor(t, v.option) + [v]
    ensures forall o :: o != v.option ==> VotesFor(r, o) == VotesFor(t, o)
    ensures Total(r) == Total(t) + 1
  {
    match v.option
    case Struiken => t.(struiken := t.struiken + [v])
    case Gras => t.(gras := t.gras + [v])
    case Onthouding => t.(onthouding := t.onthouding + [v])
  }

  /**
    The tally invariant: every recorded house number is on the roll, and no house
    number is recorded twice, within a list or across lists.
  */
  predicate WellFormed(t: VoteCounts) {
    var vs := Voters(t);
    (forall i :: 0 <= i < |vs| ==> vs[i] in ValidHouseNumbers) && NoDuplicates(vs)
  }

  /** The total counts exactly the recorded house numbers. */
  lemma TotalIsVoterCount(t: VoteCounts)
    ensures Total(t) == |Voters(t)|
    ensures Total(t) == Count(t, Struiken) + Count(t, Gras) + Count(t, Onthouding)
  {
  }

  /** The duplicate test holds exactly when the parsed number is among the recorded voters. */
  lemma HasAlreadyVotedIff(t: VoteCounts, houseNumber: string)
    ensures HasAlreadyVoted(t, houseNumber) <==>
      exists n :: ParseInt(houseNumber) == Some(n) && n in Voters(t)
  {
    var all := t.struiken + t.gras + t.onthouding;
    if ParseInt(houseNumber).Some? {
      var n := ParseInt(houseNumber).value;
      if VotedIn(t.struiken, n) {
        var i :| 0 <= i < |t.struiken| && t.struiken[i].houseNumber == n;
        assert all[i] == t.struiken[i];
        assert Voters(t)[i] == n;
      } else if VotedIn(t.gras, n) {
        var i :| 0 <= i < |t.gras| && t.gras[i].houseNumber == n;
        assert all[|t.struiken| + i] == t.gras[i];
        assert Voters(t)[|t.struiken| + i] == n;
      } else if VotedIn(t.onthouding, n) {
        var i :| 0 <= i < |t.onthouding| && t.onthouding[i].houseNumber == n;
        assert all[|t.struiken| + |t.gras| + i] == t.onthouding[i];
        assert Voters(t)[|t.struiken| + |t.gras| + i] == n;
      }
    }
  }

  /** The house numbers of concatenated lists are concatenated. */
  lemma HouseNumbersOfAppend(a: seq<Vote>, b: seq<Vote>)
    ensures HouseNumbersOf(a + b) == HouseNumbersOf(a) + HouseNumbersOf(b)
  {
  }

  /** The voters, as a multiset, are the three lists' house numbers together. */
  lemma VotersMultiset(t: VoteCounts)
    ensures multiset(Voters(t)) ==
      multiset(HouseNumbersOf(t.struiken)) + multiset(HouseNumbersOf(t.gras))
      + multiset(HouseNumbersOf(t.onthouding))
  {
    HouseNumbersOfAppend(t.struiken + t.gras, t.onthouding);
    HouseNumbersOfAppend(t.struiken, t.gras);
  }

  /** Appending a vote to a list adds its house number. */
  lemma HouseNumbersOfSnoc(votes: seq<Vote>, v: Vote)
    ensures multiset(HouseNumbersOf(votes + [v])) == multiset(HouseNumbersOf(votes)) + multiset{v.houseNumber}
  {
    assert HouseNumbersOf(votes + [v]) == HouseNumbersOf(votes) + [v.houseNumber];
  }

  /** Recording a vote adds exactly its house number to the multiset of voters. */
  lemma RecordVoters(t: VoteCounts, v: Vote)
    ensures multiset(Voters(Record(t, v))) == multiset(Voters(t)) + multiset{v.houseNumber}
  {
    VotersMultiset(t);
    VotersMultiset(Record(t, v));
    HouseNumbersOfSnoc(VotesFor(t, v.option), v);
  }

  /** A sequence has no duplicates exactly when no element occurs more than once in its multiset. */
  lemma {:induction false} NoDuplicatesIffSingleOccurrences(s: seq<int>)
    ensures NoDuplicates(s) <==> forall x :: multiset(s)[x] <= 1
  {
    if s != [] {
      var t, last := s[..|s| - 1], s[|s| - 1];
      assert s == t + [last];
      NoDuplicatesIffSingleOccurrences(t);
      if NoDuplicates(s) {
        assert NoDuplicates(t);
        assert last !in t;
      } else {
        var i, j :| 0 <= i < j < |s| && s[i] == s[j];
        assert multiset(s) == multiset(t) + multiset{last};
        if j < |s| - 1 {
          assert t[i] == t[j];
          assert !NoDuplicates(t);
          var x :| multiset(t)[x] > 1;
          assert multiset(s)[x] > 1;
        } else {
          assert t[i] == last;
          assert multiset(s)[last] == multiset(t)[last] + 1;
        }
      }
    }
  }

  /**
    Appending a vote whose house number is on the roll and not yet recorded keeps the
    tally invariant.
  */
  lemma RecordPreservesWellFormed(t: VoteCounts, v: Vote)
    requires WellFormed(t)
    requires v.houseNumber in ValidHouseNumbers
    requires v.houseNumber !in Voters(t)
    ensures WellFormed(Record(t, v))
  {
    var before, after := Voters(t), Voters(Record(t, v));
    RecordVoters(t, v);
    NoDuplicatesIffSingleOccurrences(before);
    NoDuplicatesIffSingleOccurrences(after);
    forall i | 0 <= i < |after| ensures after[i] in ValidHouseNumbers {
      assert after[i] in multiset(after);
      assert after[i] in multiset(before) || after[i] == v.houseNumber;
    }
  }

  /** The empty tally satisfies the invariant. */
  lemma NoVotesWellFormed()
    ensures WellFormed(NoVotes) && Total(NoVotes) == 0
  {
  }

  /** One vote per household on a roll of seventeen: the total never exceeds 17. */
  lemma WellFormedTotalAtMost17(t: VoteCounts)
    requires WellFormed(t)
    ensures Total(t) <= 17
  {
    var vs := Voters(t);
    var voted := set n | n in vs;
    var roll := set n | n in ValidHouseNumbers;
    DistinctElements(vs);
    RollSize();
    assert voted <= roll by {
      forall n | n in voted ensures n in roll {
        var i :| 0 <= i < |vs| && vs[i] == n;
      }
    }
    assert roll == voted + (roll - voted);
    assert |roll| == |voted| + |roll - voted|;
  }
}
