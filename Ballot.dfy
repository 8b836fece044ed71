/**
  The page's state and its event handlers: the two form fields, the vote lists, the
  message shown under the button, the vote submission with its four rejection checks,
  and the construction of the results report.
*/
module Ballot {
  import opened Wrappers
  import opened JsNumbers
  import opened Roll
  import opened Tally
  import opened Results

  /** Why a submission was refused, in the order the checks are made. */
  datatype Rejection = MissingHouseNumber | IneligibleHouseNumber | DuplicateVote | MissingOption

  /** The outcome of one submission: the house number and option recorded, or the refusal. */
  datatype Verdict = Accepted(houseNumber: int, option: VoteOption) | Rejected(reason: Rejection)

  datatype MessageKind = NoKind | Success | Error

  /** The message state `{ text, type }`; it starts as empty text of no kind. */
  datatype Message = Message(text: string, kind: MessageKind)

  function RejectionText(r: Rejection): string {
    match r
    case MissingHouseNumber => "Voer je huisnummer in"
    case IneligibleHouseNumber =>
      "Dit huisnummer mag niet stemmen (alleen: 101, 103, 105, 107, 109, 111, 113, 115, 117, "
      + "119, 121, 123, 125, 127, 129, 131, 133)"
    case DuplicateVote => "Dit huisnummer heeft al gestemd!"
    case MissingOption => "Kies een optie om op te stemmen"
  }

  const SuccessText: string := "Je stem is succesvol uitgebracht! \U{1F389}"

  /**
    The checks of a submission, in order: an empty field, a number off the roll, a
    household that already voted, no option chosen. Only when all pass is the vote taken.
  */
  function Validate(houseNumber: string, selected: Option<VoteOption>, t: VoteCounts): (v: Verdict)
    ensures houseNumber == "" ==> v == Rejected(MissingHouseNumber)
    ensures houseNumber != "" && !IsValidHouseNumber(houseNumber) ==> v == Rejected(IneligibleHouseNumber)
    ensures IsValidHouseNumber(houseNumber) && HasAlreadyVoted(t, houseNumber) ==> v == Rejected(DuplicateVote)
    ensures (houseNumber != "" && IsValidHouseNumber(houseNumber) && !HasAlreadyVoted(t, houseNumber)
             && selected.None?) ==> v == Rejected(MissingOption)
    ensures v.Accepted? <==>
      (houseNumber != "" && IsValidHouseNumber(houseNumber) && !HasAlreadyVoted(t, houseNumber) && selected.Some?)
    ensures v.Accepted? ==>
      && ParseInt(houseNumber) == Some(v.houseNumber)
      && v.houseNumber in ValidHouseNumbers
      && v.houseNumber !in Voters(t)
      && selected == Some(v.option)
  {
    if houseNumber == "" then Rejected(MissingHouseNumber)
    else if !IsValidHouseNumber(houseNumber) then Rejected(IneligibleHouseNumber)
    else if HasAlreadyVoted(t, houseNumber) then Rejected(DuplicateVote)
    else if selected.None? then Rejected(MissingOption)
    else
      var n := ParseInt(houseNumber).value;
      HasAlreadyVotedIff(t, houseNumber);
      OnRollIffOddInRange(n);
      Accepted(n, selected.value)
  }

  class BallotPage {
    var houseNumber: string
    var selectedOption: Option<VoteOption>
    var struiken: seq<Vote>
    var gras: seq<Vote>
    var onthouding: seq<Vote>
    var message: Message

    /** The vote lists as one value. */
    function Votes(): VoteCounts
      reads this
    {
      VoteCounts(struiken, gras, onthouding)
    }

    /** Every recorded house number is on the roll and recorded once. */
    ghost predicate Valid()
      reads this
    {
      WellFormed(Votes())
    }

    /** The page as first shown: empty fields, no votes, no message. */
    constructor ()
      ensures Valid()
      ensures Votes() == NoVotes
      ensures houseNumber == "" && selectedOption == None
      ensures message == Message("", NoKind)
    {
      houseNumber, selectedOption := "", None;
      struiken, gras, onthouding := [], [], [];
      message := Message("", NoKind);
    }

    /** The house-number field's change handler. */
    method SetHouseNumber(value: string)
      modifies this`houseNumber
      ensures houseNumber == value
      ensures Votes() == old(Votes())
      ensures old(Valid()) ==> Valid()
    {
      houseNumber := value;
    }

    /** Clicking an option, or its radio button. */
    method SelectOption(o: VoteOption)
      modifies this`selectedOption
      ensures selectedOption == Some(o)
      ensures Votes() == old(Votes())
      ensures old(Valid()) ==> Valid()
    {
      selectedOption := Some(o);
    }

    /** Sets the message; the timed dismissal of a success message is not modelled. */
    method ShowMessage(text: string, kind: MessageKind)
      modifies this`message
      ensures message == Message(text, kind)
      ensures Votes() == old(Votes())
      ensures old(Valid()) ==> Valid()
    {
      message := Message(text, kind);
    }

    /**
      The "Stem Uitbrengen" button. A refusal sets an error message and changes
      nothing else; an accepted vote is appended to its option's list with the given
      timestamp, the success message is shown and both form fields are cleared.
    */
    method SubmitVote(timestamp: string) returns (verdict: Verdict)
      requires Valid()
      modifies this
      ensures Valid()
      ensures verdict == Validate(old(houseNumber), old(selectedOption), old(Votes()))
      ensures verdict.Rejected? ==>
        && Votes() == old(Votes())
        && houseNumber == old(houseNumber)
        && selectedOption == old(selectedOption)
        && message == Message(RejectionText(verdict.reason), Error)
      ensures verdict.Accepted? ==>
        && Votes() == Record(old(Votes()), Vote(verdict.houseNumber, timestamp, verdict.option))
        && houseNumber == ""
        && selectedOption == None
        && message == Message(SuccessText, Success)
    {
      verdict := CheckSubmission();
      if verdict.Accepted? {
        var vote := Vote(verdict.houseNumber, timestamp, verdict.option);
        AppendVote(vote);
        ShowMessage(SuccessText, Success);
        houseNumber := "";
        selectedOption := None;
      }
    }

    /**
      The validation at the top of the handler: the four checks in order, each refusal
      showing its error message and returning at once. Only the message can change.
    */
    method CheckSubmission() returns (verdict: Verdict)
      modifies this`message
      ensures verdict == Validate(houseNumber, selectedOption, Votes())
      ensures verdict.Rejected? ==> message == Message(RejectionText(verdict.reason), Error)
      ensures verdict.Accepted? ==> message == old(message)
    {
      if houseNumber == "" {
        ShowMessage(RejectionText(MissingHouseNumber), Error);
        return Rejected(MissingHouseNumber);
      }
      if !IsValidHouseNumber(houseNumber) {
        ShowMessage(RejectionText(IneligibleHouseNumber), Error);
        return Rejected(IneligibleHouseNumber);
      }
      if HasAlreadyVoted(Votes(), houseNumber) {
        ShowMessage(RejectionText(DuplicateVote), Error);
        return Rejected(DuplicateVote);
      }
      if selectedOption.None? {
        ShowMessage(RejectionText(MissingOption), Error);
        return Rejected(MissingOption);
      }
      verdict := Accepted(ParseInt(houseNumber).value, selectedOption.value);
    }

    /**
      `setVotes(prev => ({ ...prev, [option]: [...prev[option], vote] }))`: the vote
      goes to the end of its option's list, the other lists stay as they were.
    */
    method AppendVote(vote: Vote)
      requires Valid()
      requires vote.houseNumber in ValidHouseNumbers && vote.houseNumber !in Voters(Votes())
      modifies this`struiken, this`gras, this`onthouding
      ensures Valid()
      ensures Votes() == Record(old(Votes()), vote)
    {
      RecordPreservesWellFormed(Votes(), vote);
      match vote.option {
        case Struiken => struiken := struiken + [vote];
        case Gras => gras := gras + [vote];
        case Onthouding => onthouding := onthouding + [vote];
      }
    }

    /**
      `generateResultsText`: the header, one line per option in the order of
      `Object.keys(votes)`, then the total, the sorted participants and the closing text.
      The date is the caller's `toLocaleDateString('nl-NL')` text.
    */
    method GenerateResultsText(date: string) returns (text: string)
      ensures text == ResultsText(Votes(), date)
    {
      var votes := Votes();
      var totalVotes := Total(votes);
      text := TitleLine;
      text := text + DateLine(date);
      text := text + SubjectLine;
      text := text + ResultsHeading;
      for i := 0 to |Options|
        invariant text == ReportHeader(date) + OptionLines(votes, Options[..i])
      {
        var option := Options[i];
        var count := |VotesFor(votes, option)|;
        var percentage := if totalVotes > 0 then Percentage(count, totalVotes) else 0;
        var line := FormatOptionLine(OptionEmoji(option), OptionLabel(option), count, percentage);
        assert line == OptionLine(votes, option);
        OptionLinesStep(votes, ReportHeader(date), i);
        text := text + line;
      }
      assert Options[..|Options|] == Options;
      text := text + TotalLine(votes);
      text := text + VotersLine(votes);
      text := text + ClosingStatement;
    }
  }

  /** Any sequence of submissions keeps the total at or below the seventeen households. */
  lemma TotalNeverExceedsRoll(page: BallotPage)
    requires page.Valid()
    ensures Total(page.Votes()) <= 17
  {
    WellFormedTotalAtMost17(page.Votes());
  }

  /**
    Once a household's vote is recorded, every later submission of the same text is
    refused as a duplicate, whichever option is chosen (or none).
  */
  lemma SecondVoteRefused(t: VoteCounts, houseNumber: string, selected: Option<VoteOption>,
                          next: Option<VoteOption>, timestamp: string)
    requires Validate(houseNumber, selected, t).Accepted?
    ensures
      var v := Validate(houseNumber, selected, t);
      Validate(houseNumber, next, Record(t, Vote(v.houseNumber, timestamp, v.option))) == Rejected(DuplicateVote)
  {
    var v := Validate(houseNumber, selected, t);
    var after := Record(t, Vote(v.houseNumber, timestamp, v.option));
    RecordVoters(t, Vote(v.houseNumber, timestamp, v.option));
    assert v.houseNumber in multiset(Voters(after));
    HasAlreadyVotedIff(after, houseNumber);
  }

  /**
    A session at one page: an eligible household votes struiken, then types its number
    again, picks gras and is refused; the tally keeps the first vote only.
  */
  method Session(houseNumber: string, ts1: string, ts2: string) returns (first: Verdict, second: Verdict)
    requires IsValidHouseNumber(houseNumber)
    ensures first.Accepted? && first.option == Struiken && ParseInt(houseNumber) == Some(first.houseNumber)
    ensures second == Rejected(DuplicateVote)
  {
    var page := new BallotPage();
    page.SetHouseNumber(houseNumber);
    page.SelectOption(Struiken);
    first := page.SubmitVote(ts1);
    page.SetHouseNumber(houseNumber);
    page.SelectOption(Gras);
    SecondVoteRefused(NoVotes, houseNumber, Some(Struiken), Some(Gras), ts1);
    second := page.SubmitVote(ts2);
  }
}
