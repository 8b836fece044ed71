# Buurtstemming ballot engine

A Dafny model of the neighbourhood vote page of *buurtstemming*. The page is a single
React component through which the households of one street vote on "struiken laten staan"
(keep the shrubs), "gras terug" (bring back the lawn) or "onthouding" (abstain). It holds
the two form fields, one list of votes per option and a message line. The model covers:

- the voter roll: the seventeen odd house numbers 101 to 133;
- the eligibility test: JavaScript `parseInt` of the typed text, then exact membership in the roll;
- the duplicate test across all three vote lists;
- the vote submission with its four ordered checks: empty field, not on the roll, already
  voted, no option chosen;
- on acceptance: appending the vote to its option's list, the success message and the
  reset of both fields;
- the derived figures: the total, the rounded percentage per option, and the ascending
  list of participating house numbers;
- the plain-text results report built by `generateResultsText`.

Modules, one per file:

| file | module | what it holds |
|---|---|---|
| `Wrappers.dfy` | `Wrappers` | `Option` |
| `JsNumbers.dfy` | `JsNumbers` | `parseInt` without a radix, and the decimal printing of template literals |
| `Roll.dfy` | `Roll` | the roll and `isValidHouseNumber` |
| `Tally.dfy` | `Tally` | `Vote`, `VoteCounts`, `hasAlreadyVoted`, recording a vote, the one-vote-per-household invariant |
| `Sorting.dfy` | `Sorting` | the numeric ascending sort |
| `Results.dfy` | `Results` | percentages, the sorted participants, and the report text as a function |
| `Ballot.dfy` | `Ballot` | the page as a class `BallotPage`, with the submit handler, the field setters and the loop that builds the report |

How the source is shaped in Dafny:

- The page's state (`houseNumber`, `selectedOption`, `votes`, `message`) becomes the fields of
  the class `BallotPage`; `votes` is split into three `seq<Vote>` fields.
- `submitVote` and `generateResultsText` are methods. The guard chain at the top of
  `submitVote` is the helper method `CheckSubmission`, which may change only the message.
  `generateResultsText` keeps its `forEach` over the options as a `for` loop, proved equal
  to the function `ResultsText`.
- The page-wide invariant `BallotPage.Valid` says every recorded house number is on the roll
  and recorded once. `SubmitVote` preserves it.
- The option field's empty string `''` is `None`. Any other value the page can set is one of
  the three options.
- The clock is a parameter: `new Date().toISOString()` is the timestamp argument of
  `SubmitVote`, and `toLocaleDateString('nl-NL')` is the date argument of `GenerateResultsText`.
  Both are opaque text.

Specification functions that carry no contract of their own. Each one's body is the
source expression, and the lemmas named here characterize it:

- `Roll.IsValidHouseNumber` (app/page.tsx:30-32, `includes(parseInt(number))`):
  `Roll.IsValidHouseNumberIff`, `Roll.RollNumberTextAccepted`, `Roll.EvenInRangeRefused`,
  `Roll.UnparseableRefused`.
- `Tally.HasAlreadyVoted` (app/page.tsx:34-38): `Tally.HasAlreadyVotedIff`.
- `JsNumbers.ParseInt` (app/page.tsx:31, 36, 71): `JsNumbers.ParseIntToString`,
  `JsNumbers.ParseNatToString`, `JsNumbers.ParseIntSkipsWhiteSpace`, `JsNumbers.ParseDecimalText`.
  Its steps are characterized by `JsNumbers.TrimStartDropsLeadingWhiteSpace` and `JsNumbers.DigitPrefix`.
- `Tally.Total` (app/page.tsx:89, 126): `Tally.TotalIsVoterCount`, `Tally.Record`,
  `Tally.WellFormedTotalAtMost17`.
- `Tally.Voters` (app/page.tsx:107, 127, `flat().map(...)`): `Tally.VotersMultiset`,
  `Tally.RecordVoters`, `Tally.TotalIsVoterCount`.
- `Results.PercentageOf` (app/page.tsx:99, 238): `Results.PercentagesOfTally`.
- `Results.JoinNumbers` (app/page.tsx:107, `join(', ')`): `Results.JoinNumbersEmptyIff`,
  `Results.JoinNumbersSnoc`.
- `Results.ResultsText` (app/page.tsx:88-111): `Results.ResultsTextLayout`,
  `Results.ResultsTextDeterminedByCountsAndVoters`, and `Ballot.BallotPage.GenerateResultsText`,
  which is proved equal to it.

## Model

| member | source | states |
|---|---|---|
| Roll.RollEntries | app/page.tsx:28 | the roll lists 17 numbers, position k holding 101 + 2k |
| Roll.OnRollIffOddInRange | app/page.tsx:28 | a number is on the roll exactly when it is odd and between 101 and 133 |
| Roll.RollSize | app/page.tsx:28 | the roll has 17 distinct numbers, so 17 distinct households |
| Roll.IsValidHouseNumberIff | app/page.tsx:30-32 | a text is eligible exactly when parseInt reads an odd number from 101 to 133 from it; NaN is never eligible |
| Roll.RollNumberTextAccepted | app/page.tsx:30-32 | eligibility goes by the parsed number: a roll number is accepted with leading white space and followed by any text that does not start with a digit ("101x" included) |
| Roll.FirstOnRollAccepted | app/page.tsx:30-32 | "101" is eligible |
| Roll.EvenInRangeRefused | app/page.tsx:30-32 | "102" is refused although it lies within the field's min 101 and max 133 (lines 151-152) |
| Roll.UnparseableRefused | app/page.tsx:30-32 | the empty text and "abc" parse to NaN and are refused |
| JsNumbers.DigitPrefix | app/page.tsx:31 | parseInt's digit run is the longest prefix of digits of the radix |
| JsNumbers.TrimStartDropsLeadingWhiteSpace | app/page.tsx:31 | parseInt's trimming removes exactly the leading run of white space and keeps the rest |
| JsNumbers.TrimStartSkipsWhiteSpace | app/page.tsx:31 | any run of white space before a text is trimmed away |
| JsNumbers.ParseIntSkipsWhiteSpace | app/page.tsx:31 | leading white space never changes what parseInt reads |
| JsNumbers.DigitPrefixOfDigits | app/page.tsx:31 | the digit run stops exactly at the first non-digit |
| JsNumbers.NatToString | app/page.tsx:103 | `${n}` prints a run of decimal digits whose value is n, with no leading zero |
| JsNumbers.ParseMagnitudeNatToString | app/page.tsx:71 | the unsigned part of parseInt reads back a printed natural number under the same condition on the text that follows |
| JsNumbers.ParseNatToString | app/page.tsx:71 | parseInt reads back a printed natural number followed by any text that does not start with a digit; only after 0 must that text also not start with x/X |
| JsNumbers.ParseDecimalText | app/page.tsx:31 | parseInt reads a plain run of decimal digits (no "0x") as its decimal value |
| JsNumbers.ParseIntToString | app/page.tsx:71 | parseInt reads back every printed integer, negative ones included |
| JsNumbers.NatToStringInjective | app/page.tsx:106 | different counts print as different text |
| Tally.HouseNumbersOf | app/page.tsx:127 | a number is among the mapped house numbers exactly when some vote of the list carries it, linking `map(vote => vote.houseNumber)` to the `some` search of lines 35-36 |
| Tally.HasAlreadyVotedIff | app/page.tsx:34-38 | the duplicate test holds exactly when the parsed number is among the recorded voters |
| Tally.Record | app/page.tsx:76-79 | the vote is appended at the end of its own option's list, the other lists are unchanged, and the total grows by one |
| Tally.RecordVoters | app/page.tsx:76-79 | recording adds exactly the new house number to the voters |
| Tally.TotalIsVoterCount | app/page.tsx:89 | the total is the sum of the three counts and the number of voters |
| Tally.RecordPreservesWellFormed | app/page.tsx:59-79 | appending a roll number that has not voted keeps every voter on the roll and recorded once |
| Tally.NoVotesWellFormed | app/page.tsx:20-24 | the initial empty tally satisfies the invariant and has total 0 |
| Tally.WellFormedTotalAtMost17 | app/page.tsx:28 | under the invariant the total never exceeds the 17 households |
| Sorting.Insert | app/page.tsx:127 | insertion lengthens the sequence by one and puts the new element or the old first element in front |
| Sorting.InsertSorted | app/page.tsx:127 | inserting into an ascending sequence keeps it ascending |
| Sorting.InsertPermutes | app/page.tsx:127 | insertion adds exactly the inserted element |
| Sorting.Sort | app/page.tsx:127 | `sort((a, b) => a - b)` yields an ascending permutation of its input |
| Sorting.SortedUnique | app/page.tsx:127 | two ascending sequences with the same elements are equal, so the sorted list depends only on who voted |
| Results.Percentage | app/page.tsx:99 | the percentage is 0 for no votes, else the nearest integer to 100 · count / total, halves rounded up |
| Results.PercentageBounds | app/page.tsx:99 | a percentage of a count within the total lies in 0..100 |
| Results.PercentagesOfTally | app/page.tsx:238 | each option's percentage lies in 0..100; all are 0 with no votes; otherwise the three sum to 99, 100 or 101 |
| Results.PercentageSum | app/page.tsx:99 | three rounded shares of one positive total sum to within one of 100 |
| Results.JoinNumbersEmptyIff | app/page.tsx:107 | `join(', ')` gives the empty text exactly for an empty list |
| Results.JoinNumbersSnoc | app/page.tsx:107 | each further number is appended after a ", " separator |
| Results.SortedVoters | app/page.tsx:107 | the participant list is ascending and a permutation of all recorded house numbers |
| Results.OptionLinesStep | app/page.tsx:97-104 | each round of the option loop appends exactly that option's line |
| Results.OptionLinesInOrder | app/page.tsx:97-104 | the option lines come in the order struiken, gras, onthouding |
| Results.ResultsTextLayout | app/page.tsx:88-111 | the report is the header, the three option lines in order, the total line, the participants line and the closing statement |
| Results.OptionLinesAgree | app/page.tsx:97-104 | the option lines depend only on the counts and the total |
| Results.ResultsTextDeterminedByCountsAndVoters | app/page.tsx:88-111 | the report depends only on the per-option counts and the set of voters, not on arrival order |
| Ballot.Validate | app/page.tsx:49-67 | the four checks in order: empty field, then not eligible, then already voted, then no option; acceptance holds exactly when all pass, and then the number is on the roll and has not voted |
| Ballot.SecondVoteRefused | app/page.tsx:59-62 | once a household's vote is recorded, the same text is refused as a duplicate whatever option comes next |
| Ballot.BallotPage.constructor | app/page.tsx:18-25 | the page starts with empty fields, no votes, no message, and satisfies the invariant |
| Ballot.BallotPage.SetHouseNumber | app/page.tsx:149 | the field's change handler stores the typed text; the vote lists are unchanged and the invariant is kept |
| Ballot.BallotPage.SelectOption | app/page.tsx:162 | clicking an option selects it; the vote lists are unchanged and the invariant is kept |
| Ballot.BallotPage.ShowMessage | app/page.tsx:40-45 | the message becomes the given text and kind; the vote lists are unchanged and the invariant is kept |
| Ballot.BallotPage.SubmitVote | app/page.tsx:47-86 | the invariant is kept; the verdict is the checks' outcome; a refusal shows its error text and changes nothing else; an acceptance appends one vote with the given timestamp, shows the success text and clears both fields |
| Ballot.BallotPage.CheckSubmission | app/page.tsx:48-67 | the guard chain with early returns yields the checks' verdict, shows the matching error text on a refusal, and changes nothing but the message |
| Ballot.BallotPage.AppendVote | app/page.tsx:76-79 | the functional update of the vote lists appends the vote to its option's list and keeps the invariant |
| Ballot.BallotPage.GenerateResultsText | app/page.tsx:88-111 | the text built line by line, with the loop over the options, equals the report `ResultsText` |
| Ballot.TotalNeverExceedsRoll | app/page.tsx:47-86 | a page satisfying the invariant has a total of at most 17; the constructor establishes the invariant and every handler keeps it, so this covers every reachable page |
| Ballot.Session | app/page.tsx:47-86 | on a fresh page an eligible household's first vote is accepted and its second, for another option, is refused as a duplicate |

## Left out

- The page markup (JSX), its styling, and the live results section as a view. The live view's
  figures are the same `totalVotes`, percentages and `allVoters` (lines 126-127, 236-266),
  which the model covers. Its "Nog geen stemmen" placeholder for an empty list is not modelled.
- `exportToEmail` and `exportToWhatsApp` (lines 113-124): `encodeURIComponent`, `window.location`
  and `window.open` are browser calls outside the engine.
- The three-second timer that clears a success message (line 43). `ShowMessage` sets the
  message only.
- The clock: the timestamp and date are parameters, so their formats are not modelled.
- Results.Percentage: `Math.round` over floating point is modelled as exact round-half-up.
  The two agree for every total the invariant allows (at most 17). The only halves then fall
  at totals 8 and 16, where `count / total * 100` is exact in binary floating point.
- JsNumbers.ParseInt: the model uses exact integers. JavaScript turns very long digit runs into rounded
  floats or Infinity. Such values never equal a roll number, and house numbers are small.
- The browser's handling of `type="number"` input, which may hand the handler an empty
  string for text it cannot read as a number. The model accepts any text in the field;
  that is the more general case.
- React's batching of state updates: each handler call is modelled as taking effect at once.
