# Live event polling: a verified model

This project models the core of a live-audience polling application in Dafny. A presenter opens
an event that participants join by a six-character code. Inside the event there are polls, Q&A
questions and word clouds, and there are two independent vote stores:

- **The Flask server** (`backend/app.py`) keeps polls, options and votes in a database.
  - An admin guard protects poll creation.
  - `create_poll` stores option rows only for some kinds.
  - `vote_poll` checks a vote against the poll's kind and appends it to the vote ledger.
  - `get_poll_results_dict` aggregates the ledger per kind: option counts, a word tally, a rating
    summary, or the list of open answers.
- **The browser's in-memory store** (`src/app.js`) keeps its events as plain objects and updates
  them in place:
  - `createPoll`, `votePoll` (one vote per voter unless multiple votes are allowed) and
    `togglePoll`;
  - the Q&A upvote toggle `voteQuestion`;
  - `submitWord` and `removeWord` on word clouds, which trim the word and limit the words per
    participant;
  - `closeEvent`;
  - the checks `registerUser` makes;
  - moving between events: `joinEvent`, `viewEventDetails` and `goHome`;
  - the showcase event `initializeDemoData` stores;
  - `formatTimeAgo`.
  - The `users` and `events` stores are maps. A lookup in them also succeeds for the names every
    plain object inherits from `Object.prototype` (`InheritedNames`), as `users[email]` and
    `events[code]` do.
- **The QR and event-code helpers** (`src/utils/qrCodeUtils.ts`) build join links and poll
  links, parse them back, and generate, validate, format and clean event codes.

Files:

- `wrappers.dfy` (`Option`, `Result`).
- `decimal.dfy`: decimal numerals, printed by template literals and read by `int()`.
- `sequences.dfy`: counting in sequences.
- `poll_server.dfy`: module `PollServer`, with class `Database` for the three tables.
- `event_client.dfy`: module `EventClient`, with class `EventApp` for the page's state.
- `qr_code_utils.dfy`: module `QrCodeUtils`.

The server's vote ledger is the `votes` field of `PollServer.Database`, a sequence in id order.
`VotePoll` either appends exactly the vote that the pure function `VoteDecision` accepts, or
leaves the ledger unchanged. The aggregation `ResultsOf` is a function of the three tables. The
word-cloud loop of `get_poll_results_dict` is the method `CountWords`, which is proved to compute
`WordTally`.

In the browser, each handler is a method of `EventApp` that modifies `this`. Each one states its
new state through a pure function on the records: `VoteOnPoll`, `Upvote`, `SubmitToCloud`,
`RemoveFromCloud` or `Closed`. Each keeps the per-event invariant `EventValid` for the event
it changes, and with it the store-wide `Valid()` (every stored event is `EventValid`):

- every option's `votes` equals the length of its `voters`;
- without multiple votes, nobody appears twice among a poll's voters;
- each question's `votes` equals its number of voters, and every voter is listed once;
- each participant's word list holds exactly that participant's entries, within a numeric limit.

The showcase event that `initializeDemoData` seeds under `DEMO01` starts with vote counts and no
voters, so it is not `EventValid` (`DemoOutsideValid`). Once it is stored, `Valid()` no longer
holds for the page. Each handler's per-event guarantee still covers every other event. For the
demo event's polls, `VoteKeepsSurplus` shows that each count stays its seed plus its voters.

The model follows the code where a reader might expect otherwise:

- Word-cloud values are not trimmed on the server.
- A word limit that `parseInt` cannot read (NaN) refuses no word, because every comparison with
  NaN is false.
- `create_poll` also attaches options to `word_cloud` polls.
- `vote_poll` does not look at `is_active`.
- Ratings have no range check.

## Model

| member | source | states |
|---|---|---|
| PollServer.ParseType | backend/app.py:39-45 | the kind named by a type string, exactly when one kind's value equals it (case-sensitive); none otherwise |
| PollServer.AdminGuard | backend/app.py:145-152 | the request passes, carrying the session's user id, exactly when the session has a truthy `user_id` and `is_admin`; otherwise 403 |
| PollServer.CreateCheck | backend/app.py:149-163 | creation succeeds exactly when the guard passes and both question and type are non-empty; 403 comes before the 400 for missing fields; the creator is the session's user |
| PollServer.NewOptions | backend/app.py:168-171 | one option row per given text, in order, with consecutive ids after the existing rows, all pointing at the new poll |
| PollServer.Database.CreatePoll | backend/app.py:157-173 | on a rejected request nothing is stored; otherwise one active poll is appended with the next id; option rows are added only for multiple_choice, quiz, ranking and word_cloud; votes are untouched; the store invariant is kept |
| PollServer.FindPoll | backend/app.py:233-235 | the poll with the id when there is one; none exactly when no stored poll has it |
| PollServer.OwnsOption | backend/app.py:203 | `Option.query.filter_by(id=option_id, poll_id=poll.id).first()` finds a row exactly when one of the poll's options (OptionsOf) has that id |
| PollServer.VoteDecision | backend/app.py:192-220 | unknown poll: 404. Choice kinds: accepted exactly when `option_id` is truthy and names an option of this poll; the vote then carries that option id and no value. Word cloud, rating and open text: accepted exactly when `value` is non-empty; the vote then carries that value and no option. Any other type: "Unsupported poll type". `is_active` plays no part |
| PollServer.AcceptedVoteFits | backend/app.py:200-218 | an accepted vote has the next id and fits the kind of the poll it names |
| PollServer.WellFormedGrows | backend/app.py:164-172 | adding polls and options keeps every stored vote well formed |
| PollServer.Database.VotePoll | backend/app.py:192-222 | an accepted vote is appended and nothing else changes; a rejected request leaves the ledger as it was; the store invariant is kept |
| PollServer.OptionsOf | backend/app.py:238 | exactly the options of the poll |
| PollServer.OptionCounts | backend/app.py:237-238 | the keys are exactly the option texts, including options with no votes; when two options share a text, which count shows depends on the order of `poll.options` (see `OptionCountsLast`) |
| PollServer.OptionCountsLast | backend/app.py:238 | a text shows the vote count of the last option carrying it, counted by poll and option id |
| PollServer.VotesFor | backend/app.py:238 | an option's count is non-zero exactly when some vote of the poll names that option |
| PollServer.FlatMapMember | backend/app.py:240 | a comprehension over the ledger collects a value exactly when some vote contributes it |
| PollServer.VotesForAppend | backend/app.py:238 | appending a vote adds one to the count of the option it names and leaves every other count alone |
| PollServer.ChoiceVoteCounted | backend/app.py:237-238 | after an accepted choice vote, the chosen option's text shows one more vote and the other options' texts are unchanged |
| PollServer.TallyStep | backend/app.py:242-243 | counting one more word raises that word's count by one (from 0 when it is new) and changes nothing else |
| PollServer.WordTally | backend/app.py:240-243 | the keys are exactly the distinct words, each mapped to its number of occurrences, which is at least one |
| PollServer.CountWords | backend/app.py:239-243 | the loop's map has the distinct words as keys, each with its exact number of occurrences (case-sensitive, untrimmed) |
| PollServer.TallyTotal | backend/app.py:240-243 | the tally's counts add up to the number of words |
| PollServer.WordCountsTotal | backend/app.py:239-243 | the word-cloud counts add up to the number of the poll's votes with a non-empty value |
| PollServer.WordVoteCounted | backend/app.py:239-243 | after an accepted word-cloud vote, the tally is the old one with that value's count raised by one |
| PollServer.ValuesNonEmpty | backend/app.py:240 | the collected values are all non-empty |
| PollServer.Average | backend/app.py:247 | 0 with no ratings; otherwise the exact average: the average times the count is the sum |
| PollServer.Ratings | backend/app.py:245 | corrected: a number is among the ratings exactly when some vote of the poll carries an ASCII decimal numeral of at most 4300 digits with that value |
| PollServer.AverageAsWritten | backend/app.py:247 | as written: the division raises `OverflowError` exactly when there are ratings and their exact average is at least 2^1024 - 2^970; otherwise it is the average |
| PollServer.TallyOf | backend/app.py:236-251 | a choice poll's results are OptionCounts of the poll's options, with every option text a key; a word cloud maps each value to its number of votes; a rating poll reports the number of readable ratings and their average, which is 0 when there are none; an open-text poll lists its values; an unknown kind gives an empty dict |
| PollServer.RatingVoteCounted | backend/app.py:244-249 | after an accepted rating vote, the rating count rises by one exactly when `int()` can read the value (an ASCII decimal numeral of at most 4300 digits) |
| PollServer.OpenTextVoteAppended | backend/app.py:250-251 | after an accepted open-text vote, its text is added at the end of the answer list |
| PollServer.ResultsOf | backend/app.py:232-257 | "Poll not found" exactly for an unknown id; otherwise the poll's id, question and type with the per-kind results of `TallyOf` (an empty dict for an unknown kind). The rating branch uses the corrected `Ratings`: where the source raises (see Findings), the model skips the value |
| PollServer.PollResultsDict | backend/app.py:232-257 | the results computed with the word-cloud loop equal `ResultsOf`, whose rating branch is the corrected one |
| PollServer.FlatMapPermutation | backend/app.py:240 | a list comprehension over the ledger depends only on which votes it holds, not their order |
| PollServer.ResultsIgnoreOrder | backend/app.py:237-251 | reordering the ledger changes no result, except that open-text answers come back as a permutation |
| PollServer.TallyPermutation | backend/app.py:240-243 | two orderings of the same words give the same tally |
| PollServer.OptionCountsPermutation | backend/app.py:238 | the option counts do not depend on the ledger's order |
| PollServer.SumPermutation | backend/app.py:247 | the rating sum does not depend on the ledger's order |
| PollServer.PyIsDigit | backend/app.py:245 | `str.isdigit()`: false on the empty string, and true on every ASCII decimal numeral (it also admits the other digits this model knows) |
| PollServer.RatingsAsWritten | backend/app.py:245 | whenever the comprehension as written does not raise, it gives exactly the corrected `Ratings` |
| PollServer.RatingsAsWrittenFails | backend/app.py:245 | the comprehension as written raises exactly when a value of the poll passes `isdigit()` and `int()` cannot read it: it is not an ASCII decimal numeral, or it has more than 4300 digits |
| PollServer.SuperscriptRatingBreaksResults | backend/app.py:245 | a rating of `²` is accepted and stored, after which the as-written results raise; the corrected results skip the value |
| PollServer.LongRatingBreaksResults | backend/app.py:245 | a rating of 4301 ones is accepted and stored, after which the as-written results raise; the corrected results skip the value |
| PollServer.OverflowingRatingBreaksAverage | backend/app.py:245-247 | a readable rating whose value is at least 2^1024 - 2^970 passes the comprehension as written, and then the average as written raises; the corrected average is that value |
| EventClient.PollIndex | src/app.js:591 | the index of the first poll with the id, or the length when there is none |
| EventClient.OptionIndex | src/app.js:601 | the index of the first option with the id, or the length when there is none |
| EventClient.QuestionIndex | src/app.js:877 | the index of the first question with the id, or the length when there is none |
| EventClient.CloudIndex | src/app.js:2574 | the index of the first word cloud with the id, or the length when there is none |
| EventClient.HasVoted | src/app.js:595 | the user counts as having voted exactly when they hold at least one ballot in the poll |
| EventClient.Accepts | src/app.js:596-602 | a vote goes through exactly when the poll allows multiple votes or the user holds no ballot, and some option has the id |
| EventClient.NewPoll | src/app.js:542-555 | a `word-cloud` poll has no options; otherwise one option per text, in order, with 0 votes and no voters; the poll is active and keeps `allowMultipleVotes` |
| EventClient.NewPollValid | src/app.js:542-555 | a new poll satisfies the poll invariant |
| EventClient.VoteOnPoll | src/app.js:594-604 | only the options change. A repeat vote without multiple votes allowed, or an unknown option, changes nothing. Otherwise the chosen option gains one vote and the voter, and the other options are unchanged |
| EventClient.VoteOnPollBallots | src/app.js:595-604 | an accepted vote adds exactly one ballot, for the voter |
| EventClient.VoteKeepsPollValid | src/app.js:594-604 | voting keeps each option's votes equal to its number of voters, and without multiple votes nobody votes twice |
| EventClient.BallotsPositive | src/app.js:595 | `hasVoted` holds exactly when the user appears in some option's voters |
| EventClient.VoteIn | src/app.js:590-610 | only the poll with the id changes, and it changes by `VoteOnPoll`; an unknown poll id changes nothing |
| EventClient.ToggleIn | src/app.js:813-822 | only the poll with the id changes, and only its `isActive` flips; an unknown id changes nothing |
| EventClient.ToggleTwice | src/app.js:813-822 | toggling a poll twice restores the polls |
| EventClient.Upvote | src/app.js:880-891 | toggles the user's upvote: a voter is removed and `votes` drops by one; otherwise the user is appended and `votes` rises by one; afterwards the user is a voter exactly when they were not before |
| EventClient.UpvoteIn | src/app.js:876-891 | only the question with the id changes, and it changes by `Upvote`; an unknown id changes nothing |
| EventClient.UpvoteTwiceRestores | src/app.js:876-891 | upvoting twice from not voted restores the question |
| EventClient.UpvoteTwiceFromVoted | src/app.js:876-891 | for a user who appears once among the voters, whatever the count (seeded counts included), upvoting twice restores `votes` and every voter's multiplicity (the user moves to the end of the list) |
| EventClient.UpvoteKeepsQuestionValid | src/app.js:880-891 | when `votes` equals the number of voters and nobody is listed twice, an upvote toggle keeps both |
| EventClient.CountWithout | src/app.js:884 | filtering out a voter removes all of their entries and keeps every other voter's |
| EventClient.Without | src/app.js:884 | the filtered list no longer holds the value and holds nothing that was not there |
| EventClient.Trim | src/app.js:2581 | the trimmed word is the slice of the input after its leading whitespace, followed only by whitespace; it is empty exactly when the input is all whitespace, and otherwise begins and ends with a non-whitespace character |
| EventClient.Lead | src/app.js:2581 | the length of the leading whitespace: all of it whitespace, and followed by a non-whitespace character when any input remains |
| EventClient.SkipSpace | src/app.js:2581 | from a start index, the first index without whitespace: everything skipped is whitespace, and the character it stops at is not |
| EventClient.SkipSpaceBack | src/app.js:2581 | the end of a range once its trailing whitespace is dropped: everything dropped is whitespace, and the last character kept is not |
| EventClient.SubmitToCloud | src/app.js:2575-2605 | the word is stored exactly when the cloud is active, the trimmed word is non-empty, and the participant is below the limit (a NaN limit refuses nothing); "limit reached" exactly when only the limit stands in the way. A rejection leaves the words and every participant's list as they were, though an empty list may have been created. An accepted word is appended, trimmed, to both the cloud's words and the participant's list |
| EventClient.SubmitIn | src/app.js:2573-2605 | a missing cloud is reported as closed and changes nothing; otherwise only that cloud changes, by `SubmitToCloud` |
| EventClient.Limit | src/app.js:2594 | a numeric limit as a list length: a count is below it exactly when submitWord does not refuse at that count |
| EventClient.SubmitKeepsCloudValid | src/app.js:2591-2605 | submitting keeps every participant's list equal to their entries in the cloud's words |
| EventClient.SubmitWithinLimit | src/app.js:2594-2600 | with a numeric, non-negative limit, a participant never holds more words than the limit |
| EventClient.RemoveFromCloud | src/app.js:2618-2631 | a closed cloud is unchanged; otherwise that text is removed from the participant's list and from their entries, and nothing else changes |
| EventClient.WithoutEntry | src/app.js:2631 | the filtered entries are entries of the cloud, none of them that participant's entry with that text (which entries are kept: TextsByWithoutEntry) |
| EventClient.TextsByWithoutEntry | src/app.js:2627-2631 | after the filter, that participant's texts are their old texts without the removed one, and every other participant's texts are unchanged |
| EventClient.RemoveIn | src/app.js:2616-2631 | a missing cloud changes nothing; otherwise only that cloud changes, by `RemoveFromCloud` |
| EventClient.RemoveKeepsOthers | src/app.js:2631 | removing a word leaves every other participant's entries unchanged |
| EventClient.RemoveKeepsCloudValid | src/app.js:2626-2631 | removing keeps every participant's list equal to their entries |
| EventClient.Closed | src/app.js:2695-2718 | every poll and word cloud becomes inactive and the event is inactive; nothing else changes |
| EventClient.ClosedValid | src/app.js:2695-2718 | closing keeps the event invariant |
| EventClient.DemoOutsideValid | src/app.js:1459-1532 | the showcase event, whose options and questions have counts but no voters, is not `EventValid` |
| EventClient.VoteKeepsSurplus | src/app.js:594-604 | voting keeps every option's count minus its number of voters, so seeded counts stay on top of the voters |
| EventClient.RegisterCheck | src/app.js:96-110 | registration passes exactly when the email is neither stored nor a name every object inherits from `Object.prototype` (such as `constructor`), all three fields are non-empty and the password has at least 6 characters; the errors come in the source's order: already exists, then a missing field, then a short password |
| EventClient.FormatTimeAgo | src/app.js:1980-2000 | "just now" under a minute; otherwise the elapsed time in the largest unit that fits (minutes, hours, days, 30-day months, 12-month years), as a decimal count with its suffix |
| EventClient.EventApp.CreatePoll | src/app.js:542-570 | appends the `NewPoll` record to the current event's polls; nothing else changes; the current event stays `EventValid` if it was, and `Valid()` is kept |
| EventClient.EventApp.VotePoll | src/app.js:590-610 | the current event's polls become `VoteIn` of the old ones; nothing else changes; the current event stays `EventValid` if it was, and `Valid()` is kept |
| EventClient.EventApp.TogglePoll | src/app.js:813-822 | the current event's polls become `ToggleIn` of the old ones; nothing else changes; the current event stays `EventValid` if it was, and `Valid()` is kept |
| EventClient.EventApp.VoteQuestion | src/app.js:876-896 | the current event's questions become `UpvoteIn` of the old ones; nothing else changes; the current event stays `EventValid` if it was, and `Valid()` is kept |
| EventClient.EventApp.SubmitWord | src/app.js:2573-2613 | the current event's word clouds become `SubmitIn` of the old ones, and the outcome is reported; the current event stays `EventValid` if it was, and `Valid()` is kept |
| EventClient.EventApp.RemoveWord | src/app.js:2616-2638 | the current event's word clouds become `RemoveIn` of the old ones; the current event stays `EventValid` if it was, and `Valid()` is kept |
| EventClient.EventApp.CloseEvent | src/app.js:2683-2725 | a known, confirmed event is replaced by `Closed` of it and every other event is unchanged; an unknown or unconfirmed one changes nothing; when the current event's `code` is the closed code, the current event and user are cleared, as `goHome` does |
| EventClient.EventApp.RegisterUser | src/app.js:96-130 | succeeds exactly when `RegisterCheck` passes; the account is then stored under its email and becomes the current user; otherwise nothing changes |
| EventClient.EventApp.SeedDemo | src/app.js:1534-1537 | the showcase event is stored under `DEMO01` exactly when no event has that code, and then `Valid()` no longer holds; nothing else changes |
| EventClient.EventApp.SelectEvent | src/app.js:2137-2144 | an existing event becomes the current event; an unknown code changes nothing; the events are untouched |
| EventClient.EventApp.JoinEvent | src/app.js:345-376 | the first `#` of the code is dropped; when an event has the resulting code it becomes current and the participant the current user; a code naming no event but an inherited property throws, and any other unknown code is not found; both change nothing |
| EventClient.EventApp.GoHome | src/app.js:73-78 | no current event and no current user; the events and accounts are untouched |
| Decimal.NatToString | src/app.js:1988-1999 | a non-empty string of decimal digits, with a leading zero only for 0 |
| Decimal.DigitsValueOfNatToString | src/app.js:1988-1999 | reading the printed count back gives the count |
| QrCodeUtils.Upper | src/utils/qrCodeUtils.ts:87 | same length, each character upper-cased |
| QrCodeUtils.BaseOf | src/utils/qrCodeUtils.ts:16 | a given, non-empty base URL; otherwise the page origin |
| QrCodeUtils.GenerateEventQRUrl | src/utils/qrCodeUtils.ts:15-18 | the link is the base, then `?`, then `join=` and the code; for a base without `?` or `#` its query is exactly `join=` and the code |
| QrCodeUtils.GeneratePollQRUrl | src/utils/qrCodeUtils.ts:23-26 | the link is the base, then `?`, then `poll=`, the poll id, `&event=` and the code; for a base without `?` or `#` its query is exactly that text after the `?` |
| QrCodeUtils.Get | src/utils/qrCodeUtils.ts:36-38 | a value exactly when the key is present, and then the value of the first parameter with that name |
| QrCodeUtils.ParseQRCodeUrl | src/utils/qrCodeUtils.ts:31-62 | an unparsable URL gives null. A truthy `join` wins and gives an event link carrying it. Otherwise a poll link exactly when both `poll` and `event` are truthy. Otherwise null. A result carries the URL |
| QrCodeUtils.EventLinkRoundTrip | src/utils/qrCodeUtils.ts:36-46 | parsing a generated join link gives back an event link with its code |
| QrCodeUtils.PollLinkRoundTrip | src/utils/qrCodeUtils.ts:48-55 | parsing a generated poll link gives back a poll link with its poll id and event code |
| QrCodeUtils.IsValidEventCode | src/utils/qrCodeUtils.ts:79-81 | exactly six characters, each an ASCII letter (either case) or digit |
| QrCodeUtils.GenerateEventCode | src/utils/qrCodeUtils.ts:67-74 | six characters, the i-th one the character CodeChar picks for the i-th random value; the result is a valid event code |
| QrCodeUtils.CodeChar | src/utils/qrCodeUtils.ts:71 | the character picked for one random value in [0, 1) is an upper-case letter or a digit |
| QrCodeUtils.CodeCharPicks | src/utils/qrCodeUtils.ts:68-71 | that character is `chars[floor(x * 36)]`, the index lying within the 36-character alphabet |
| QrCodeUtils.FormatEventCode | src/utils/qrCodeUtils.ts:86-88 | `#` followed by the code upper-cased, character by character, one character longer |
| QrCodeUtils.CleanEventCode | src/utils/qrCodeUtils.ts:93-95 | without a `#`, the code upper-cased; with one, only the first `#` is dropped and the rest is upper-cased |
| QrCodeUtils.RemoveFirst | src/utils/qrCodeUtils.ts:94 | `replace('#', '')`: without a `#` the text is unchanged; otherwise one character shorter, equal to the text before the first `#` followed by the text after it |
| QrCodeUtils.RemoveFirstCount | src/utils/qrCodeUtils.ts:94 | `replace('#', '')` removes exactly one `#` when there is one and nothing else |
| QrCodeUtils.CleanFormatRoundTrip | src/utils/qrCodeUtils.ts:93-95 | cleaning a formatted code gives the code upper-cased |
| QrCodeUtils.UpperIdempotent | src/utils/qrCodeUtils.ts:94 | upper-casing twice is upper-casing once |
| QrCodeUtils.CleanFormatKeepsValidity | src/utils/qrCodeUtils.ts:79-81 | a formatted-then-cleaned code is valid exactly when the code was |

## Left out

- Rendering, notifications, `localStorage`, `confirm` dialogs, timers and QR image drawing are not modelled. A `confirm` answer, input field texts, `generateId` results, `Math.random` values, `window.location.origin` and elapsed times are parameters.
- The Flask app, SQLAlchemy, Flask-Session, CORS, the `socketio.emit` broadcast and `join_room` are not modelled. There is no I/O. The database is three sequences in id order, and a row's id is its position plus one.
- Login, logout, register and password hashing on the server (backend/app.py:77-142) are not modelled.
- Order of rows: `poll.options` and `poll.votes` are taken in id order. SQL does not promise this without `ORDER BY`. The order of the votes matters only for the open-text list (see `ResultsIgnoreOrder`). The order of the options matters when two options of a poll share a text: the dict keeps the count of the last one (see `OptionCountsLast`).
- JSON values are typed: `option_id` is an integer and `value` a string, each possibly absent. A request carrying another JSON type is not modelled.
- PollServer.Average: the average is an exact real number. The source's float division rounds it, and that rounding is not modelled. The division's `OverflowError` is modelled separately, by `AverageAsWritten` (see Findings).
- The 4300-digit bound on `int()` is CPython's default since version 3.11 (and in the security releases of 3.7 to 3.10). On an interpreter without it, longer numerals are read.
- `PyDigit` knows ASCII digits plus the superscript, subscript and circled digits. Python's `isdigit` accepts more. Decimal digits of other scripts, which `int()` also reads, are treated as non-digits.
- Upper-casing (`toUpperCase`) is ASCII-only. Non-ASCII case mappings, some of which change length, are not modelled.
- `URLSearchParams` is modelled by splitting on `&` and `=` without percent or `+` decoding and without fragments. The round-trip lemmas hold for codes without `&`, `#`, `%` or `+` and for bases without `?` or `#`.
- String lengths count code points, not UTF-16 units. This matters only for the password-length check on characters outside the Basic Multilingual Plane.
- `formatTimeAgo` takes the elapsed milliseconds. Invalid dates (`NaN`) are not modelled.
- Client handlers run with a current event and a current user, as the dashboard calls them. Without one, the JavaScript would throw.
- The poll settings `hideResults`, `timer` and `generateQR` and the `createdAt`/`submittedAt` clocks change nothing a handler computes, and are not modelled.
- Other handlers in src/app.js are not part of this model: `deletePoll`, `submitQuestion`, `answerQuestion`, `deleteQuestion`, `handleCreateEvent`, `loginUser`, `toggleWordCloud`, `createWordCloud`, timers and views.
- EventClient.EventApp.SelectEvent and EventClient.EventApp.CloseEvent do not treat inherited property names specially. The page calls them only with codes of listed events. Given such a name, `viewEventDetails` would make a non-event current, and a confirmed `closeEvent` would throw. Neither is modelled.
- EventClient.EventApp.JoinEvent: the participant record that `joinEvent` pushes onto the event's participants and into the global `participants` map is not modelled. Events carry no participant list, and the current user is held by id.
- EventClient.EventApp.GoHome: the `isPresenter` flag and the form resets are not modelled.
- The demo event's description, creator, participants, answers and timestamps are left out, as for every event.
- EventClient.EventApp.RegisterUser: the account record omits `createdAt` and `events`.

## Findings

| source | as written | input that shows it | evidently intended | confidence | as-written member | corrected member |
|---|---|---|---|---|---|---|
| backend/app.py:245 | ratings are filtered with `str.isdigit()` and then read with `int()` | a rating vote with value `²` (U+00B2): `vote_poll` stores it, then `int("²")` raises `ValueError` in the broadcast and in every later results request for that poll | keep only values `int()` can read, so one stray value cannot break the poll's results | not executed | PollServer.SuperscriptRatingBreaksResults | PollServer.Ratings |
| backend/app.py:245 | `isdigit()` admits numerals of any length, and `int()` refuses more than 4300 digits | a rating vote whose value is 4301 ones: stored, then `int()` raises `ValueError` on every results request for that poll | keep only values `int()` can read | not executed | PollServer.LongRatingBreaksResults | PollServer.Ratings |
| backend/app.py:247 | `sum(ratings) / len(ratings)` is float division | a rating vote whose value is a 309-digit numeral of at least 2^1024 - 2^970: it is read, and the division raises `OverflowError` on every results request for that poll | an average that never raises | not executed | PollServer.OverflowingRatingBreaksAverage | PollServer.Average |
