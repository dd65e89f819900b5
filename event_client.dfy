/**
 * The browser-side event store (src/app.js): events held in memory by code, each with its
 * polls, Q&A questions and word clouds, changed in place by the handlers the dashboard calls.
 * Rendering, notifications, timers and `localStorage` persistence are left out; `confirm`
 * answers, the text of input fields, generated ids and elapsed times are parameters.
 */
module EventClient {
  import opened Wrappers
  import opened Decimal
  import opened Sequences
  import QrCodeUtils

  // ---------------------------------------------------------------------------
  // Records
  // ---------------------------------------------------------------------------

  datatype PollOption = PollOption(id: string, text: string, votes: int, voters: seq<string>)

  /** A poll; of its settings only `allowMultipleVotes` changes what the handlers do. */
  datatype Poll = Poll(id: string, question: string, pollType: string, options: seq<PollOption>,
                       isActive: bool, allowMultipleVotes: bool)

  datatype Question = Question(id: string, text: string, votes: int, voters: seq<string>)

  datatype WordEntry = WordEntry(text: string, participantId: string)

  /**
   * A word cloud; `participants` maps a participant id to the words that participant has in it.
   * The limit comes from `parseInt` of a form field: `None` stands for NaN, the value `parseInt`
   * gives for a field that does not start with a number.
   */
  datatype WordCloud = WordCloud(id: string, question: string, words: seq<WordEntry>,
                                 participants: map<string, seq<string>>, isActive: bool,
                                 maxWordsPerParticipant: Option<int>)

  datatype Event = Event(code: string, title: string, polls: seq<Poll>, questions: seq<Question>,
                         wordClouds: seq<WordCloud>, isActive: bool)

  datatype User = User(id: string, fullName: string, email: string, password: string)

  // ---------------------------------------------------------------------------
  // Lists: `find`, `includes`, `filter`
  // ---------------------------------------------------------------------------

  /** `polls.find(p => p.id === id)`, as the index of the first match, or `|polls|` for none. */
  function PollIndex(polls: seq<Poll>, id: string): (k: nat)
    ensures k <= |polls|
    ensures k < |polls| ==> polls[k].id == id
    ensures forall j :: 0 <= j < k ==> polls[j].id != id
  {
    if polls == [] then 0 else if polls[0].id == id then 0 else 1 + PollIndex(polls[1..], id)
  }

  function OptionIndex(options: seq<PollOption>, id: string): (k: nat)
    ensures k <= |options|
    ensures k < |options| ==> options[k].id == id
    ensures forall j :: 0 <= j < k ==> options[j].id != id
  {
    if options == [] then 0 else if options[0].id == id then 0 else 1 + OptionIndex(options[1..], id)
  }

  function QuestionIndex(questions: seq<Question>, id: string): (k: nat)
    ensures k <= |questions|
    ensures k < |questions| ==> questions[k].id == id
    ensures forall j :: 0 <= j < k ==> questions[j].id != id
  {
    if questions == [] then 0 else if questions[0].id == id then 0 else 1 + QuestionIndex(questions[1..], id)
  }

  function CloudIndex(clouds: seq<WordCloud>, id: string): (k: nat)
    ensures k <= |clouds|
    ensures k < |clouds| ==> clouds[k].id == id
    ensures forall j :: 0 <= j < k ==> clouds[j].id != id
  {
    if clouds == [] then 0 else if clouds[0].id == id then 0 else 1 + CloudIndex(clouds[1..], id)
  }

  /** `s.filter(y => y !== x)`. */
  function Without(s: seq<string>, x: string): (r: seq<string>)
    ensures x !in r
    ensures forall y :: y in r ==> y in s
  {
    if s == [] then [] else (if s[0] == x then [] else [s[0]]) + Without(s[1..], x)
  }

  lemma {:induction false} CountWithout(s: seq<string>, x: string, y: string)
    ensures Count(Without(s, x), y) == if y == x then 0 else Count(s, y)
    ensures |Without(s, x)| == |s| - Count(s, x)
  {
    if s != [] {
      CountWithout(s[1..], x, y);
      CountAppend(if s[0] == x then [] else [s[0]], Without(s[1..], x), y);
    }
  }

  lemma {:induction false} WithoutAbsent(s: seq<string>, x: string)
    requires x !in s
    ensures Without(s, x) == s
  {
    if s != [] {
      WithoutAbsent(s[1..], x);
    }
  }

  lemma {:induction false} WithoutAppend(s: seq<string>, t: seq<string>, x: string)
    ensures Without(s + t, x) == Without(s, x) + Without(t, x)
  {
    if s == [] {
      assert s + t == t;
    } else {
      var head := if s[0] == x then [] else [s[0]];
      var rest, tail := Without(s[1..], x), Without(t, x);
      assert (s + t)[1..] == s[1..] + t;
      WithoutAppend(s[1..], t, x);
      assert Without(s + t, x) == head + (rest + tail);
      assert head + (rest + tail) == (head + rest) + tail;
    }
  }

  // ---------------------------------------------------------------------------
  // Polls: createPoll, votePoll, togglePoll
  // ---------------------------------------------------------------------------

  /**
   * The poll that createPoll (app.js:542-570) builds: a word cloud gets no options, any other type
   * one option per text, in order, each with no votes and no voters; the new poll is active.
   */
  function NewPoll(id: string, question: string, pollType: string, optionIds: seq<string>,
                   texts: seq<string>, allowMultipleVotes: bool): (p: Poll)
    requires |optionIds| == |texts|
    ensures p.id == id && p.question == question && p.pollType == pollType
    ensures p.isActive && p.allowMultipleVotes == allowMultipleVotes
    ensures pollType == "word-cloud" ==> p.options == []
    ensures pollType != "word-cloud" ==>
              |p.options| == |texts| &&
              forall i :: 0 <= i < |texts| ==> p.options[i] == PollOption(optionIds[i], texts[i], 0, [])
  {
    var options := if pollType == "word-cloud" then []
                   else seq(|texts|, i requires 0 <= i < |texts| => PollOption(optionIds[i], texts[i], 0, []));
    Poll(id, question, pollType, options, true, allowMultipleVotes)
  }

  /** `poll.options.some(option => option.voters.includes(user))`. */
  function HasVoted(poll: Poll, user: string): (r: bool)
    ensures r <==> Ballots(poll.options, user) > 0
  {
    BallotsPositive(poll.options, user);
    exists i :: 0 <= i < |poll.options| && user in poll.options[i].voters
  }

  /** votePoll accepts a ballot: the voter has not voted yet or may vote again, and the option exists. */
  function Accepts(poll: Poll, optionId: string, user: string): (r: bool)
    ensures r <==> (poll.allowMultipleVotes || Ballots(poll.options, user) == 0) &&
                   exists i :: 0 <= i < |poll.options| && poll.options[i].id == optionId
  {
    !(HasVoted(poll, user) && !poll.allowMultipleVotes) && OptionIndex(poll.options, optionId) < |poll.options|
  }

  /**
   * What votePoll (app.js:590-610) does to the poll it found: a repeat voter on a single-vote poll
   * and an unknown option change nothing; otherwise the chosen option gains one vote and the voter.
   */
  function VoteOnPoll(poll: Poll, optionId: string, user: string): (r: Poll)
    ensures r == poll.(options := r.options) && |r.options| == |poll.options|
    ensures !Accepts(poll, optionId, user) ==> r == poll
    ensures Accepts(poll, optionId, user) ==>
              var j := OptionIndex(poll.options, optionId);
              var o := poll.options[j];
              r.options[j] == PollOption(o.id, o.text, o.votes + 1, o.voters + [user]) &&
              forall i :: 0 <= i < |poll.options| && i != j ==> r.options[i] == poll.options[i]
  {
    if HasVoted(poll, user) && !poll.allowMultipleVotes then poll
    else
      var j := OptionIndex(poll.options, optionId);
      if j == |poll.options| then poll
      else
        var o := poll.options[j];
        poll.(options := poll.options[j := o.(votes := o.votes + 1, voters := o.voters + [user])])
  }

  /** The polls after votePoll: the first poll with that id is voted on; an unknown id changes nothing. */
  function VoteIn(polls: seq<Poll>, pollId: string, optionId: string, user: string): (r: seq<Poll>)
    ensures |r| == |polls|
    ensures forall i :: 0 <= i < |polls| && i != PollIndex(polls, pollId) ==> r[i] == polls[i]
    ensures PollIndex(polls, pollId) < |polls| ==>
              r[PollIndex(polls, pollId)] == VoteOnPoll(polls[PollIndex(polls, pollId)], optionId, user)
  {
    var k := PollIndex(polls, pollId);
    if k == |polls| then polls else polls[k := VoteOnPoll(polls[k], optionId, user)]
  }

  /** The polls after togglePoll (app.js:813-822): the first poll with that id flips `isActive`. */
  function ToggleIn(polls: seq<Poll>, pollId: string): (r: seq<Poll>)
    ensures |r| == |polls|
    ensures forall i :: 0 <= i < |polls| && i != PollIndex(polls, pollId) ==> r[i] == polls[i]
    ensures PollIndex(polls, pollId) < |polls| ==>
              var p := polls[PollIndex(polls, pollId)];
              r[PollIndex(polls, pollId)] == p.(isActive := !p.isActive)
  {
    var k := PollIndex(polls, pollId);
    if k == |polls| then polls else polls[k := polls[k].(isActive := !polls[k].isActive)]
  }

  lemma {:induction false} PollIndexSameIds(ps: seq<Poll>, qs: seq<Poll>, id: string)
    requires |ps| == |qs|
    requires forall i :: 0 <= i < |ps| ==> ps[i].id == qs[i].id
    ensures PollIndex(ps, id) == PollIndex(qs, id)
  {
    if ps != [] {
      PollIndexSameIds(ps[1..], qs[1..], id);
    }
  }

  /** togglePoll twice restores every poll, its `isActive` flag included. */
  lemma {:induction false} ToggleTwice(polls: seq<Poll>, pollId: string)
    ensures ToggleIn(ToggleIn(polls, pollId), pollId) == polls
  {
    var once := ToggleIn(polls, pollId);
    PollIndexSameIds(polls, once, pollId);
  }

  /** How many times `user` appears across the voter lists of the options. */
  function Ballots(options: seq<PollOption>, user: string): nat
  {
    if options == [] then 0 else Count(options[0].voters, user) + Ballots(options[1..], user)
  }

  lemma {:induction false} BallotsPositive(options: seq<PollOption>, user: string)
    ensures Ballots(options, user) > 0 <==> exists i :: 0 <= i < |options| && user in options[i].voters
  {
    if options != [] {
      BallotsPositive(options[1..], user);
      CountPositive(options[0].voters, user);
      if Ballots(options[1..], user) > 0 {
        var i :| 0 <= i < |options[1..]| && user in options[1..][i].voters;
        assert user in options[i + 1].voters;
      }
      if exists i :: 0 <= i < |options| && user in options[i].voters {
        var i :| 0 <= i < |options| && user in options[i].voters;
        if i > 0 {
          assert user in options[1..][i - 1].voters;
        }
      }
    }
  }

  lemma {:induction false} BallotsUpdate(options: seq<PollOption>, j: nat, o: PollOption, user: string)
    requires j < |options|
    ensures Ballots(options[j := o], user) ==
            Ballots(options, user) - Count(options[j].voters, user) + Count(o.voters, user)
    ensures Ballots(options, user) >= Count(options[j].voters, user)
  {
    if j > 0 {
      assert options[j := o][1..] == options[1..][j - 1 := o];
      BallotsUpdate(options[1..], j - 1, o, user);
    } else {
      assert options[j := o][1..] == options[1..];
    }
  }

  /** Every option's vote count equals the length of its voter list. */
  ghost predicate Tallied(options: seq<PollOption>)
  {
    forall i :: 0 <= i < |options| ==> options[i].votes == |options[i].voters|
  }

  /** A single-vote poll holds at most one ballot per voter. */
  ghost predicate OneBallotEach(poll: Poll)
  {
    !poll.allowMultipleVotes ==> forall u :: Ballots(poll.options, u) <= 1
  }

  ghost predicate PollValid(poll: Poll)
  {
    Tallied(poll.options) && OneBallotEach(poll)
  }

  /** A freshly created poll has no votes at all. */
  lemma NewPollValid(id: string, question: string, pollType: string, optionIds: seq<string>,
                     texts: seq<string>, allowMultipleVotes: bool)
    requires |optionIds| == |texts|
    ensures var p := NewPoll(id, question, pollType, optionIds, texts, allowMultipleVotes);
            PollValid(p) && forall u :: Ballots(p.options, u) == 0
  {
    var p := NewPoll(id, question, pollType, optionIds, texts, allowMultipleVotes);
    forall u ensures Ballots(p.options, u) == 0 {
      BallotsPositive(p.options, u);
    }
  }

  /**
   * An accepted ballot adds exactly one ballot for the voter and none for anybody else, and votePoll
   * keeps the tallies and the one-ballot-per-voter rule of a single-vote poll.
   */
  lemma {:induction false} VoteOnPollBallots(poll: Poll, optionId: string, user: string, u: string)
    ensures var r := VoteOnPoll(poll, optionId, user);
            Ballots(r.options, u) ==
              Ballots(poll.options, u) + (if Accepts(poll, optionId, user) && u == user then 1 else 0)
  {
    if Accepts(poll, optionId, user) {
      var j := OptionIndex(poll.options, optionId);
      var o := poll.options[j];
      var o' := PollOption(o.id, o.text, o.votes + 1, o.voters + [user]);
      assert VoteOnPoll(poll, optionId, user).options == poll.options[j := o'];
      BallotsUpdate(poll.options, j, o', u);
      CountAppend(o.voters, [user], u);
      assert Count([user], u) == if u == user then 1 else 0;
    }
  }

  lemma {:induction false} VoteKeepsPollValid(poll: Poll, optionId: string, user: string)
    requires PollValid(poll)
    ensures PollValid(VoteOnPoll(poll, optionId, user))
  {
    var r := VoteOnPoll(poll, optionId, user);
    if Accepts(poll, optionId, user) && !poll.allowMultipleVotes {
      forall u ensures Ballots(r.options, u) <= 1 {
        VoteOnPollBallots(poll, optionId, user, u);
        if u == user {
          BallotsPositive(poll.options, user);
        }
      }
    }
  }

  // ---------------------------------------------------------------------------
  // Q&A upvotes: voteQuestion
  // ---------------------------------------------------------------------------

  /** voteQuestion (app.js:876-896) on the question it found: an upvote toggles. */
  function Upvote(q: Question, user: string): (r: Question)
    ensures r.id == q.id && r.text == q.text
    ensures (user in r.voters) == (user !in q.voters)
    ensures user in q.voters ==> r.votes == q.votes - 1 && r.voters == Without(q.voters, user)
    ensures user !in q.voters ==> r.votes == q.votes + 1 && r.voters == q.voters + [user]
  {
    if user in q.voters then q.(votes := q.votes - 1, voters := Without(q.voters, user))
    else q.(votes := q.votes + 1, voters := q.voters + [user])
  }

  function UpvoteIn(questions: seq<Question>, questionId: string, user: string): (r: seq<Question>)
    ensures |r| == |questions|
    ensures forall i :: 0 <= i < |questions| && i != QuestionIndex(questions, questionId) ==> r[i] == questions[i]
    ensures QuestionIndex(questions, questionId) < |questions| ==>
              r[QuestionIndex(questions, questionId)] == Upvote(questions[QuestionIndex(questions, questionId)], user)
  {
    var k := QuestionIndex(questions, questionId);
    if k == |questions| then questions else questions[k := Upvote(questions[k], user)]
  }

  /** Adding an upvote and taking it back restores the question exactly. */
  lemma {:induction false} UpvoteTwiceRestores(q: Question, user: string)
    requires user !in q.voters
    ensures Upvote(Upvote(q, user), user) == q
  {
    WithoutAppend(q.voters, [user], user);
    WithoutAbsent(q.voters, user);
  }

  /** Nobody appears twice among the voters, and the count is the number of voters. */
  ghost predicate QuestionValid(q: Question)
  {
    q.votes == |q.voters| && forall u :: Count(q.voters, u) <= 1
  }

  /**
   * Taking an upvote back and adding it again restores the count and the voters, up to order:
   * the voter moves to the end of the list. This holds for any count, seeded ones included.
   */
  lemma {:induction false} UpvoteTwiceFromVoted(q: Question, user: string)
    requires Count(q.voters, user) == 1
    ensures var r := Upvote(Upvote(q, user), user);
            r.votes == q.votes && forall u :: Count(r.voters, u) == Count(q.voters, u)
  {
    var r := Upvote(Upvote(q, user), user);
    CountPositive(q.voters, user);
    CountWithout(q.voters, user, user);
    forall u ensures Count(r.voters, u) == Count(q.voters, u) {
      CountAppend(Without(q.voters, user), [user], u);
      CountWithout(q.voters, user, u);
      assert Count([user], u) == if u == user then 1 else 0;
    }
  }

  /** voteQuestion keeps the count equal to the number of distinct voters. */
  lemma {:induction false} UpvoteKeepsQuestionValid(q: Question, user: string)
    requires QuestionValid(q)
    ensures QuestionValid(Upvote(q, user))
  {
    var r := Upvote(q, user);
    CountPositive(q.voters, user);
    forall u ensures Count(r.voters, u) <= 1 {
      if user in q.voters {
        CountWithout(q.voters, user, u);
      } else {
        CountAppend(q.voters, [user], u);
        assert Count([user], u) == if u == user then 1 else 0;
        CountPositive(q.voters, u);
      }
    }
    CountWithout(q.voters, user, user);
  }

  // ---------------------------------------------------------------------------
  // Word clouds: submitWord, removeWord
  // ---------------------------------------------------------------------------

  /** The characters `String.prototype.trim` removes: white space and line terminators. */
  predicate IsJsSpace(c: char)
  {
    c == '\t' || c == '\n' || c == '\U{000B}' || c == '\U{000C}' || c == '\r' || c == ' ' ||
    c == '\U{00A0}' || c == '\U{1680}' || ('\U{2000}' <= c <= '\U{200A}') || c == '\U{2028}' ||
    c == '\U{2029}' || c == '\U{202F}' || c == '\U{205F}' || c == '\U{3000}' || c == '\U{FEFF}'
  }

  /** The first index from `i` on that does not hold white space, or `|s|`. */
  function SkipSpace(s: string, i: nat): (n: nat)
    requires i <= |s|
    ensures i <= n <= |s|
    ensures forall m :: i <= m < n ==> IsJsSpace(s[m])
    ensures n < |s| ==> !IsJsSpace(s[n])
    decreases |s| - i
  {
    if i < |s| && IsJsSpace(s[i]) then SkipSpace(s, i + 1) else i
  }

  /** The end of `s[lo..j]` once its trailing white space is dropped. */
  function SkipSpaceBack(s: string, lo: nat, j: nat): (e: nat)
    requires lo <= j <= |s|
    ensures lo <= e <= j
    ensures forall m :: e <= m < j ==> IsJsSpace(s[m])
    ensures e > lo ==> !IsJsSpace(s[e - 1])
    decreases j
  {
    if j > lo && IsJsSpace(s[j - 1]) then SkipSpaceBack(s, lo, j - 1) else j
  }

  /** How many characters of leading white space `trim` drops. */
  function Lead(s: string): (n: nat)
    ensures n <= |s| && forall i :: 0 <= i < n ==> IsJsSpace(s[i])
    ensures n < |s| ==> !IsJsSpace(s[n])
  {
    SkipSpace(s, 0)
  }

  /**
   * `s.trim()`: the slice of `s` after its leading white space and before its trailing white
   * space, and starting and ending with a character that is not white space.
   */
  function Trim(s: string): (r: string)
    ensures Lead(s) + |r| <= |s| && r == s[Lead(s)..Lead(s) + |r|]
    ensures forall i :: Lead(s) + |r| <= i < |s| ==> IsJsSpace(s[i])
    ensures r == "" <==> forall i :: 0 <= i < |s| ==> IsJsSpace(s[i])
    ensures r != "" ==> !IsJsSpace(r[0]) && !IsJsSpace(r[|r| - 1])
  {
    var k := Lead(s);
    var e := SkipSpaceBack(s, k, |s|);
    assert e > k ==> s[k..e][0] == s[k] && s[k..e][e - k - 1] == s[e - 1];
    s[k..e]
  }

  /** The words `participantId` has in a cloud (`participants[id]`, or none when absent). */
  function WordsOf(wc: WordCloud, participantId: string): seq<string>
  {
    if participantId in wc.participants then wc.participants[participantId] else []
  }

  /** The texts of the entries of one participant, in submission order. */
  function TextsBy(words: seq<WordEntry>, participantId: string): seq<string>
  {
    if words == [] then []
    else (if words[0].participantId == participantId then [words[0].text] else []) + TextsBy(words[1..], participantId)
  }

  /** `words.filter(w => !(w.participantId === participantId && w.text === text))`. */
  function WithoutEntry(words: seq<WordEntry>, participantId: string, text: string): (r: seq<WordEntry>)
    ensures forall e :: e in r ==> e in words && !(e.participantId == participantId && e.text == text)
  {
    if words == [] then []
    else (if words[0].participantId == participantId && words[0].text == text then [] else [words[0]]) +
         WithoutEntry(words[1..], participantId, text)
  }

  /**
   * `count >= maxWordsPerParticipant`, the test submitWord refuses on. Every comparison with NaN
   * is false, so a NaN limit never refuses.
   */
  predicate AtLimit(wc: WordCloud, count: nat)
  {
    wc.maxWordsPerParticipant.Some? && count >= wc.maxWordsPerParticipant.value
  }

  /** A numeric per-participant limit as a bound on list lengths: a negative limit admits no word. */
  function Limit(wc: WordCloud): (n: nat)
    requires wc.maxWordsPerParticipant.Some?
    ensures forall count: nat :: count < n <==> !AtLimit(wc, count)
  {
    if wc.maxWordsPerParticipant.value < 0 then 0 else wc.maxWordsPerParticipant.value
  }

  /**
   * Each participant's list holds exactly that participant's entries of the cloud, every entry's
   * participant has a list, and under a numeric limit no list is longer than the limit.
   */
  ghost predicate CloudValid(wc: WordCloud)
  {
    && (forall p :: p in wc.participants ==> wc.participants[p] == TextsBy(wc.words, p))
    && (forall i :: 0 <= i < |wc.words| ==> wc.words[i].participantId in wc.participants)
    && (wc.maxWordsPerParticipant.Some? ==> forall p :: p in wc.participants ==> |wc.participants[p]| <= Limit(wc))
  }

  datatype SubmitOutcome = Submitted | CloudClosed | EmptyWord | LimitReached

  /**
   * submitWord (app.js:2573-2613) on the cloud it found. The participant's list is created (empty)
   * before the limit is checked, so a rejected submission may still add an empty list.
   */
  function SubmitToCloud(wc: WordCloud, user: string, input: string): (r: (WordCloud, SubmitOutcome))
    ensures r.0 == wc.(participants := r.0.participants, words := r.0.words)
    ensures (r.1 == Submitted) ==
              (wc.isActive && Trim(input) != "" && !AtLimit(wc, |WordsOf(wc, user)|))
    ensures (r.1 == LimitReached) == (wc.isActive && Trim(input) != "" && AtLimit(wc, |WordsOf(wc, user)|))
    ensures !wc.isActive ==> r == (wc, CloudClosed)
    ensures wc.isActive && Trim(input) == "" ==> r == (wc, EmptyWord)
    ensures r.1 != Submitted ==> r.0.words == wc.words && forall p :: WordsOf(r.0, p) == WordsOf(wc, p)
    ensures r.1 == Submitted ==>
              && r.0.words == wc.words + [WordEntry(Trim(input), user)]
              && WordsOf(r.0, user) == WordsOf(wc, user) + [Trim(input)]
              && forall p :: p != user ==> WordsOf(r.0, p) == WordsOf(wc, p)
    ensures r.0.participants.Keys == wc.participants.Keys || r.0.participants.Keys == wc.participants.Keys + {user}
  {
    if !wc.isActive then (wc, CloudClosed)
    else
      var word := Trim(input);
      if word == "" then (wc, EmptyWord)
      else
        var mine := WordsOf(wc, user);
        if AtLimit(wc, |mine|) then (wc.(participants := wc.participants[user := mine]), LimitReached)
        else (wc.(participants := wc.participants[user := mine + [word]], words := wc.words + [WordEntry(word, user)]), Submitted)
  }

  /** The clouds after submitWord; a missing cloud is reported like a closed one. */
  function SubmitIn(clouds: seq<WordCloud>, cloudId: string, user: string, input: string): (r: (seq<WordCloud>, SubmitOutcome))
    ensures |r.0| == |clouds|
    ensures forall i :: 0 <= i < |clouds| && i != CloudIndex(clouds, cloudId) ==> r.0[i] == clouds[i]
    ensures CloudIndex(clouds, cloudId) == |clouds| ==> r == (clouds, CloudClosed)
    ensures CloudIndex(clouds, cloudId) < |clouds| ==>
              var k := CloudIndex(clouds, cloudId); (r.0[k], r.1) == SubmitToCloud(clouds[k], user, input)
  {
    var k := CloudIndex(clouds, cloudId);
    if k == |clouds| then (clouds, CloudClosed)
    else var (wc, outcome) := SubmitToCloud(clouds[k], user, input); (clouds[k := wc], outcome)
  }

  lemma {:induction false} TextsByConcat(a: seq<WordEntry>, b: seq<WordEntry>, p: string)
    ensures TextsBy(a + b, p) == TextsBy(a, p) + TextsBy(b, p)
  {
    if a == [] {
      assert a + b == b;
    } else {
      assert (a + b)[1..] == a[1..] + b;
      TextsByConcat(a[1..], b, p);
    }
  }

  lemma TextsByAppend(words: seq<WordEntry>, e: WordEntry, p: string)
    ensures TextsBy(words + [e], p) == TextsBy(words, p) + (if e.participantId == p then [e.text] else [])
  {
    TextsByConcat(words, [e], p);
  }

  lemma {:induction false} TextsByAbsent(words: seq<WordEntry>, p: string)
    requires forall i :: 0 <= i < |words| ==> words[i].participantId != p
    ensures TextsBy(words, p) == []
  {
    if words != [] {
      TextsByAbsent(words[1..], p);
    }
  }

  /** submitWord keeps every list equal to its owner's entries and within the limit. */
  lemma OwnListIsOwnEntries(wc: WordCloud, user: string)
    requires CloudValid(wc)
    ensures TextsBy(wc.words, user) == WordsOf(wc, user)
  {
    if user !in wc.participants {
      TextsByAbsent(wc.words, user);
    }
  }

  lemma AddWordValid(wc: WordCloud, user: string, word: string)
    requires CloudValid(wc) && !AtLimit(wc, |WordsOf(wc, user)|)
    ensures CloudValid(wc.(participants := wc.participants[user := WordsOf(wc, user) + [word]],
                           words := wc.words + [WordEntry(word, user)]))
  {
    var r := wc.(participants := wc.participants[user := WordsOf(wc, user) + [word]],
                 words := wc.words + [WordEntry(word, user)]);
    OwnListIsOwnEntries(wc, user);
    forall p | p in r.participants ensures r.participants[p] == TextsBy(r.words, p) {
      TextsByAppend(wc.words, WordEntry(word, user), p);
    }
    forall i | 0 <= i < |r.words| ensures r.words[i].participantId in r.participants {
      if i < |wc.words| {
        assert r.words[i] == wc.words[i];
      }
    }
  }

  lemma AddListValid(wc: WordCloud, user: string)
    requires CloudValid(wc)
    ensures CloudValid(wc.(participants := wc.participants[user := WordsOf(wc, user)]))
  {
    OwnListIsOwnEntries(wc, user);
  }

  /** submitWord keeps every list equal to its owner's entries and within the limit. */
  lemma SubmitKeepsCloudValid(wc: WordCloud, user: string, input: string)
    requires CloudValid(wc)
    ensures CloudValid(SubmitToCloud(wc, user, input).0)
  {
    if wc.isActive && Trim(input) != "" {
      if AtLimit(wc, |WordsOf(wc, user)|) {
        AddListValid(wc, user);
      } else {
        AddWordValid(wc, user, Trim(input));
      }
    }
  }

  /** With a non-negative limit, a participant's list never grows past it, however many words are tried. */
  lemma SubmitWithinLimit(wc: WordCloud, user: string, input: string)
    requires CloudValid(wc) && wc.maxWordsPerParticipant.Some? && wc.maxWordsPerParticipant.value >= 0
    ensures |WordsOf(SubmitToCloud(wc, user, input).0, user)| <= wc.maxWordsPerParticipant.value
  {
    SubmitKeepsCloudValid(wc, user, input);
  }

  /**
   * removeWord (app.js:2616-2639) on the cloud it found: every entry of that text by that
   * participant goes, from the participant's list and from the cloud's words.
   */
  function RemoveFromCloud(wc: WordCloud, user: string, text: string): (r: (WordCloud, bool))
    ensures r.1 == wc.isActive
    ensures !wc.isActive ==> r.0 == wc
    ensures wc.isActive ==>
              && r.0 == wc.(participants := r.0.participants, words := r.0.words)
              && r.0.participants.Keys == wc.participants.Keys
              && r.0.words == WithoutEntry(wc.words, user, text)
              && WordsOf(r.0, user) == Without(WordsOf(wc, user), text)
              && forall p :: p != user ==> WordsOf(r.0, p) == WordsOf(wc, p)
  {
    if !wc.isActive then (wc, false)
    else
      var participants := if user in wc.participants
                          then wc.participants[user := Without(wc.participants[user], text)]
                          else wc.participants;
      (wc.(participants := participants, words := WithoutEntry(wc.words, user, text)), true)
  }

  function RemoveIn(clouds: seq<WordCloud>, cloudId: string, user: string, text: string): (r: (seq<WordCloud>, bool))
    ensures |r.0| == |clouds|
    ensures forall i :: 0 <= i < |clouds| && i != CloudIndex(clouds, cloudId) ==> r.0[i] == clouds[i]
    ensures CloudIndex(clouds, cloudId) == |clouds| ==> r == (clouds, false)
    ensures CloudIndex(clouds, cloudId) < |clouds| ==>
              var k := CloudIndex(clouds, cloudId); (r.0[k], r.1) == RemoveFromCloud(clouds[k], user, text)
  {
    var k := CloudIndex(clouds, cloudId);
    if k == |clouds| then (clouds, false)
    else var (wc, done) := RemoveFromCloud(clouds[k], user, text); (clouds[k := wc], done)
  }

  lemma {:induction false} TextsByWithoutEntry(words: seq<WordEntry>, user: string, text: string, p: string)
    ensures TextsBy(WithoutEntry(words, user, text), p) ==
            if p == user then Without(TextsBy(words, p), text) else TextsBy(words, p)
  {
    if words != [] {
      TextsByWithoutEntry(words[1..], user, text, p);
      var w := words[0];
      var head := if w.participantId == user && w.text == text then [] else [w];
      assert WithoutEntry(words, user, text) == head + WithoutEntry(words[1..], user, text);
      TextsByConcat(head, WithoutEntry(words[1..], user, text), p);
      var mine := if w.participantId == p then [w.text] else [];
      if p == user {
        WithoutAppend(mine, TextsBy(words[1..], p), text);
      }
    }
  }

  /** removeWord leaves other participants' entries untouched. */
  lemma RemoveKeepsOthers(wc: WordCloud, user: string, text: string, p: string)
    requires p != user
    ensures TextsBy(RemoveFromCloud(wc, user, text).0.words, p) == TextsBy(wc.words, p)
  {
    if wc.isActive {
      TextsByWithoutEntry(wc.words, user, text, p);
    }
  }

  /** removeWord keeps every list equal to its owner's entries and within the limit. */
  lemma {:induction false} RemoveKeepsCloudValid(wc: WordCloud, user: string, text: string)
    requires CloudValid(wc)
    ensures CloudValid(RemoveFromCloud(wc, user, text).0)
  {
    var r := RemoveFromCloud(wc, user, text).0;
    if wc.isActive {
      forall p | p in r.participants ensures r.participants[p] == TextsBy(r.words, p) {
        TextsByWithoutEntry(wc.words, user, text, p);
      }
      forall i | 0 <= i < |r.words| ensures r.words[i].participantId in r.participants {
        assert r.words[i] in wc.words;
      }
      forall p | p in r.participants && wc.maxWordsPerParticipant.Some? ensures |r.participants[p]| <= Limit(wc) {
        CountWithout(wc.participants[p], text, text);
      }
    }
  }

  // ---------------------------------------------------------------------------
  // Events: closeEvent
  // ---------------------------------------------------------------------------

  /**
   * The event after a confirmed closeEvent (app.js:2683-2733): the event, each of its polls and
   * each of its word clouds is inactive, and nothing else about them changes.
   */
  function Closed(ev: Event): (r: Event)
    ensures !r.isActive
    ensures r == ev.(polls := r.polls, wordClouds := r.wordClouds, isActive := false)
    ensures |r.polls| == |ev.polls| && |r.wordClouds| == |ev.wordClouds|
    ensures forall i :: 0 <= i < |ev.polls| ==> !r.polls[i].isActive && r.polls[i] == ev.polls[i].(isActive := false)
    ensures forall i :: 0 <= i < |ev.wordClouds| ==>
              !r.wordClouds[i].isActive && r.wordClouds[i] == ev.wordClouds[i].(isActive := false)
  {
    ev.(polls := seq(|ev.polls|, i requires 0 <= i < |ev.polls| => ev.polls[i].(isActive := false)),
        wordClouds := seq(|ev.wordClouds|, i requires 0 <= i < |ev.wordClouds| => ev.wordClouds[i].(isActive := false)),
        isActive := false)
  }

  ghost predicate EventValid(ev: Event)
  {
    && (forall i :: 0 <= i < |ev.polls| ==> PollValid(ev.polls[i]))
    && (forall i :: 0 <= i < |ev.questions| ==> QuestionValid(ev.questions[i]))
    && (forall i :: 0 <= i < |ev.wordClouds| ==> CloudValid(ev.wordClouds[i]))
  }

  ghost predicate AllValid(events: map<string, Event>)
  {
    forall c :: c in events ==> EventValid(events[c])
  }

  lemma ClosedValid(ev: Event)
    requires EventValid(ev)
    ensures EventValid(Closed(ev))
  {
    var r := Closed(ev);
    forall i | 0 <= i < |r.polls| ensures PollValid(r.polls[i]) {
      assert r.polls[i].options == ev.polls[i].options;
      assert r.polls[i].allowMultipleVotes == ev.polls[i].allowMultipleVotes;
    }
  }

  /** The code initializeDemoData (app.js:1456-1538) stores its showcase event under. */
  const DemoCode := "DEMO01"

  /**
   * The showcase event of initializeDemoData (app.js:1459-1532): its poll options and questions
   * start with vote counts but without voters.
   */
  const DemoEvent := Event(DemoCode, "Marketing Team Meeting",
    [Poll("demo-poll-1", "What should be our main focus for Q4?", "multiple-choice",
          [PollOption("opt-1", "Product development", 45, []),
           PollOption("opt-2", "Customer acquisition", 35, []),
           PollOption("opt-3", "Market expansion", 20, [])],
          true, false)],
    [Question("demo-q-1", "How do we measure success for the new product launch?", 12, []),
     Question("demo-q-2", "What is our budget allocation for marketing campaigns?", 8, [])],
    [], true)

  /** The seeded counts are not backed by voter lists, so the demo event lies outside EventValid. */
  lemma DemoOutsideValid()
    ensures !EventValid(DemoEvent)
  {
    var o := DemoEvent.polls[0].options[0];
    assert o.votes == 45 && |o.voters| == 0;
    assert !Tallied(DemoEvent.polls[0].options);
  }

  /**
   * votePoll keeps every option's seeded surplus: each count stays its voter list's length plus
   * what the option started with, so the demo options go on showing 45, 35 and 20 more votes
   * than they have voters.
   */
  lemma {:induction false} VoteKeepsSurplus(poll: Poll, optionId: string, user: string, i: nat)
    requires i < |poll.options|
    ensures var r := VoteOnPoll(poll, optionId, user);
            r.options[i].votes - |r.options[i].voters| == poll.options[i].votes - |poll.options[i].voters|
  {
    if Accepts(poll, optionId, user) && i == OptionIndex(poll.options, optionId) {
      var o := poll.options[i];
      assert |o.voters + [user]| == |o.voters| + 1;
    }
  }

  // ---------------------------------------------------------------------------
  // Accounts: registerUser
  // ---------------------------------------------------------------------------

  /**
   * The property names every plain object inherits from `Object.prototype`. The stores `users` and
   * `events` are plain objects read with `JSON.parse`, so `users[name]` and `events[name]` are
   * truthy for these names even when nothing was stored under them.
   */
  const InheritedNames: set<string> := {
    "constructor", "__proto__", "__defineGetter__", "__defineSetter__", "__lookupGetter__",
    "__lookupSetter__", "hasOwnProperty", "isPrototypeOf", "propertyIsEnumerable",
    "toLocaleString", "toString", "valueOf"
  }

  /** How joinEvent ends: joined, "Event not found!", or a thrown TypeError. */
  datatype JoinOutcome = Joined | NotFound | Thrown

  datatype RegisterError = AlreadyExists | MissingField | PasswordTooShort

  /** The checks of registerUser (app.js:96-130), in their order; None means the account is created. */
  function RegisterCheck(users: map<string, User>, fullName: string, email: string, password: string): (r: Option<RegisterError>)
    ensures r.None? <==> email !in users && email !in InheritedNames && fullName != "" && email != "" && |password| >= 6
    ensures email in users || email in InheritedNames ==> r == Some(AlreadyExists)
    ensures email !in users && email !in InheritedNames && (fullName == "" || email == "" || password == "") ==>
              r == Some(MissingField)
    ensures email !in users && email !in InheritedNames && fullName != "" && email != "" && password != "" ==>
              (|password| < 6 <==> r == Some(PasswordTooShort))
  {
    if email in users || email in InheritedNames then Some(AlreadyExists)
    else if fullName == "" || email == "" || password == "" then Some(MissingField)
    else if |password| < 6 then Some(PasswordTooShort)
    else None
  }

  // ---------------------------------------------------------------------------
  // formatTimeAgo
  // ---------------------------------------------------------------------------

  const Minute: nat := 60
  const Hour: nat := 60 * Minute
  const Day: nat := 24 * Hour
  const Month: nat := 30 * Day
  const Year: nat := 12 * Month

  /**
   * formatTimeAgo (app.js:1980-2000) given `now - date` in milliseconds. The source floors at each
   * unit in turn; the contract states each bucket by one division of the elapsed seconds.
   */
  function FormatTimeAgo(elapsedMs: int): (r: string)
    ensures var s := elapsedMs / 1000;
            && (s < Minute ==> r == "just now")
            && (Minute <= s < Hour ==> r == NatToString(s / Minute) + "m ago")
            && (Hour <= s < Day ==> r == NatToString(s / Hour) + "h ago")
            && (Day <= s < Month ==> r == NatToString(s / Day) + "d ago")
            && (Month <= s < Year ==> r == NatToString(s / Month) + "mo ago")
            && (Year <= s ==> r == NatToString(s / Year) + "y ago")
  {
    var seconds := elapsedMs / 1000;
    if seconds < 60 then "just now"
    else
      var minutes := seconds / 60;
      if minutes < 60 then NatToString(minutes) + "m ago"
      else
        var hours := minutes / 60;
        assert hours == seconds / Hour;
        if hours < 24 then NatToString(hours) + "h ago"
        else
          var days := hours / 24;
          assert days == seconds / Day;
          if days < 30 then NatToString(days) + "d ago"
          else
            var months := days / 30;
            assert months == seconds / Month;
            if months < 12 then NatToString(months) + "mo ago"
            else
              assert months / 12 == seconds / Year;
              NatToString(months / 12) + "y ago"
  }

  // ---------------------------------------------------------------------------
  // The store
  // ---------------------------------------------------------------------------

  /**
   * The page's state: `events` by code, the current event (held as its code: the source's
   * `currentEvent` is the record `events[code]`), the current user's id and the user accounts.
   */
  class EventApp {
    var events: map<string, Event>
    var currentCode: Option<string>
    var currentUserId: Option<string>
    var users: map<string, User>

    ghost predicate Valid()
      reads this
    {
      AllValid(events)
    }

    predicate HasCurrentEvent()
      reads this
    {
      currentCode.Some? && currentCode.value in events
    }

    function CurrentEvent(): Event
      reads this
      requires HasCurrentEvent()
    {
      events[currentCode.value]
    }

    /** The state read back from storage, nobody signed in and no event open. */
    constructor (stored: map<string, Event>, accounts: map<string, User>)
      ensures events == stored && users == accounts
      ensures currentCode == None && currentUserId == None
    {
      events, users := stored, accounts;
      currentCode, currentUserId := None, None;
    }

    /**
     * initializeDemoData (app.js:1456-1538): the showcase event is stored under its code unless an
     * event with that code is already there. Afterwards Valid() cannot hold (DemoOutsideValid), which
     * is why each handler below also states what it keeps for the one event it changes.
     */
    method SeedDemo()
      modifies this
      ensures events == if DemoCode in old(events) then old(events) else old(events)[DemoCode := DemoEvent]
      ensures DemoCode in events && !(DemoCode in old(events)) ==> !Valid()
      ensures currentCode == old(currentCode) && currentUserId == old(currentUserId) && users == old(users)
    {
      if DemoCode !in events {
        events := events[DemoCode := DemoEvent];
        DemoOutsideValid();
      }
    }

    /** viewEventDetails (app.js:2137-2144): an existing event becomes the current one. */
    method SelectEvent(code: string) returns (found: bool)
      modifies this
      ensures found == (code in old(events))
      ensures found ==> currentCode == Some(code) && HasCurrentEvent() && CurrentEvent() == old(events)[code]
      ensures !found ==> currentCode == old(currentCode)
      ensures events == old(events) && currentUserId == old(currentUserId) && users == old(users)
    {
      found := code in events;
      if found {
        currentCode := Some(code);
      }
    }

    /**
     * joinEvent (app.js:345-376): the first `#` of the typed code is dropped; when that names an
     * event, it becomes the current event and the new participant the current user. A code that
     * names no event but a property inherited from `Object.prototype` passes the `!event` test and
     * then throws a TypeError at `event.participants.push`, before any state changes.
     */
    method JoinEvent(input: string, participantId: string) returns (outcome: JoinOutcome)
      modifies this
      ensures var code := QrCodeUtils.RemoveFirst(input, '#');
              && (outcome == Joined <==> code in old(events))
              && (outcome == Thrown <==> code !in old(events) && code in InheritedNames)
              && (outcome == Joined ==> currentCode == Some(code) && currentUserId == Some(participantId))
      ensures outcome != Joined ==> currentCode == old(currentCode) && currentUserId == old(currentUserId)
      ensures events == old(events) && users == old(users)
    {
      var code := QrCodeUtils.RemoveFirst(input, '#');
      if code in events {
        currentCode, currentUserId := Some(code), Some(participantId);
        outcome := Joined;
      } else if code in InheritedNames {
        outcome := Thrown;
      } else {
        outcome := NotFound;
      }
    }

    /** goHome (app.js:73-78): no current event and no current user. */
    method GoHome()
      modifies this
      ensures currentCode == None && currentUserId == None
      ensures events == old(events) && users == old(users)
    {
      currentCode, currentUserId := None, None;
    }

    /** Replace the current event, keeping the invariant when the new record keeps it. */
    method SetCurrentEvent(ev: Event)
      requires HasCurrentEvent()
      modifies this
      ensures events == old(events)[old(currentCode.value) := ev]
      ensures currentCode == old(currentCode) && currentUserId == old(currentUserId) && users == old(users)
      ensures CurrentEvent() == ev
      ensures old(Valid()) && EventValid(ev) ==> Valid()
    {
      events := events[currentCode.value := ev];
    }

    /** createPoll (app.js:542-590): the new poll goes to the end of the current event's polls. */
    method CreatePoll(pollId: string, optionIds: seq<string>, question: string, texts: seq<string>,
                      pollType: string, allowMultipleVotes: bool)
      requires HasCurrentEvent() && |optionIds| == |texts|
      modifies this
      ensures var ev := old(CurrentEvent());
              events == old(events)[old(currentCode.value) :=
                ev.(polls := ev.polls + [NewPoll(pollId, question, pollType, optionIds, texts, allowMultipleVotes)])]
      ensures currentCode == old(currentCode) && currentUserId == old(currentUserId) && users == old(users)
      ensures old(Valid()) ==> Valid()
      ensures EventValid(old(CurrentEvent())) ==> EventValid(CurrentEvent())
    {
      var ev := CurrentEvent();
      var poll := NewPoll(pollId, question, pollType, optionIds, texts, allowMultipleVotes);
      NewPollValid(pollId, question, pollType, optionIds, texts, allowMultipleVotes);
      SetCurrentEvent(ev.(polls := ev.polls + [poll]));
    }

    /** votePoll (app.js:590-610) by the current user. */
    method VotePoll(pollId: string, optionId: string)
      requires HasCurrentEvent() && currentUserId.Some?
      modifies this
      ensures var ev := old(CurrentEvent());
              events == old(events)[old(currentCode.value) :=
                ev.(polls := VoteIn(ev.polls, pollId, optionId, old(currentUserId.value)))]
      ensures currentCode == old(currentCode) && currentUserId == old(currentUserId) && users == old(users)
      ensures old(Valid()) ==> Valid()
      ensures EventValid(old(CurrentEvent())) ==> EventValid(CurrentEvent())
    {
      var ev := CurrentEvent();
      var polls := VoteIn(ev.polls, pollId, optionId, currentUserId.value);
      var k := PollIndex(ev.polls, pollId);
      if EventValid(ev) && k < |ev.polls| {
        VoteKeepsPollValid(ev.polls[k], optionId, currentUserId.value);
      }
      SetCurrentEvent(ev.(polls := polls));
    }

    /** togglePoll (app.js:813-822). */
    method TogglePoll(pollId: string)
      requires HasCurrentEvent()
      modifies this
      ensures var ev := old(CurrentEvent());
              events == old(events)[old(currentCode.value) := ev.(polls := ToggleIn(ev.polls, pollId))]
      ensures currentCode == old(currentCode) && currentUserId == old(currentUserId) && users == old(users)
      ensures old(Valid()) ==> Valid()
      ensures EventValid(old(CurrentEvent())) ==> EventValid(CurrentEvent())
    {
      var ev := CurrentEvent();
      var polls := ToggleIn(ev.polls, pollId);
      var k := PollIndex(ev.polls, pollId);
      if k < |ev.polls| {
        assert polls[k].options == ev.polls[k].options;
        assert polls[k].allowMultipleVotes == ev.polls[k].allowMultipleVotes;
      }
      SetCurrentEvent(ev.(polls := polls));
    }

    /** voteQuestion (app.js:876-896) by the current user. */
    method VoteQuestion(questionId: string)
      requires HasCurrentEvent() && currentUserId.Some?
      modifies this
      ensures var ev := old(CurrentEvent());
              events == old(events)[old(currentCode.value) :=
                ev.(questions := UpvoteIn(ev.questions, questionId, old(currentUserId.value)))]
      ensures currentCode == old(currentCode) && currentUserId == old(currentUserId) && users == old(users)
      ensures old(Valid()) ==> Valid()
      ensures EventValid(old(CurrentEvent())) ==> EventValid(CurrentEvent())
    {
      var ev := CurrentEvent();
      var questions := UpvoteIn(ev.questions, questionId, currentUserId.value);
      var k := QuestionIndex(ev.questions, questionId);
      if EventValid(ev) && k < |ev.questions| {
        UpvoteKeepsQuestionValid(ev.questions[k], currentUserId.value);
      }
      SetCurrentEvent(ev.(questions := questions));
    }

    /** submitWord (app.js:2573-2613) by the current user; `input` is the text of the word field. */
    method SubmitWord(cloudId: string, input: string) returns (outcome: SubmitOutcome)
      requires HasCurrentEvent() && currentUserId.Some?
      modifies this
      ensures var ev := old(CurrentEvent());
              var r := SubmitIn(ev.wordClouds, cloudId, old(currentUserId.value), input);
              outcome == r.1 && events == old(events)[old(currentCode.value) := ev.(wordClouds := r.0)]
      ensures currentCode == old(currentCode) && currentUserId == old(currentUserId) && users == old(users)
      ensures old(Valid()) ==> Valid()
      ensures EventValid(old(CurrentEvent())) ==> EventValid(CurrentEvent())
    {
      var ev := CurrentEvent();
      var r := SubmitIn(ev.wordClouds, cloudId, currentUserId.value, input);
      var k := CloudIndex(ev.wordClouds, cloudId);
      if EventValid(ev) && k < |ev.wordClouds| {
        SubmitKeepsCloudValid(ev.wordClouds[k], currentUserId.value, input);
      }
      outcome := r.1;
      SetCurrentEvent(ev.(wordClouds := r.0));
    }

    /** removeWord (app.js:2616-2639) by the current user. */
    method RemoveWord(cloudId: string, text: string) returns (removed: bool)
      requires HasCurrentEvent() && currentUserId.Some?
      modifies this
      ensures var ev := old(CurrentEvent());
              var r := RemoveIn(ev.wordClouds, cloudId, old(currentUserId.value), text);
              removed == r.1 && events == old(events)[old(currentCode.value) := ev.(wordClouds := r.0)]
      ensures currentCode == old(currentCode) && currentUserId == old(currentUserId) && users == old(users)
      ensures old(Valid()) ==> Valid()
      ensures EventValid(old(CurrentEvent())) ==> EventValid(CurrentEvent())
    {
      var ev := CurrentEvent();
      var r := RemoveIn(ev.wordClouds, cloudId, currentUserId.value, text);
      var k := CloudIndex(ev.wordClouds, cloudId);
      if EventValid(ev) && k < |ev.wordClouds| {
        RemoveKeepsCloudValid(ev.wordClouds[k], currentUserId.value, text);
      }
      removed := r.1;
      SetCurrentEvent(ev.(wordClouds := r.0));
    }

    /**
     * closeEvent (app.js:2683-2733). `confirmed` is the user's answer to the confirmation prompt.
     * Closing the current event also returns home, which clears the current event and user.
     */
    method CloseEvent(code: string, confirmed: bool) returns (closed: bool)
      modifies this
      ensures closed == (code in old(events) && confirmed)
      ensures closed ==> events == old(events)[code := Closed(old(events)[code])]
      ensures !closed ==> events == old(events)
      ensures closed && old(HasCurrentEvent()) && old(CurrentEvent()).code == code ==>
                currentCode == None && currentUserId == None
      ensures !(closed && old(HasCurrentEvent()) && old(CurrentEvent()).code == code) ==>
                currentCode == old(currentCode) && currentUserId == old(currentUserId)
      ensures users == old(users)
      ensures old(Valid()) ==> Valid()
      ensures closed && EventValid(old(events)[code]) ==> EventValid(events[code])
    {
      if code !in events || !confirmed {
        return false;
      }
      var ev := events[code];
      var leave := HasCurrentEvent() && CurrentEvent().code == code;
      var polls := ev.polls;
      var i := 0;
      while i < |polls|
        invariant 0 <= i <= |polls| == |ev.polls|
        invariant forall j :: 0 <= j < i ==> polls[j] == ev.polls[j].(isActive := false)
        invariant forall j :: i <= j < |polls| ==> polls[j] == ev.polls[j]
      {
        if polls[i].isActive {
          polls := polls[i := polls[i].(isActive := false)];
        }
        i := i + 1;
      }
      var clouds := ev.wordClouds;
      i := 0;
      while i < |clouds|
        invariant 0 <= i <= |clouds| == |ev.wordClouds|
        invariant forall j :: 0 <= j < i ==> clouds[j] == ev.wordClouds[j].(isActive := false)
        invariant forall j :: i <= j < |clouds| ==> clouds[j] == ev.wordClouds[j]
      {
        if clouds[i].isActive {
          clouds := clouds[i := clouds[i].(isActive := false)];
        }
        i := i + 1;
      }
      var after := ev.(polls := polls, wordClouds := clouds, isActive := false);
      assert after == Closed(ev);
      if EventValid(ev) {
        ClosedValid(ev);
      }
      events := events[code := after];
      if leave {
        currentCode, currentUserId := None, None;
      }
      closed := true;
    }

    /** registerUser (app.js:96-130): a new account is stored under its email and becomes the current user. */
    method RegisterUser(userId: string, fullName: string, email: string, password: string) returns (ok: bool)
      modifies this
      ensures ok == RegisterCheck(old(users), fullName, email, password).None?
      ensures ok ==> users == old(users)[email := User(userId, fullName, email, password)] &&
                     currentUserId == Some(userId)
      ensures !ok ==> users == old(users) && currentUserId == old(currentUserId)
      ensures events == old(events) && currentCode == old(currentCode)
    {
      if RegisterCheck(users, fullName, email, password).Some? {
        return false;
      }
      users := users[email := User(userId, fullName, email, password)];
      currentUserId := Some(userId);
      ok := true;
    }
  }
}
