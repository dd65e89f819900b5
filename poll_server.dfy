/**
 * The Flask server's poll store: the admin guard, poll creation with its kind-dependent option
 * records, vote validation against the poll's kind, the append-only vote ledger and the per-kind
 * aggregation that `get_poll_results_dict` returns and broadcasts.
 *
 * The database is three tables held as sequences in id order (`polls`, `options`, `votes`);
 * a row's auto-increment id is its position plus one, since nothing in this core deletes a row.
 */
module PollServer {
  import opened Wrappers
  import opened Decimal
  import opened Sequences

  // ---------------------------------------------------------------------------------------------
  // Poll kinds
  // ---------------------------------------------------------------------------------------------

  /** `PollType`: the kinds the server knows. A stored poll's `type` is a free string. */
  datatype PollType = MultipleChoice | WordCloud | Rating | OpenText | Quiz | Ranking

  /** `PollType.X.value`. */
  function TypeValue(t: PollType): string
  {
    match t
    case MultipleChoice => "multiple_choice"
    case WordCloud => "word_cloud"
    case Rating => "rating"
    case OpenText => "open_text"
    case Quiz => "quiz"
    case Ranking => "ranking"
  }

  /** The kind whose value is exactly `tag`, if there is one (comparison is case-sensitive). */
  function ParseType(tag: string): (r: Option<PollType>)
    ensures r.Some? ==> TypeValue(r.value) == tag
    ensures r.None? <==> forall t: PollType :: TypeValue(t) != tag
  {
    if tag == "multiple_choice" then Some(MultipleChoice)
    else if tag == "word_cloud" then Some(WordCloud)
    else if tag == "rating" then Some(Rating)
    else if tag == "open_text" then Some(OpenText)
    else if tag == "quiz" then Some(Quiz)
    else if tag == "ranking" then Some(Ranking)
    else None
  }

  /** Kinds whose votes name an option and whose results count votes per option. */
  predicate ChoiceKind(tag: string)
  {
    match ParseType(tag)
    case Some(MultipleChoice) | Some(Quiz) | Some(Ranking) => true
    case _ => false
  }

  /** Kinds whose votes carry a free `value`. */
  predicate ValueKind(tag: string)
  {
    match ParseType(tag)
    case Some(WordCloud) | Some(Rating) | Some(OpenText) => true
    case _ => false
  }

  /** Kinds for which `create_poll` stores the given option texts. */
  predicate AttachesOptions(tag: string)
  {
    ChoiceKind(tag) || tag == TypeValue(WordCloud)
  }

  // ---------------------------------------------------------------------------------------------
  // Rows and requests
  // ---------------------------------------------------------------------------------------------

  datatype Poll = Poll(id: nat, question: string, pollType: string, createdBy: int, isActive: bool)

  datatype PollOption = PollOption(id: nat, text: string, pollId: nat)

  /** A ledger entry: `optionId` for the choice kinds, `value` for the others; `userId` may be absent. */
  datatype Vote = Vote(id: nat, pollId: nat, optionId: Option<int>, userId: Option<int>, value: Option<string>)

  /** The signed session cookie's `user_id` and `is_admin` entries. */
  datatype Session = Session(userId: Option<int>, isAdmin: Option<bool>)

  /** The JSON body of a vote request: its `option_id` and `value` entries. */
  datatype VotePayload = VotePayload(optionId: Option<int>, value: Option<string>)

  /** Error responses: 403 `Admin login required`, 400 with a message, 404 for an unknown poll. */
  datatype ApiError = Forbidden | BadRequest(message: string) | NotFound

  /** Python truthiness of an optional integer: present and not 0. */
  predicate IdGiven(x: Option<int>)
  {
    x.Some? && x.value != 0
  }

  /** Python truthiness of an optional string: present and not empty. */
  predicate TextGiven(x: Option<string>)
  {
    x.Some? && x.value != ""
  }

  // ---------------------------------------------------------------------------------------------
  // Admin guard and poll creation
  // ---------------------------------------------------------------------------------------------

  /** `admin_required`: lets the request through, with the session's user id, only for a logged-in admin. */
  function AdminGuard(session: Session): (r: Result<int, ApiError>)
    ensures r.Success? <==> IdGiven(session.userId) && session.isAdmin == Some(true)
    ensures r.Success? ==> r.value == session.userId.value && r.value != 0
    ensures r.Failure? ==> r.error == Forbidden
  {
    if !IdGiven(session.userId) || session.isAdmin != Some(true) then Failure(Forbidden)
    else Success(session.userId.value)
  }

  /** The checks `create_poll` makes before it writes anything; on success, the poll's creator. */
  function CreateCheck(session: Session, question: Option<string>, pollType: Option<string>): (r: Result<int, ApiError>)
    ensures r.Success? <==> AdminGuard(session).Success? && TextGiven(question) && TextGiven(pollType)
    ensures r.Success? ==> r.value == session.userId.value
    ensures AdminGuard(session).Failure? ==> r == Failure(Forbidden)
    ensures AdminGuard(session).Success? && !(TextGiven(question) && TextGiven(pollType)) ==>
              r == Failure(BadRequest("Question and type required"))
  {
    match AdminGuard(session)
    case Failure(e) => Failure(e)
    case Success(user) =>
      if !TextGiven(question) || !TextGiven(pollType) then Failure(BadRequest("Question and type required"))
      else Success(user)
  }

  /** The option rows `create_poll` adds for `texts`, numbered after the `before` rows already stored. */
  function NewOptions(before: nat, texts: seq<string>, pollId: nat): (r: seq<PollOption>)
    ensures |r| == |texts|
    ensures forall i :: 0 <= i < |r| ==> r[i] == PollOption(before + i + 1, texts[i], pollId)
  {
    seq(|texts|, i requires 0 <= i < |texts| => PollOption(before + i + 1, texts[i], pollId))
  }

  // ---------------------------------------------------------------------------------------------
  // Lookups
  // ---------------------------------------------------------------------------------------------

  /** `Poll.query.get(id)`. */
  function FindPoll(polls: seq<Poll>, id: int): (r: Option<Poll>)
    ensures r.Some? ==> r.value in polls && r.value.id == id
    ensures r.None? <==> forall i :: 0 <= i < |polls| ==> polls[i].id != id
  {
    if polls == [] then None
    else if polls[0].id == id then Some(polls[0])
    else FindPoll(polls[1..], id)
  }

  /** `Option.query.filter_by(id=optionId, poll_id=pollId).first()` finds a row. */
  function OwnsOption(options: seq<PollOption>, pollId: nat, optionId: int): (r: bool)
    ensures r <==> exists o :: o in OptionsOf(options, pollId) && o.id == optionId
  {
    assert forall i :: 0 <= i < |options| && options[i].pollId == pollId ==> options[i] in OptionsOf(options, pollId);
    exists i :: 0 <= i < |options| && options[i].id == optionId && options[i].pollId == pollId
  }

  // ---------------------------------------------------------------------------------------------
  // Vote validation
  // ---------------------------------------------------------------------------------------------

  /**
   * What `vote_poll` decides for a request: the vote it would store under id `voteId`, or the
   * error it answers with. Whether the poll is active plays no part.
   */
  function VoteDecision(polls: seq<Poll>, options: seq<PollOption>, pollId: int, payload: VotePayload,
                        userId: Option<int>, voteId: nat): (r: Result<Vote, ApiError>)
    ensures FindPoll(polls, pollId).None? ==> r == Failure(NotFound)
    ensures r.Success? ==> FindPoll(polls, pollId).Some?
    ensures FindPoll(polls, pollId).Some? && ChoiceKind(FindPoll(polls, pollId).value.pollType) ==>
              (r.Success? <==> IdGiven(payload.optionId) && OwnsOption(options, FindPoll(polls, pollId).value.id, payload.optionId.value))
              && (r.Success? ==> r.value == Vote(voteId, FindPoll(polls, pollId).value.id, payload.optionId, userId, None))
    ensures FindPoll(polls, pollId).Some? && ValueKind(FindPoll(polls, pollId).value.pollType) ==>
              (r.Success? <==> TextGiven(payload.value))
              && (r.Success? ==> r.value == Vote(voteId, FindPoll(polls, pollId).value.id, None, userId, payload.value))
    ensures FindPoll(polls, pollId).Some? && !ChoiceKind(FindPoll(polls, pollId).value.pollType)
              && !ValueKind(FindPoll(polls, pollId).value.pollType) ==>
              r == Failure(BadRequest("Unsupported poll type"))
    ensures FindPoll(polls, pollId).Some? && r.Failure? ==> r.error.BadRequest?
  {
    match FindPoll(polls, pollId)
    case None => Failure(NotFound)
    case Some(p) =>
      match ParseType(p.pollType)
      case Some(MultipleChoice) | Some(Quiz) | Some(Ranking) =>
        if !IdGiven(payload.optionId) then Failure(BadRequest("Option ID required"))
        else if !OwnsOption(options, p.id, payload.optionId.value) then Failure(BadRequest("Invalid option"))
        else Success(Vote(voteId, p.id, payload.optionId, userId, None))
      case Some(WordCloud) =>
        if !TextGiven(payload.value) then Failure(BadRequest("Value required"))
        else Success(Vote(voteId, p.id, None, userId, payload.value))
      case Some(Rating) =>
        if !TextGiven(payload.value) then Failure(BadRequest("Rating value required"))
        else Success(Vote(voteId, p.id, None, userId, payload.value))
      case Some(OpenText) =>
        if !TextGiven(payload.value) then Failure(BadRequest("Text value required"))
        else Success(Vote(voteId, p.id, None, userId, payload.value))
      case None => Failure(BadRequest("Unsupported poll type"))
  }

  // ---------------------------------------------------------------------------------------------
  // The store and its invariant
  // ---------------------------------------------------------------------------------------------

  /** A stored vote matches its poll's kind: an option of that poll, or a non-empty value. */
  ghost predicate FitsKind(tag: string, options: seq<PollOption>, v: Vote)
  {
    && (ChoiceKind(tag) ==> IdGiven(v.optionId) && v.value.None? && OwnsOption(options, v.pollId, v.optionId.value))
    && (!ChoiceKind(tag) ==> ValueKind(tag) && v.optionId.None? && TextGiven(v.value))
  }

  ghost predicate WellFormed(polls: seq<Poll>, options: seq<PollOption>, v: Vote)
  {
    1 <= v.pollId <= |polls| && FitsKind(polls[v.pollId - 1].pollType, options, v)
  }

  /** Ids are positions plus one, every option and vote names a stored poll, every vote fits its poll. */
  ghost predicate StoreValid(polls: seq<Poll>, options: seq<PollOption>, votes: seq<Vote>)
  {
    && (forall i :: 0 <= i < |polls| ==> polls[i].id == i + 1)
    && (forall i :: 0 <= i < |options| ==> options[i].id == i + 1 && 1 <= options[i].pollId <= |polls|)
    && (forall i :: 0 <= i < |votes| ==> votes[i].id == i + 1 && WellFormed(polls, options, votes[i]))
  }

  /** Adding rows to the poll and option tables keeps every stored vote well formed. */
  lemma WellFormedGrows(polls: seq<Poll>, polls': seq<Poll>, options: seq<PollOption>, options': seq<PollOption>, v: Vote)
    requires polls <= polls' && options <= options'
    requires WellFormed(polls, options, v)
    ensures WellFormed(polls', options', v)
  {
    assert polls'[v.pollId - 1] == polls[v.pollId - 1];
    if v.optionId.Some? && OwnsOption(options, v.pollId, v.optionId.value) {
      var i :| 0 <= i < |options| && options[i].id == v.optionId.value && options[i].pollId == v.pollId;
      assert options'[i] == options[i];
    }
  }

  /** A vote that `VoteDecision` accepts fits the store it is appended to. */
  lemma AcceptedVoteFits(polls: seq<Poll>, options: seq<PollOption>, pollId: int, payload: VotePayload,
                         userId: Option<int>, voteId: nat)
    requires forall i :: 0 <= i < |polls| ==> polls[i].id == i + 1
    requires VoteDecision(polls, options, pollId, payload, userId, voteId).Success?
    ensures VoteDecision(polls, options, pollId, payload, userId, voteId).value.id == voteId
    ensures WellFormed(polls, options, VoteDecision(polls, options, pollId, payload, userId, voteId).value)
  {
    var p := FindPoll(polls, pollId).value;
    var i :| 0 <= i < |polls| && polls[i] == p;
    assert polls[p.id - 1] == p;
  }

  class Database {
    var polls: seq<Poll>
    var options: seq<PollOption>
    var votes: seq<Vote>

    ghost predicate Valid()
      reads this
    {
      StoreValid(polls, options, votes)
    }

    /** `db.create_all()` on a fresh database. */
    constructor ()
      ensures polls == [] && options == [] && votes == []
      ensures Valid()
    {
      polls := [];
      options := [];
      votes := [];
    }

    /**
     * `create_poll`: after the guard and the required fields, stores an active poll and, for the
     * kinds that have options, one option row per given text in order.
     */
    method CreatePoll(session: Session, question: Option<string>, pollType: Option<string>, texts: seq<string>)
      returns (r: Result<nat, ApiError>)
      requires Valid()
      modifies this
      ensures Valid()
      ensures votes == old(votes)
      ensures CreateCheck(session, question, pollType).Failure? ==>
                r == Failure(CreateCheck(session, question, pollType).error)
                && polls == old(polls) && options == old(options)
      ensures CreateCheck(session, question, pollType).Success? ==>
                r == Success(|old(polls)| + 1)
                && polls == old(polls) + [Poll(|old(polls)| + 1, question.value, pollType.value, session.userId.value, true)]
                && options == old(options) + (if AttachesOptions(pollType.value) then NewOptions(|old(options)|, texts, |old(polls)| + 1) else [])
    {
      var check := CreateCheck(session, question, pollType);
      if check.Failure? {
        return Failure(check.error);
      }
      var poll := Poll(|polls| + 1, question.value, pollType.value, check.value, true);
      polls := polls + [poll];
      if AttachesOptions(poll.pollType) {
        var k := 0;
        while k < |texts|
          invariant 0 <= k <= |texts|
          invariant options == old(options) + NewOptions(|old(options)|, texts[..k], poll.id)
          invariant polls == old(polls) + [poll] && votes == old(votes)
        {
          assert NewOptions(|old(options)|, texts[..k + 1], poll.id)
              == NewOptions(|old(options)|, texts[..k], poll.id) + [PollOption(|options| + 1, texts[k], poll.id)];
          options := options + [PollOption(|options| + 1, texts[k], poll.id)];
          k := k + 1;
        }
        assert texts[..k] == texts;
      }
      forall i | 0 <= i < |votes|
        ensures WellFormed(polls, options, votes[i])
      {
        WellFormedGrows(old(polls), polls, old(options), options, votes[i]);
      }
      r := Success(poll.id);
    }

    /**
     * `vote_poll`: appends exactly the vote `VoteDecision` accepts, and leaves the ledger as it was
     * when the request is rejected. No stored vote changes.
     */
    method VotePoll(pollId: int, payload: VotePayload, userId: Option<int>) returns (r: Result<Vote, ApiError>)
      requires Valid()
      modifies this`votes
      ensures Valid()
      ensures r == VoteDecision(polls, options, pollId, payload, userId, |old(votes)| + 1)
      ensures r.Success? ==> votes == old(votes) + [r.value]
      ensures r.Failure? ==> votes == old(votes)
    {
      r := VoteDecision(polls, options, pollId, payload, userId, |votes| + 1);
      if r.Success? {
        AcceptedVoteFits(polls, options, pollId, payload, userId, |votes| + 1);
        votes := votes + [r.value];
      }
    }
  }

  // ---------------------------------------------------------------------------------------------
  // Views of the ledger
  // ---------------------------------------------------------------------------------------------

  /** Each element's contribution, concatenated in order (a list comprehension with a filter). */
  function FlatMap<T, U>(s: seq<T>, f: T -> seq<U>): seq<U>
  {
    if s == [] then [] else f(s[0]) + FlatMap(s[1..], f)
  }

  lemma {:induction false} FlatMapAppend<T, U>(a: seq<T>, b: seq<T>, f: T -> seq<U>)
    ensures FlatMap(a + b, f) == FlatMap(a, f) + FlatMap(b, f)
  {
    if a == [] {
      assert a + b == b;
    } else {
      assert (a + b)[1..] == a[1..] + b;
      FlatMapAppend(a[1..], b, f);
    }
  }

  /** What a comprehension over the ledger collects depends only on which votes it holds, not their order. */
  lemma {:induction false} FlatMapPermutation<T, U>(a: seq<T>, b: seq<T>, f: T -> seq<U>)
    requires multiset(a) == multiset(b)
    ensures multiset(FlatMap(a, f)) == multiset(FlatMap(b, f))
    decreases |a|
  {
    if a == [] {
      assert |multiset(b)| == 0;
    } else {
      var i := MatchFirst(a, b);
      FlatMapPermutation(a[1..], b[..i] + b[i + 1..], f);
      FlatMapSplit(b, i, f);
      FlatMapAppend(b[..i], b[i + 1..], f);
      assert FlatMap(a, f) == f(a[0]) + FlatMap(a[1..], f);
    }
  }

  /** One element's contribution sits between those of the elements before and after it. */
  lemma FlatMapSplit<T, U>(b: seq<T>, i: nat, f: T -> seq<U>)
    requires i < |b|
    ensures FlatMap(b, f) == FlatMap(b[..i], f) + (f(b[i]) + FlatMap(b[i + 1..], f))
  {
    assert b[i..] == [b[i]] + b[i + 1..];
    assert b == b[..i] + b[i..];
    FlatMapCons(b[i], b[i + 1..], f);
    FlatMapAppend(b[..i], b[i..], f);
  }

  lemma FlatMapCons<T, U>(x: T, s: seq<T>, f: T -> seq<U>)
    ensures FlatMap([x] + s, f) == f(x) + FlatMap(s, f)
  {
    assert ([x] + s)[1..] == s;
  }

  /** Something is collected exactly when some element contributes it. */
  lemma {:induction false} FlatMapMember<T, U>(s: seq<T>, f: T -> seq<U>, u: U)
    ensures u in FlatMap(s, f) <==> exists i :: 0 <= i < |s| && u in f(s[i])
  {
    if s != [] {
      var t := s[1..];
      FlatMapMember(t, f, u);
      assert FlatMap(s, f) == f(s[0]) + FlatMap(t, f);
      if u in FlatMap(s, f) && u !in f(s[0]) {
        var i :| 0 <= i < |t| && u in f(t[i]);
        assert t[i] == s[i + 1];
      }
      if exists i :: 0 <= i < |s| && u in f(s[i]) {
        var i :| 0 <= i < |s| && u in f(s[i]);
        if i > 0 {
          assert t[i - 1] == s[i];
        }
      }
    }
  }

  /** The option id of each vote of poll `pollId` that names one. */
  function ChoiceView(pollId: nat): Vote -> seq<int>
  {
    (v: Vote) => if v.pollId == pollId && v.optionId.Some? then [v.optionId.value] else []
  }

  /** `[v.value for v in poll.votes if v.value]`, in ledger order. */
  function ValueView(pollId: nat): Vote -> seq<string>
  {
    (v: Vote) => if v.pollId == pollId && TextGiven(v.value) then [v.value.value] else []
  }

  /**
   * `Vote.query.filter_by(poll_id=pollId, option_id=optionId).count()`: positive exactly when
   * some vote of the poll names that option.
   */
  function VotesFor(votes: seq<Vote>, pollId: nat, optionId: int): (n: nat)
    ensures n > 0 <==> exists i :: 0 <= i < |votes| && votes[i].pollId == pollId && votes[i].optionId == Some(optionId)
  {
    var ids := FlatMap(votes, ChoiceView(pollId));
    FlatMapMember(votes, ChoiceView(pollId), optionId);
    CountPositive(ids, optionId);
    Count(ids, optionId)
  }

  function ValuesOf(votes: seq<Vote>, pollId: nat): seq<string>
  {
    FlatMap(votes, ValueView(pollId))
  }

  lemma ValuesNonEmpty(votes: seq<Vote>, pollId: nat)
    ensures forall w :: w in ValuesOf(votes, pollId) ==> w != ""
  {
    if votes != [] {
      assert ValuesOf(votes, pollId) == ValueView(pollId)(votes[0]) + ValuesOf(votes[1..], pollId);
      ValuesNonEmpty(votes[1..], pollId);
    }
  }

  /** `[opt for opt in poll.options]`, in id order. */
  function OptionsOf(options: seq<PollOption>, pollId: nat): (r: seq<PollOption>)
    ensures forall o :: o in r <==> o in options && o.pollId == pollId
  {
    if options == [] then []
    else (if options[0].pollId == pollId then [options[0]] else []) + OptionsOf(options[1..], pollId)
  }

  // ---------------------------------------------------------------------------------------------
  // Option counts
  // ---------------------------------------------------------------------------------------------

  /** No later option in `opts` shares the text of `opts[j]`. */
  predicate LastWithText(opts: seq<PollOption>, j: int)
    requires 0 <= j < |opts|
  {
    forall k :: j < k < |opts| ==> opts[k].text != opts[j].text
  }

  /**
   * `{opt.text: count(opt) for opt in poll.options}`: every option's text is a key, and a text
   * maps to the vote count of the last option carrying it (a dict comprehension keeps the last).
   */
  function OptionCounts(opts: seq<PollOption>, votes: seq<Vote>, pollId: nat): (m: map<string, nat>)
    ensures m.Keys == set o | o in opts :: o.text
    decreases |opts|
  {
    if opts == [] then map[]
    else
      var last := opts[|opts| - 1];
      assert opts == opts[..|opts| - 1] + [last];
      OptionCounts(opts[..|opts| - 1], votes, pollId)[last.text := VotesFor(votes, pollId, last.id)]
  }

  /** The count an option's text shows is that option's own vote count, unless a later option reuses the text. */
  lemma {:induction false} OptionCountsLast(opts: seq<PollOption>, votes: seq<Vote>, pollId: nat, j: int)
    requires 0 <= j < |opts| && LastWithText(opts, j)
    ensures opts[j].text in OptionCounts(opts, votes, pollId)
    ensures OptionCounts(opts, votes, pollId)[opts[j].text] == VotesFor(votes, pollId, opts[j].id)
    decreases |opts|
  {
    var init := opts[..|opts| - 1];
    if j < |opts| - 1 {
      assert init[j] == opts[j];
      assert LastWithText(init, j) by {
        forall k | j < k < |init| ensures init[k].text != init[j].text {
          assert init[k] == opts[k];
        }
      }
      OptionCountsLast(init, votes, pollId, j);
    }
  }

  // ---------------------------------------------------------------------------------------------
  // Word tally
  // ---------------------------------------------------------------------------------------------

  /** Each distinct word, compared exactly, with its number of occurrences. */
  function WordTally(words: seq<string>): (m: map<string, nat>)
    ensures m.Keys == set w | w in words
    ensures forall w :: w in m ==> m[w] == Count(words, w) && m[w] >= 1
  {
    assert forall w :: w in words ==> Count(words, w) >= 1 by {
      forall w | w in words ensures Count(words, w) >= 1 {
        CountPositive(words, w);
      }
    }
    map w | w in words :: Count(words, w)
  }

  lemma TallyStep(words: seq<string>, w: string)
    ensures WordTally(words + [w])
         == WordTally(words)[w := (if w in WordTally(words) then WordTally(words)[w] else 0) + 1]
  {
    var before := WordTally(words);
    var after := WordTally(words + [w]);
    var expected := before[w := (if w in before then before[w] else 0) + 1];
    forall x
      ensures x in after <==> x in expected
    {
      assert x in words + [w] <==> x in words || x == w;
    }
    forall x | x in after
      ensures after[x] == expected[x]
    {
      CountAppend(words, [w], x);
      CountPositive(words, x);
    }
  }

  /** The word-cloud loop: `results[word] = results.get(word, 0) + 1` for each word in turn. */
  method CountWords(words: seq<string>) returns (m: map<string, nat>)
    ensures m.Keys == set w | w in words
    ensures forall w :: w in m ==> m[w] == Count(words, w)
    ensures m == WordTally(words)
  {
    m := map[];
    var k := 0;
    while k < |words|
      invariant 0 <= k <= |words|
      invariant m == WordTally(words[..k])
    {
      TallyStep(words[..k], words[k]);
      assert words[..k + 1] == words[..k] + [words[k]];
      m := m[words[k] := (if words[k] in m then m[words[k]] else 0) + 1];
      k := k + 1;
    }
    assert words[..k] == words;
  }

  /** The sum of a map's values. */
  ghost function MapSum(m: map<string, nat>): nat
    decreases |m.Keys|
  {
    if m == map[] then 0
    else
      var k :| k in m;
      m[k] + MapSum(m - {k})
  }

  lemma {:induction false} MapSumRemove(m: map<string, nat>, k: string)
    requires k in m
    ensures MapSum(m) == m[k] + MapSum(m - {k})
    decreases |m.Keys|
  {
    var j :| j in m && MapSum(m) == m[j] + MapSum(m - {j});
    if j != k {
      assert (m - {j}).Keys == m.Keys - {j};
      assert (m - {k}).Keys == m.Keys - {k};
      MapSumRemove(m - {j}, k);
      MapSumRemove(m - {k}, j);
      assert m - {j} - {k} == m - {k} - {j};
    }
  }

  lemma MapSumUpdate(m: map<string, nat>, k: string, v: nat)
    ensures MapSum(m[k := v]) == MapSum(m) - (if k in m then m[k] else 0) + v
  {
    MapSumRemove(m[k := v], k);
    assert m[k := v] - {k} == m - {k};
    if k in m {
      MapSumRemove(m, k);
    } else {
      assert m - {k} == m;
    }
  }

  /** The tally's counts add up to the number of words. */
  lemma {:induction false} TallyTotal(words: seq<string>)
    ensures MapSum(WordTally(words)) == |words|
    decreases |words|
  {
    if words == [] {
      assert WordTally(words) == map[];
    } else {
      var init := words[..|words| - 1];
      var w := words[|words| - 1];
      assert words == init + [w];
      var before := WordTally(init);
      var c := if w in before then before[w] else 0;
      TallyTotal(init);
      TallyStep(init, w);
      assert WordTally(words) == before[w := c + 1];
      MapSumUpdate(before, w, c + 1);
    }
  }

  // ---------------------------------------------------------------------------------------------
  // Ratings
  // ---------------------------------------------------------------------------------------------

  /**
   * `str.isdigit()` on one character, for the characters this model knows: the ASCII digits and
   * the superscript, subscript and circled digits, which Python also counts as digits.
   */
  predicate PyDigit(c: char)
  {
    || IsDigit(c)
    || c == '\U{00B2}' || c == '\U{00B3}' || c == '\U{00B9}' || c == '\U{2070}'
    || ('\U{2074}' <= c <= '\U{2079}')
    || ('\U{2080}' <= c <= '\U{2089}')
    || ('\U{2460}' <= c <= '\U{2468}')
  }

  /** `s.isdigit()`: non-empty and all digits. */
  function PyIsDigit(s: string): (r: bool)
    ensures r ==> s != ""
    ensures IsDecimal(s) ==> r
  {
    s != "" && forall i :: 0 <= i < |s| ==> PyDigit(s[i])
  }

  /** A decimal numeral: non-empty and all ASCII digits. */
  predicate IsDecimal(s: string)
  {
    s != "" && AllDigits(s)
  }

  /**
   * CPython's default bound on the digits `int()` converts from a string
   * (`sys.int_info.default_max_str_digits`); a longer numeral raises `ValueError`.
   */
  const MaxIntDigits: nat := 4300

  /** A string `int()` reads as a rating: a decimal numeral within the digit bound. */
  predicate IsRating(s: string)
  {
    IsDecimal(s) && |s| <= MaxIntDigits
  }

  /** The values of poll `pollId`'s votes `int()` can read, in ledger order. */
  function RatingView(pollId: nat): Vote -> seq<nat>
  {
    (v: Vote) => if v.pollId == pollId && v.value.Some? && IsRating(v.value.value) then [DigitsValue(v.value.value)] else []
  }

  /**
   * The ratings the results average: a number is among them exactly when some vote of the poll
   * carries a readable numeral of that value.
   */
  function Ratings(votes: seq<Vote>, pollId: nat): (r: seq<nat>)
    ensures forall n :: n in r <==>
              exists i :: 0 <= i < |votes| && votes[i].pollId == pollId && votes[i].value.Some? &&
                          IsRating(votes[i].value.value) && DigitsValue(votes[i].value.value) == n
  {
    var r := FlatMap(votes, RatingView(pollId));
    assert forall n :: n in r <==> exists i :: 0 <= i < |votes| && n in RatingView(pollId)(votes[i]) by {
      forall n ensures n in r <==> exists i :: 0 <= i < |votes| && n in RatingView(pollId)(votes[i]) {
        FlatMapMember(votes, RatingView(pollId), n);
      }
    }
    r
  }

  /**
   * `[int(v.value) for v in poll.votes if v.value and v.value.isdigit()]` as written: `None` stands for
   * the `ValueError` that `int()` raises on a value `isdigit()` let through but that is not decimal,
   * or that has more digits than `int()` converts.
   */
  function RatingsAsWritten(votes: seq<Vote>, pollId: nat): (r: Option<seq<nat>>)
    ensures r.Some? ==> r.value == Ratings(votes, pollId)
  {
    if votes == [] then Some([])
    else
      var v := votes[0];
      if v.pollId != pollId || !TextGiven(v.value) || !PyIsDigit(v.value.value) then RatingsAsWritten(votes[1..], pollId)
      else if !AllDigits(v.value.value) || |v.value.value| > MaxIntDigits then None
      else match RatingsAsWritten(votes[1..], pollId)
           case None => None
           case Some(rest) => Some([DigitsValue(v.value.value)] + rest)
  }

  function Sum(s: seq<nat>): nat
  {
    if s == [] then 0 else s[0] + Sum(s[1..])
  }

  lemma {:induction false} SumPermutation(a: seq<nat>, b: seq<nat>)
    requires multiset(a) == multiset(b)
    ensures Sum(a) == Sum(b)
    decreases |a|
  {
    if a == [] {
      assert |multiset(b)| == 0;
    } else {
      var x := a[0];
      var i := MatchFirst(a, b);
      var rest := b[..i] + b[i + 1..];
      assert b == b[..i] + [x] + b[i + 1..];
      SumPermutation(a[1..], rest);
      SumAppend(b[..i], [x] + b[i + 1..]);
      SumAppend(b[..i], b[i + 1..]);
      assert ([x] + b[i + 1..])[1..] == b[i + 1..];
      assert b[..i] + ([x] + b[i + 1..]) == b;
    }
  }

  lemma {:induction false} SumAppend(a: seq<nat>, b: seq<nat>)
    ensures Sum(a + b) == Sum(a) + Sum(b)
  {
    if a == [] {
      assert a + b == b;
    } else {
      assert (a + b)[1..] == a[1..] + b;
      SumAppend(a[1..], b);
    }
  }

  /** `sum(ratings) / len(ratings) if ratings else 0`. */
  function Average(ratings: seq<nat>): (a: real)
    ensures ratings == [] ==> a == 0.0
    ensures ratings != [] ==> a * (|ratings| as real) == Sum(ratings) as real
  {
    if ratings == [] then 0.0 else (Sum(ratings) as real) / (|ratings| as real)
  }

  /**
   * 2^1024 - 2^970: an exact quotient this large rounds past the largest finite float, and
   * Python's true division of two integers raises `OverflowError` instead of returning it.
   */
  const FloatOverflow: nat := 179769313486231580793728971405303415079934132710037826936173778980444968292764750946649017977587207096330286416692887910946555547851940402630657488671505820681908902000708383676273854845817711531764475730270069855571366959622842914819860834936475292719074168444365510704342711559699508093042880177904174497792

  /**
   * `sum(ratings) / len(ratings) if ratings else 0` as written: `None` stands for the
   * `OverflowError` of a quotient too large for a float. The rounding of a finite quotient is
   * not modelled.
   */
  function AverageAsWritten(ratings: seq<nat>): (r: Option<real>)
    ensures r.None? <==> ratings != [] && Sum(ratings) >= FloatOverflow * |ratings|
    ensures r.Some? ==> r.value == Average(ratings)
  {
    if ratings != [] && Sum(ratings) >= FloatOverflow * |ratings| then None else Some(Average(ratings))
  }

  // ---------------------------------------------------------------------------------------------
  // Results
  // ---------------------------------------------------------------------------------------------

  /** The `results` entry: counts by text or word, a rating summary, or the list of texts. */
  datatype Tally = Counts(counts: map<string, nat>) | RatingSummary(average: real, count: nat) | Texts(texts: seq<string>)

  /** `{'error': 'Poll not found'}` or `{poll_id, question, type, results}`. */
  datatype PollResults = PollNotFound | PollPayload(pollId: nat, question: string, pollType: string, results: Tally)

  /**
   * The `results` entry for poll `p`: a choice poll counts per option text, a word cloud per word,
   * a rating poll averages its ratings, an open-text poll lists its answers, and a kind the server
   * does not know gets an empty dict.
   */
  function TallyOf(p: Poll, options: seq<PollOption>, votes: seq<Vote>): (r: Tally)
    ensures ChoiceKind(p.pollType) ==>
              r == Counts(OptionCounts(OptionsOf(options, p.id), votes, p.id)) &&
              r.counts.Keys == set o | o in OptionsOf(options, p.id) :: o.text
    ensures ParseType(p.pollType) == Some(WordCloud) ==>
              r.Counts? && r.counts.Keys == (set w | w in ValuesOf(votes, p.id)) &&
              forall w :: w in r.counts ==> r.counts[w] == Count(ValuesOf(votes, p.id), w)
    ensures ParseType(p.pollType) == Some(Rating) ==>
              r.RatingSummary? && r.count == |Ratings(votes, p.id)| &&
              r.average * (r.count as real) == Sum(Ratings(votes, p.id)) as real &&
              (r.count == 0 ==> r.average == 0.0)
    ensures ParseType(p.pollType) == Some(OpenText) ==> r == Texts(ValuesOf(votes, p.id))
    ensures ParseType(p.pollType).None? ==> r == Counts(map[])
  {
    match ParseType(p.pollType)
    case Some(MultipleChoice) | Some(Quiz) | Some(Ranking) => Counts(OptionCounts(OptionsOf(options, p.id), votes, p.id))
    case Some(WordCloud) => Counts(WordTally(ValuesOf(votes, p.id)))
    case Some(Rating) => RatingSummary(Average(Ratings(votes, p.id)), |Ratings(votes, p.id)|)
    case Some(OpenText) => Texts(ValuesOf(votes, p.id))
    case None => Counts(map[])
  }

  /** `get_poll_results_dict`, as a function of the three tables. */
  function ResultsOf(polls: seq<Poll>, options: seq<PollOption>, votes: seq<Vote>, pollId: int): (r: PollResults)
    ensures r.PollNotFound? <==> FindPoll(polls, pollId).None?
    ensures r.PollPayload? ==>
              var p := FindPoll(polls, pollId).value;
              r == PollPayload(p.id, p.question, p.pollType, TallyOf(p, options, votes))
  {
    match FindPoll(polls, pollId)
    case None => PollNotFound
    case Some(p) => PollPayload(p.id, p.question, p.pollType, TallyOf(p, options, votes))
  }

  /** `get_poll_results_dict` with its word-cloud loop. */
  method PollResultsDict(polls: seq<Poll>, options: seq<PollOption>, votes: seq<Vote>, pollId: int)
    returns (r: PollResults)
    ensures r == ResultsOf(polls, options, votes, pollId)
  {
    var found := FindPoll(polls, pollId);
    if found.None? {
      return PollNotFound;
    }
    var p := found.value;
    var tally: Tally;
    if ParseType(p.pollType) == Some(WordCloud) {
      var counts := CountWords(ValuesOf(votes, p.id));
      tally := Counts(counts);
    } else {
      tally := TallyOf(p, options, votes);
    }
    r := PollPayload(p.id, p.question, p.pollType, tally);
  }

  // ---------------------------------------------------------------------------------------------
  // What the results say about the ledger
  // ---------------------------------------------------------------------------------------------

  lemma FlatMapSingle<T, U>(v: T, f: T -> seq<U>)
    ensures FlatMap([v], f) == f(v)
  {
    assert [v][1..] == [];
  }

  /** Appending a vote adds one to the count of the option it names and changes no other count. */
  lemma VotesForAppend(votes: seq<Vote>, v: Vote, pollId: nat, optionId: int)
    ensures VotesFor(votes + [v], pollId, optionId)
         == VotesFor(votes, pollId, optionId) + (if v.pollId == pollId && v.optionId == Some(optionId) then 1 else 0)
  {
    FlatMapAppend(votes, [v], ChoiceView(pollId));
    FlatMapSingle(v, ChoiceView(pollId));
    CountAppend(FlatMap(votes, ChoiceView(pollId)), ChoiceView(pollId)(v), optionId);
  }

  /**
   * After an accepted vote on a choice poll, the chosen option's text shows one more vote and
   * every other option's text shows what it showed before.
   */
  lemma ChoiceVoteCounted(polls: seq<Poll>, options: seq<PollOption>, votes: seq<Vote>, pollId: int,
                          payload: VotePayload, userId: Option<int>, voteId: nat, j: int)
    requires VoteDecision(polls, options, pollId, payload, userId, voteId).Success?
    requires FindPoll(polls, pollId).Some? && ChoiceKind(FindPoll(polls, pollId).value.pollType)
    requires 0 <= j < |OptionsOf(options, FindPoll(polls, pollId).value.id)|
    requires LastWithText(OptionsOf(options, FindPoll(polls, pollId).value.id), j)
    ensures var o := OptionsOf(options, FindPoll(polls, pollId).value.id)[j];
            var v := VoteDecision(polls, options, pollId, payload, userId, voteId).value;
            ResultsOf(polls, options, votes + [v], pollId).results.counts[o.text]
            == ResultsOf(polls, options, votes, pollId).results.counts[o.text]
               + (if payload.optionId == Some(o.id) then 1 else 0)
  {
    var p := FindPoll(polls, pollId).value;
    var opts := OptionsOf(options, p.id);
    var v := VoteDecision(polls, options, pollId, payload, userId, voteId).value;
    OptionCountsLast(opts, votes, p.id, j);
    OptionCountsLast(opts, votes + [v], p.id, j);
    VotesForAppend(votes, v, p.id, opts[j].id);
  }

  /** After an accepted vote on a word cloud, its value's count goes up by one and nothing else changes. */
  lemma WordVoteCounted(polls: seq<Poll>, options: seq<PollOption>, votes: seq<Vote>, pollId: int,
                        payload: VotePayload, userId: Option<int>, voteId: nat)
    requires VoteDecision(polls, options, pollId, payload, userId, voteId).Success?
    requires FindPoll(polls, pollId).Some? && FindPoll(polls, pollId).value.pollType == TypeValue(WordCloud)
    ensures var before := ResultsOf(polls, options, votes, pollId).results.counts;
            var v := VoteDecision(polls, options, pollId, payload, userId, voteId).value;
            var w := payload.value.value;
            ResultsOf(polls, options, votes + [v], pollId).results.counts
            == before[w := (if w in before then before[w] else 0) + 1]
  {
    var p := FindPoll(polls, pollId).value;
    var v := VoteDecision(polls, options, pollId, payload, userId, voteId).value;
    var w := payload.value.value;
    var words := ValuesOf(votes, p.id);
    assert ParseType(p.pollType) == Some(WordCloud);
    assert v == Vote(voteId, p.id, None, userId, payload.value);
    ValuesAppend(votes, v, p.id);
    TallyStep(words, w);
    assert ResultsOf(polls, options, votes, pollId).results == Counts(WordTally(words));
    assert ResultsOf(polls, options, votes + [v], pollId).results == Counts(WordTally(words + [w]));
  }

  /** Appending a vote of the poll with a non-empty value appends that value to the collected values. */
  lemma ValuesAppend(votes: seq<Vote>, v: Vote, pollId: nat)
    requires v.pollId == pollId && TextGiven(v.value)
    ensures ValuesOf(votes + [v], pollId) == ValuesOf(votes, pollId) + [v.value.value]
  {
    FlatMapAppend(votes, [v], ValueView(pollId));
    FlatMapSingle(v, ValueView(pollId));
  }

  /** After an accepted vote on a rating poll, the count goes up by one exactly when `int()` can read the value. */
  lemma RatingVoteCounted(polls: seq<Poll>, options: seq<PollOption>, votes: seq<Vote>, pollId: int,
                          payload: VotePayload, userId: Option<int>, voteId: nat)
    requires VoteDecision(polls, options, pollId, payload, userId, voteId).Success?
    requires FindPoll(polls, pollId).Some? && FindPoll(polls, pollId).value.pollType == TypeValue(Rating)
    ensures var v := VoteDecision(polls, options, pollId, payload, userId, voteId).value;
            ResultsOf(polls, options, votes + [v], pollId).results.count
            == ResultsOf(polls, options, votes, pollId).results.count + (if IsRating(payload.value.value) then 1 else 0)
  {
    var p := FindPoll(polls, pollId).value;
    var v := VoteDecision(polls, options, pollId, payload, userId, voteId).value;
    FlatMapAppend(votes, [v], RatingView(p.id));
    FlatMapSingle(v, RatingView(p.id));
  }

  /** After an accepted vote on an open-text poll, its text is appended to the list of answers. */
  lemma OpenTextVoteAppended(polls: seq<Poll>, options: seq<PollOption>, votes: seq<Vote>, pollId: int,
                             payload: VotePayload, userId: Option<int>, voteId: nat)
    requires VoteDecision(polls, options, pollId, payload, userId, voteId).Success?
    requires FindPoll(polls, pollId).Some? && FindPoll(polls, pollId).value.pollType == TypeValue(OpenText)
    ensures var v := VoteDecision(polls, options, pollId, payload, userId, voteId).value;
            ResultsOf(polls, options, votes + [v], pollId).results.texts
            == ResultsOf(polls, options, votes, pollId).results.texts + [payload.value.value]
  {
    var p := FindPoll(polls, pollId).value;
    var v := VoteDecision(polls, options, pollId, payload, userId, voteId).value;
    assert ParseType(p.pollType) == Some(OpenText);
    assert v == Vote(voteId, p.id, None, userId, payload.value);
    FlatMapAppend(votes, [v], ValueView(p.id));
    FlatMapSingle(v, ValueView(p.id));
    assert ResultsOf(polls, options, votes, pollId).results == Texts(ValuesOf(votes, p.id));
    assert ResultsOf(polls, options, votes + [v], pollId).results == Texts(ValuesOf(votes + [v], p.id));
  }

  /** A word cloud's counts add up to the number of its votes with a non-empty value. */
  lemma WordCountsTotal(polls: seq<Poll>, options: seq<PollOption>, votes: seq<Vote>, pollId: int)
    requires FindPoll(polls, pollId).Some? && FindPoll(polls, pollId).value.pollType == TypeValue(WordCloud)
    ensures MapSum(ResultsOf(polls, options, votes, pollId).results.counts)
         == |ValuesOf(votes, FindPoll(polls, pollId).value.id)|
  {
    TallyTotal(ValuesOf(votes, FindPoll(polls, pollId).value.id));
  }

  /** Two orderings of the same words give the same tally. */
  lemma TallyPermutation(a: seq<string>, b: seq<string>)
    requires multiset(a) == multiset(b)
    ensures WordTally(a) == WordTally(b)
  {
    assert forall w :: w in a <==> w in multiset(a);
    assert forall w :: w in b <==> w in multiset(b);
    assert WordTally(a).Keys == WordTally(b).Keys;
    forall w | w in WordTally(a)
      ensures WordTally(a)[w] == WordTally(b)[w]
    {
      CountMultiset(a, w);
      CountMultiset(b, w);
    }
  }

  /**
   * Results do not depend on the order of the ledger, except that an open-text poll lists its
   * answers in ledger order: there the two lists are permutations of each other.
   */
  lemma ResultsIgnoreOrder(polls: seq<Poll>, options: seq<PollOption>, votes: seq<Vote>, votes': seq<Vote>, pollId: int)
    requires multiset(votes) == multiset(votes')
    ensures FindPoll(polls, pollId).Some? && FindPoll(polls, pollId).value.pollType == TypeValue(OpenText) ==>
              multiset(ResultsOf(polls, options, votes, pollId).results.texts)
              == multiset(ResultsOf(polls, options, votes', pollId).results.texts)
    ensures FindPoll(polls, pollId).Some? && FindPoll(polls, pollId).value.pollType != TypeValue(OpenText) ==>
              ResultsOf(polls, options, votes, pollId) == ResultsOf(polls, options, votes', pollId)
  {
    if FindPoll(polls, pollId).Some? {
      var p := FindPoll(polls, pollId).value;
      FlatMapPermutation(votes, votes', ValueView(p.id));
      match ParseType(p.pollType)
      case Some(MultipleChoice) | Some(Quiz) | Some(Ranking) =>
        OptionCountsPermutation(OptionsOf(options, p.id), votes, votes', p.id);
      case Some(WordCloud) =>
        TallyPermutation(ValuesOf(votes, p.id), ValuesOf(votes', p.id));
      case Some(Rating) =>
        FlatMapPermutation(votes, votes', RatingView(p.id));
        SumPermutation(Ratings(votes, p.id), Ratings(votes', p.id));
        assert |Ratings(votes, p.id)| == |multiset(Ratings(votes, p.id))|;
        assert |Ratings(votes', p.id)| == |multiset(Ratings(votes', p.id))|;
      case Some(OpenText) =>
      case None =>
    }
  }

  lemma {:induction false} OptionCountsPermutation(opts: seq<PollOption>, votes: seq<Vote>, votes': seq<Vote>, pollId: nat)
    requires multiset(votes) == multiset(votes')
    ensures OptionCounts(opts, votes, pollId) == OptionCounts(opts, votes', pollId)
    decreases |opts|
  {
    if opts != [] {
      var last := opts[|opts| - 1];
      OptionCountsPermutation(opts[..|opts| - 1], votes, votes', pollId);
      FlatMapPermutation(votes, votes', ChoiceView(pollId));
      CountMultiset(FlatMap(votes, ChoiceView(pollId)), last.id);
      CountMultiset(FlatMap(votes', ChoiceView(pollId)), last.id);
    }
  }

  // ---------------------------------------------------------------------------------------------
  // Ratings as written
  // ---------------------------------------------------------------------------------------------

  /**
   * The ratings comprehension raises exactly when some value of the poll passes `isdigit()` but
   * `int()` cannot read it: it is not decimal, or it is longer than the digit bound.
   */
  lemma {:induction false} RatingsAsWrittenFails(votes: seq<Vote>, pollId: nat)
    ensures RatingsAsWritten(votes, pollId).None? <==>
            exists i :: 0 <= i < |votes| && votes[i].pollId == pollId && TextGiven(votes[i].value)
                        && PyIsDigit(votes[i].value.value) && !IsRating(votes[i].value.value)
  {
    if votes != [] {
      RatingsAsWrittenFails(votes[1..], pollId);
      if exists i :: 0 <= i < |votes| && votes[i].pollId == pollId && TextGiven(votes[i].value)
                     && PyIsDigit(votes[i].value.value) && !IsRating(votes[i].value.value) {
        var i :| 0 <= i < |votes| && votes[i].pollId == pollId && TextGiven(votes[i].value)
                 && PyIsDigit(votes[i].value.value) && !IsRating(votes[i].value.value);
        if i > 0 {
          assert votes[1..][i - 1] == votes[i];
        }
      }
    }
  }

  /**
   * A rating of `²` is accepted by `vote_poll` and stored, after which the ratings comprehension as
   * written raises and no results can be produced for the poll; the corrected view skips the value.
   */
  lemma SuperscriptRatingBreaksResults()
    ensures var polls := [Poll(1, "Rate the talk", TypeValue(Rating), 1, true)];
            var payload := VotePayload(None, Some("\U{00B2}"));
            var v := Vote(1, 1, None, None, Some("\U{00B2}"));
            && VoteDecision(polls, [], 1, payload, None, 1) == Success(v)
            && RatingsAsWritten([v], 1).None?
            && ResultsOf(polls, [], [v], 1).results == RatingSummary(0.0, 0)
  {
    var polls := [Poll(1, "Rate the talk", TypeValue(Rating), 1, true)];
    var v := Vote(1, 1, None, None, Some("\U{00B2}"));
    RatingsAsWrittenFails([v], 1);
    assert !AllDigits(v.value.value) by {
      assert !IsDigit(v.value.value[0]);
    }
    assert FindPoll(polls, 1) == Some(polls[0]);
    FlatMapSingle(v, RatingView(1));
    assert !IsDecimal(v.value.value);
    assert Ratings([v], 1) == [];
  }

  /**
   * A rating of 4301 ones is accepted and stored, after which the ratings comprehension as written
   * raises (`int()` refuses that many digits); the corrected view skips the value.
   */
  lemma LongRatingBreaksResults()
    ensures var polls := [Poll(1, "Rate the talk", TypeValue(Rating), 1, true)];
            var s := seq(MaxIntDigits + 1, i => '1');
            var v := Vote(1, 1, None, None, Some(s));
            && VoteDecision(polls, [], 1, VotePayload(None, Some(s)), None, 1) == Success(v)
            && RatingsAsWritten([v], 1).None?
            && ResultsOf(polls, [], [v], 1).results == RatingSummary(0.0, 0)
  {
    var polls := [Poll(1, "Rate the talk", TypeValue(Rating), 1, true)];
    var s := seq(MaxIntDigits + 1, i => '1');
    var v := Vote(1, 1, None, None, Some(s));
    assert s[0] == '1';
    assert PyIsDigit(s) && !IsRating(s);
    RatingsAsWrittenFails([v], 1);
    assert FindPoll(polls, 1) == Some(polls[0]);
    FlatMapSingle(v, RatingView(1));
    assert Ratings([v], 1) == [];
  }

  /**
   * Once the ratings of a poll add up to an average of at least 2^1024 - 2^970 (a single rating
   * of 309 digits suffices), the average as written raises; the corrected average is exact.
   */
  lemma OverflowingRatingBreaksAverage(s: string)
    requires IsRating(s) && DigitsValue(s) >= FloatOverflow
    ensures var v := Vote(1, 1, None, None, Some(s));
            && RatingsAsWritten([v], 1) == Some([DigitsValue(s)])
            && AverageAsWritten(RatingsAsWritten([v], 1).value).None?
            && Average(Ratings([v], 1)) == DigitsValue(s) as real
  {
    var v := Vote(1, 1, None, None, Some(s));
    assert PyIsDigit(s) by {
      assert forall i :: 0 <= i < |s| ==> IsDigit(s[i]);
    }
    assert RatingsAsWritten([v][1..], 1) == Some([]);
    FlatMapSingle(v, RatingView(1));
    assert Sum([DigitsValue(s)]) == DigitsValue(s);
  }
}
