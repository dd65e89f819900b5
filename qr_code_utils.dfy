/**
 * Event codes and join links (src/utils/qrCodeUtils.ts): building the `?join=` and
 * `?poll=&event=` links that QR codes carry, deciding what a scanned link points to,
 * and generating, validating, formatting and cleaning six-character event codes.
 */
module QrCodeUtils {
  import opened Wrappers

  // ---------------------------------------------------------------------------
  // Characters and strings
  // ---------------------------------------------------------------------------

  /** `toUpperCase` on one character, on the ASCII range. */
  function UpperChar(c: char): char
  {
    if 'a' <= c <= 'z' then (c as int - 32) as char else c
  }

  function Upper(s: string): (r: string)
    ensures |r| == |s|
    ensures forall i :: 0 <= i < |s| ==> r[i] == UpperChar(s[i])
  {
    seq(|s|, i requires 0 <= i < |s| => UpperChar(s[i]))
  }

  predicate IsUpperAlnum(c: char)
  {
    'A' <= c <= 'Z' || '0' <= c <= '9'
  }

  /** The characters that upper-case into the class `[A-Z0-9]`. */
  predicate IsAsciiAlnum(c: char)
  {
    'A' <= c <= 'Z' || 'a' <= c <= 'z' || '0' <= c <= '9'
  }

  /** Index of the first `c` in `s`, or `|s|` when there is none (`indexOf`, with -1 read as `|s|`). */
  function FirstIndex(s: string, c: char): (k: nat)
    ensures k <= |s|
    ensures k < |s| ==> s[k] == c
    ensures forall j :: 0 <= j < k ==> s[j] != c
  {
    if s == [] then 0 else if s[0] == c then 0 else 1 + FirstIndex(s[1..], c)
  }

  /** `s.replace(c, '')` with a one-character pattern: only the first occurrence goes. */
  function RemoveFirst(s: string, c: char): (r: string)
    ensures c !in s ==> r == s
    ensures c in s ==> |r| == |s| - 1 && r[..FirstIndex(s, c)] == s[..FirstIndex(s, c)] && c !in r[..FirstIndex(s, c)]
    ensures c in s ==> r[FirstIndex(s, c)..] == s[FirstIndex(s, c) + 1..]
  {
    var k := FirstIndex(s, c);
    if k == |s| then s else s[..k] + s[k + 1..]
  }

  /** RemoveFirst takes away exactly one `c` when there is one, and nothing else. */
  lemma RemoveFirstCount(s: string, c: char)
    ensures multiset(RemoveFirst(s, c)) == if c in s then multiset(s) - multiset{c} else multiset(s)
  {
    if c in s {
      var k := FirstIndex(s, c);
      assert s == s[..k] + [s[k]] + s[k + 1..];
      assert multiset(s) == multiset(s[..k]) + multiset{c} + multiset(s[k + 1..]);
    }
  }

  // ---------------------------------------------------------------------------
  // Links
  // ---------------------------------------------------------------------------

  /** `baseUrl || window.location.origin`: an absent or empty base falls back to the page origin. */
  function BaseOf(baseUrl: Option<string>, origin: string): (r: string)
    ensures Given(baseUrl) ==> r == baseUrl.value
    ensures !Given(baseUrl) ==> r == origin
  {
    if baseUrl.Some? && baseUrl.value != "" then baseUrl.value else origin
  }

  /** generateEventQRUrl (qrCodeUtils.ts:15-18): the base URL with the query `join=<code>`. */
  function GenerateEventQRUrl(eventCode: string, baseUrl: Option<string>, origin: string): (r: string)
    ensures var base := BaseOf(baseUrl, origin);
            |base| < |r| && r[..|base|] == base && r[|base|] == '?' && r[|base| + 1..] == "join=" + eventCode &&
            (BaseSafe(base) ==> QueryOf(r) == "join=" + eventCode)
  {
    var base := BaseOf(baseUrl, origin);
    var query := "join=" + eventCode;
    assert base + "?join=" + eventCode == base + "?" + query;
    assert BaseSafe(base) ==> QueryOf(base + "?" + query) == query by {
      if BaseSafe(base) {
        QueryOfAfterBase(base, query);
      }
    }
    base + "?join=" + eventCode
  }

  /** generatePollQRUrl (qrCodeUtils.ts:23-26): the base URL with the query `poll=<id>&event=<code>`. */
  function GeneratePollQRUrl(pollId: string, eventCode: string, baseUrl: Option<string>, origin: string): (r: string)
    ensures var base := BaseOf(baseUrl, origin);
            |base| < |r| && r[..|base|] == base && r[|base|] == '?' &&
            r[|base| + 1..] == "poll=" + pollId + "&event=" + eventCode &&
            (BaseSafe(base) ==> QueryOf(r) == "poll=" + pollId + "&event=" + eventCode)
  {
    var base := BaseOf(baseUrl, origin);
    var query := "poll=" + pollId + "&event=" + eventCode;
    assert base + "?poll=" + pollId + "&event=" + eventCode == base + "?" + query;
    assert BaseSafe(base) ==> QueryOf(base + "?" + query) == query by {
      if BaseSafe(base) {
        QueryOfAfterBase(base, query);
      }
    }
    base + "?poll=" + pollId + "&event=" + eventCode
  }

  /** A URL's query parameters, in order, as `URLSearchParams` holds them. */
  type Params = seq<(string, string)>

  /** `params.get(key)`: the value of the first parameter with that name. */
  function Get(params: Params, key: string): (r: Option<string>)
    ensures r.Some? <==> exists i :: 0 <= i < |params| && params[i].0 == key
    ensures r.Some? ==> r.value in ValuesOf(params, key)
    ensures r.Some? ==> exists i :: 0 <= i < |params| && params[i] == (key, r.value) &&
                                    forall j :: 0 <= j < i ==> params[j].0 != key
  {
    if params == [] then None
    else if params[0].0 == key then Some(params[0].1)
    else Get(params[1..], key)
  }

  /** The values of every parameter named `key`. */
  function ValuesOf(params: Params, key: string): set<string>
  {
    set i | 0 <= i < |params| && params[i].0 == key :: params[i].1
  }

  /** A present, non-empty parameter: JavaScript truthiness of the string or `null` that `get` returns. */
  predicate Given(v: Option<string>)
  {
    v.Some? && v.value != ""
  }

  datatype LinkKind = EventLink | PollLink

  /** QRCodeData (qrCodeUtils.ts:5-10). */
  datatype QRCodeData = QRCodeData(kind: LinkKind, eventCode: string, pollId: Option<string>, url: string)

  /**
   * parseQRCodeUrl (qrCodeUtils.ts:31-62). `params` is what `new URL(url).searchParams` yields, or
   * None when the URL constructor throws (the catch then returns null).
   */
  function ParseQRCodeUrl(url: string, params: Option<Params>): (r: Option<QRCodeData>)
    ensures params.None? ==> r.None?
    ensures r.Some? ==> r.value.url == url && r.value.eventCode != ""
    ensures params.Some? && Given(Get(params.value, "join")) ==>
              r == Some(QRCodeData(EventLink, Get(params.value, "join").value, None, url))
    ensures r.Some? && r.value.kind == PollLink <==>
              params.Some? && !Given(Get(params.value, "join")) &&
              Given(Get(params.value, "poll")) && Given(Get(params.value, "event"))
    ensures r.Some? && r.value.kind == PollLink ==>
              r.value.pollId == Get(params.value, "poll") && Some(r.value.eventCode) == Get(params.value, "event")
    ensures r.None? <==>
              params.None? ||
              (!Given(Get(params.value, "join")) &&
               !(Given(Get(params.value, "poll")) && Given(Get(params.value, "event"))))
  {
    match params
    case None => None
    case Some(ps) =>
      var joinCode, pollId, eventCode := Get(ps, "join"), Get(ps, "poll"), Get(ps, "event");
      if Given(joinCode) then Some(QRCodeData(EventLink, joinCode.value, None, url))
      else if Given(pollId) && Given(eventCode) then Some(QRCodeData(PollLink, eventCode.value, pollId, url))
      else None
  }

  // A simplified reading of a URL's query, enough to show that the generated links parse back.
  // Percent-decoding, '+' as space and the '#' fragment are not modelled here.

  /** The text after the first '?' of a URL. */
  function QueryOf(url: string): string
  {
    var k := FirstIndex(url, '?');
    if k == |url| then "" else url[k + 1..]
  }

  /** `s.split(sep)`. */
  function Split(s: string, sep: char): (r: seq<string>)
    ensures |r| >= 1
    decreases |s|
  {
    var k := FirstIndex(s, sep);
    if k == |s| then [s] else [s[..k]] + Split(s[k + 1..], sep)
  }

  /** One `name=value` piece: the name runs to the first '=', a piece without '=' has an empty value. */
  function PairOf(piece: string): (string, string)
  {
    var k := FirstIndex(piece, '=');
    if k == |piece| then (piece, "") else (piece[..k], piece[k + 1..])
  }

  /** The pieces of a query between '&'s, empty pieces skipped, each split into a pair. */
  function PairsOf(pieces: seq<string>): Params
  {
    if pieces == [] then []
    else if pieces[0] == "" then PairsOf(pieces[1..])
    else [PairOf(pieces[0])] + PairsOf(pieces[1..])
  }

  function ParamsOf(url: string): Params
  {
    PairsOf(Split(QueryOf(url), '&'))
  }

  /** A value that the simplified query reading and `URLSearchParams` read the same way, unsplit. */
  predicate QuerySafe(s: string)
  {
    forall i :: 0 <= i < |s| ==> s[i] != '&' && s[i] != '#' && s[i] != '%' && s[i] != '+'
  }

  /** A base URL whose own text ends before any query or fragment. */
  predicate BaseSafe(s: string)
  {
    forall i :: 0 <= i < |s| ==> s[i] != '?' && s[i] != '#'
  }

  lemma FirstIndexAt(s: string, c: char, k: nat)
    requires k <= |s|
    requires k < |s| ==> s[k] == c
    requires forall j :: 0 <= j < k ==> s[j] != c
    ensures FirstIndex(s, c) == k
  {
  }

  lemma QueryOfAfterBase(base: string, rest: string)
    requires BaseSafe(base)
    ensures QueryOf(base + "?" + rest) == rest
  {
    var u := base + "?" + rest;
    FirstIndexAt(u, '?', |base|);
    assert u[|base| + 1..] == rest;
  }

  lemma SplitWithout(s: string, sep: char)
    requires forall i :: 0 <= i < |s| ==> s[i] != sep
    ensures Split(s, sep) == [s]
  {
    FirstIndexAt(s, sep, |s|);
  }

  /** A `name=value` piece whose name has no '=' splits back into that name and value. */
  lemma PairOfNamed(name: string, value: string)
    requires forall i :: 0 <= i < |name| ==> name[i] != '='
    ensures PairOf(name + "=" + value) == (name, value)
  {
    var p := name + "=" + value;
    FirstIndexAt(p, '=', |name|);
    assert p[..|name|] == name;
    assert p[|name| + 1..] == value;
  }

  /** A link made by GenerateEventQRUrl is read by ParseQRCodeUrl as a link to that event. */
  lemma {:induction false} EventLinkRoundTrip(eventCode: string, baseUrl: Option<string>, origin: string)
    requires eventCode != "" && QuerySafe(eventCode)
    requires BaseSafe(BaseOf(baseUrl, origin))
    ensures var url := GenerateEventQRUrl(eventCode, baseUrl, origin);
            ParseQRCodeUrl(url, Some(ParamsOf(url))) == Some(QRCodeData(EventLink, eventCode, None, url))
  {
    var base := BaseOf(baseUrl, origin);
    var url := GenerateEventQRUrl(eventCode, baseUrl, origin);
    var query := "join" + "=" + eventCode;
    assert "?join=" == "?" + "join" + "=";
    assert url == base + "?" + query;
    QueryOfAfterBase(base, query);
    SplitWithout(query, '&');
    PairOfNamed("join", eventCode);
    assert Split(query, '&') == [query];
    assert query != "" && [query][1..] == [];
    assert PairsOf([query]) == [("join", eventCode)];
    assert ParamsOf(url) == [("join", eventCode)];
    assert Get(ParamsOf(url), "join") == Some(eventCode);
  }

  lemma SplitTwo(a: string, b: string, sep: char)
    requires forall i :: 0 <= i < |a| ==> a[i] != sep
    requires forall i :: 0 <= i < |b| ==> b[i] != sep
    ensures Split(a + [sep] + b, sep) == [a, b]
  {
    var s := a + [sep] + b;
    FirstIndexAt(s, sep, |a|);
    assert s[..|a|] == a && s[|a| + 1..] == b;
    SplitWithout(b, sep);
  }

  /** A `name=value` piece with a name free of '=' and '&' and a value free of '&'. */
  lemma NamedPieceSafe(name: string, value: string)
    requires forall i :: 0 <= i < |name| ==> name[i] != '=' && name[i] != '&'
    requires QuerySafe(value)
    ensures var p := name + "=" + value;
            p != "" && (forall i :: 0 <= i < |p| ==> p[i] != '&') && PairOf(p) == (name, value)
  {
    PairOfNamed(name, value);
  }

  lemma PollLinkParams(pollId: string, eventCode: string, base: string)
    requires QuerySafe(pollId) && QuerySafe(eventCode) && BaseSafe(base)
    ensures ParamsOf(base + "?poll=" + pollId + "&event=" + eventCode) == [("poll", pollId), ("event", eventCode)]
  {
    var first, second := "poll" + "=" + pollId, "event" + "=" + eventCode;
    PollUrlShape(pollId, eventCode, base);
    QueryOfAfterBase(base, first + "&" + second);
    PollQueryPairs(pollId, eventCode);
  }

  /** The poll link is the base, `?`, and the two named pieces joined by `&`. */
  lemma PollUrlShape(pollId: string, eventCode: string, base: string)
    ensures base + "?poll=" + pollId + "&event=" + eventCode ==
            base + "?" + (("poll" + "=" + pollId) + "&" + ("event" + "=" + eventCode))
  {
    assert "?poll=" == "?" + "poll" + "=" && "&event=" == "&" + "event" + "=";
  }

  /** The query of a poll link splits into its two pairs. */
  lemma PollQueryPairs(pollId: string, eventCode: string)
    requires QuerySafe(pollId) && QuerySafe(eventCode)
    ensures PairsOf(Split(("poll" + "=" + pollId) + "&" + ("event" + "=" + eventCode), '&')) ==
            [("poll", pollId), ("event", eventCode)]
  {
    var first, second := "poll" + "=" + pollId, "event" + "=" + eventCode;
    NamedPieceSafe("poll", pollId);
    NamedPieceSafe("event", eventCode);
    SplitTwo(first, second, '&');
    var pieces := Split(first + "&" + second, '&');
    assert pieces == [first, second];
    assert [first, second][1..] == [second] && [second][1..] == [];
    assert PairsOf(pieces[1..]) == [("event", eventCode)];
  }

  /** A link made by GeneratePollQRUrl is read by ParseQRCodeUrl as a link to that poll of that event. */
  lemma {:induction false} PollLinkRoundTrip(pollId: string, eventCode: string, baseUrl: Option<string>, origin: string)
    requires pollId != "" && QuerySafe(pollId)
    requires eventCode != "" && QuerySafe(eventCode)
    requires BaseSafe(BaseOf(baseUrl, origin))
    ensures var url := GeneratePollQRUrl(pollId, eventCode, baseUrl, origin);
            ParseQRCodeUrl(url, Some(ParamsOf(url))) == Some(QRCodeData(PollLink, eventCode, Some(pollId), url))
  {
    var url := GeneratePollQRUrl(pollId, eventCode, baseUrl, origin);
    PollLinkParams(pollId, eventCode, BaseOf(baseUrl, origin));
    var params := [("poll", pollId), ("event", eventCode)];
    assert Get(params, "join") == None;
    assert Get(params, "poll") == Some(pollId);
    assert Get(params[1..], "event") == Some(eventCode);
  }

  // ---------------------------------------------------------------------------
  // Event codes
  // ---------------------------------------------------------------------------

  const CodeLength: nat := 6
  const CodeAlphabet: string := "ABCDEFGHIJKLMNOPQRSTUVWXYZ0123456789"

  /** isValidEventCode (qrCodeUtils.ts:79-81): `/^[A-Z0-9]{6}$/` tested on the upper-cased code. */
  function IsValidEventCode(code: string): (r: bool)
    ensures r <==> |code| == CodeLength && forall i :: 0 <= i < |code| ==> IsAsciiAlnum(code[i])
  {
    var u := Upper(code);
    assert forall i :: 0 <= i < |code| ==> (IsUpperAlnum(u[i]) <==> IsAsciiAlnum(code[i]));
    |u| == CodeLength && forall i :: 0 <= i < |u| ==> IsUpperAlnum(u[i])
  }

  /**
   * generateEventCode (qrCodeUtils.ts:67-74). `random` holds the six values `Math.random()` returns,
   * one per round of the loop.
   */
  method GenerateEventCode(random: seq<real>) returns (code: string)
    requires |random| == CodeLength
    requires forall i :: 0 <= i < |random| ==> 0.0 <= random[i] < 1.0
    ensures |code| == CodeLength
    ensures forall i :: 0 <= i < |code| ==> code[i] == CodeChar(random[i])
    ensures IsValidEventCode(code)
  {
    code := "";
    for i := 0 to CodeLength
      invariant |code| == i
      invariant forall j :: 0 <= j < i ==> code[j] == CodeChar(random[j])
      invariant forall j :: 0 <= j < i ==> IsUpperAlnum(code[j])
    {
      code := code + [CodeChar(random[i])];
    }
    UpperAlnumValid(code);
  }

  /** A code of six upper-case letters and digits is a valid event code. */
  lemma UpperAlnumValid(code: string)
    requires |code| == CodeLength && forall i :: 0 <= i < |code| ==> IsUpperAlnum(code[i])
    ensures IsValidEventCode(code)
  {
  }

  /**
   * One round of generateEventCode's loop: the character of the alphabet at
   * `Math.floor(x * 36)`, for the value `x` that `Math.random()` returned.
   */
  function CodeChar(x: real): (c: char)
    requires 0.0 <= x < 1.0
    ensures IsUpperAlnum(c)
  {
    assert |CodeAlphabet| == 36;
    var k := (x * 36.0).Floor;
    AlphabetChar(k);
    CodeAlphabet[k]
  }

  /** CodeChar picks the character of the alphabet at `Math.floor(x * 36)`. */
  lemma CodeCharPicks(x: real)
    requires 0.0 <= x < 1.0
    ensures 0 <= (x * 36.0).Floor < |CodeAlphabet| && CodeChar(x) == CodeAlphabet[(x * 36.0).Floor]
  {
  }

  /** Every character of the alphabet passes the event-code test. */
  lemma AlphabetChar(k: int)
    requires 0 <= k < |CodeAlphabet|
    ensures IsUpperAlnum(CodeAlphabet[k])
  {
  }

  /** formatEventCode (qrCodeUtils.ts:86-88): `#` followed by the upper-cased code. */
  function FormatEventCode(code: string): (r: string)
    ensures |r| == |code| + 1 && r[0] == '#'
    ensures forall i :: 0 <= i < |code| ==> r[i + 1] == UpperChar(code[i])
  {
    "#" + Upper(code)
  }

  /** cleanEventCode (qrCodeUtils.ts:93-95): drops the first '#' only, then upper-cases. */
  function CleanEventCode(code: string): (r: string)
    ensures '#' !in code ==> r == Upper(code)
    ensures '#' in code ==>
              |r| == |code| - 1 &&
              exists k :: 0 <= k < |code| && code[k] == '#' && '#' !in code[..k] &&
                          r == Upper(code[..k] + code[k + 1..])
  {
    var k := FirstIndex(code, '#');
    assert k < |code| ==> code[..k] + code[k + 1..] == RemoveFirst(code, '#');
    assert k < |code| ==> '#' !in code[..k];
    assert k == |code| ==> '#' !in code;
    Upper(RemoveFirst(code, '#'))
  }

  lemma UpperIdempotent(s: string)
    ensures Upper(Upper(s)) == Upper(s)
  {
    assert forall i :: 0 <= i < |s| ==> UpperChar(UpperChar(s[i])) == UpperChar(s[i]);
  }

  /** Cleaning undoes formatting: the displayed `#CODE` cleans back to the upper-cased code. */
  lemma {:induction false} CleanFormatRoundTrip(code: string)
    ensures CleanEventCode(FormatEventCode(code)) == Upper(code)
  {
    var f := FormatEventCode(code);
    FirstIndexAt(f, '#', 0);
    assert RemoveFirst(f, '#') == Upper(code);
    UpperIdempotent(code);
  }

  lemma UpperKeepsValidity(code: string)
    ensures IsValidEventCode(Upper(code)) == IsValidEventCode(code)
  {
    var u := Upper(code);
    assert forall i :: 0 <= i < |u| ==> (IsAsciiAlnum(u[i]) <==> IsAsciiAlnum(code[i]));
  }

  /** A code displays as `#` plus six characters and cleans back to a valid code exactly when it was valid. */
  lemma {:induction false} CleanFormatKeepsValidity(code: string)
    ensures IsValidEventCode(CleanEventCode(FormatEventCode(code))) == IsValidEventCode(code)
  {
    CleanFormatRoundTrip(code);
    UpperKeepsValidity(code);
  }
}
