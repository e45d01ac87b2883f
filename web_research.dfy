/** The evidence pipeline of tools/web_research.py: capped web search,
    numbered citation blocks, the JSON list guard on LLM replies, fallback
    search queries, score cleaning, the stable biased re-rank, and the
    URL-deduplicating collection behind `gather_evidence` and
    `fact_check_claim`.

    The search backend and the LLM are oracles: a search is a
    `BackendReply` chosen per query text, an LLM reply is the JSON value it
    parses to (`None` when the call raised or the text is not JSON; both
    paths take the same fallback), and `int(float(s))` on a reply string is
    the partial function `parse`. */
module WebResearch {
  import opened Common

  // ---------------------------------------------------------------------
  // search_web

  /** One record from the search backend; a missing key is `None`. */
  datatype RawHit = RawHit(title: Option<string>, href: Option<string>, body: Option<string>)

  /** One search result as the pipeline passes it around. */
  datatype Hit = Hit(title: string, url: string, snippet: string)

  /** What the search backend does for one query. */
  datatype BackendReply =
    | NoBackend                   // the search package is not installed
    | Raised                      // the call failed: network or API error
    | Hits(records: seq<RawHit>)  // the records it yields, in order

  /** `{"title": r.get("title", ""), "url": r.get("href", ""), "snippet": r.get("body", "")}` */
  function ToHit(r: RawHit): Hit {
    Hit(r.title.GetOr(""), r.href.GetOr(""), r.body.GetOr(""))
  }

  /** What `search_web(query, maxResults)` returns, without its loop. */
  function SearchResults(query: string, maxResults: int, reply: BackendReply): seq<Hit>
  {
    if query == "" || maxResults <= 0 then []
    else match reply
      case NoBackend => []
      case Raised => []
      case Hits(records) =>
        var n := Min(|records|, maxResults);
        seq(n, k requires 0 <= k < n => ToHit(records[k]))
  }

  method SearchWeb(query: string, maxResults: int, reply: BackendReply) returns (results: seq<Hit>)
    ensures results == SearchResults(query, maxResults, reply)
    ensures query == "" || maxResults <= 0 || !reply.Hits? ==> results == []
    ensures |results| <= Max(maxResults, 0)
    ensures reply.Hits? ==> |results| <= |reply.records|
    ensures reply.Hits? ==> forall k :: 0 <= k < |results| ==> results[k] == ToHit(reply.records[k])
  {
    results := [];
    if query == "" || maxResults <= 0 {
      return;
    }
    match reply {
      case NoBackend =>
      case Raised =>
      case Hits(records) =>
        var i := 0;
        while i < |records|
          invariant 0 <= i <= |records| && i < maxResults
          invariant |results| == i
          invariant forall k :: 0 <= k < i ==> results[k] == ToHit(records[k])
        {
          results := results + [ToHit(records[i])];
          i := i + 1;
          if |results| >= maxResults {
            break;
          }
        }
    }
  }

  // ---------------------------------------------------------------------
  // build_citations

  const SnippetLimit := 220

  /** A snippet of at most 220 characters is kept whole; a longer one keeps
      its first 217 characters and gains "...". */
  function ClipSnippet(s: string): (r: string)
    ensures |r| <= SnippetLimit
    ensures |s| <= SnippetLimit ==> r == s
    ensures |s| > SnippetLimit ==> |r| == SnippetLimit && r[..217] == s[..217] && r[217..] == "..."
  {
    if |s| > SnippetLimit then s[..217] + "..." else s
  }

  /** Line `n` of a citation block: `[n] title — snippet (url)`. */
  function CitationLine(n: nat, h: Hit): string {
    "[" + NatToString(n) + "] " + Strip(h.title) + " \U{2014} " + ClipSnippet(Strip(h.snippet)) + " (" + Strip(h.url) + ")"
  }

  /** One line per result, numbered from 1 in input order. */
  function CitationLines(results: seq<Hit>): (lines: seq<string>)
    ensures |lines| == |results|
    ensures forall k :: 0 <= k < |lines| ==> lines[k] == CitationLine(k + 1, results[k])
  {
    seq(|results|, k requires 0 <= k < |results| => CitationLine(k + 1, results[k]))
  }

  method BuildCitations(results: seq<Hit>) returns (block: string)
    ensures block == JoinLines(CitationLines(results))
    ensures block == "" <==> results == []
  {
    if results == [] {
      return "";
    }
    var lines: seq<string> := [];
    var i := 0;
    ghost var all := CitationLines(results);
    while i < |results|
      invariant 0 <= i <= |results|
      invariant lines == all[..i]
    {
      lines := lines + [CitationLine(i + 1, results[i])];
      i := i + 1;
      assert lines == all[..i];
    }
    assert lines == all;
    block := JoinLines(lines);
    CitationBlockEmptyIff(results);
  }

  /** The citation block is empty exactly when there are no results. */
  lemma CitationBlockEmptyIff(results: seq<Hit>)
    ensures JoinLines(CitationLines(results)) == "" <==> results == []
  {
    if results != [] {
      CitationLineNonEmpty(1, results[0]);
      JoinLinesNonEmpty(CitationLines(results));
    }
  }

  lemma CitationLineNonEmpty(n: nat, h: Hit)
    ensures CitationLine(n, h) != ""
  {
    assert CitationLine(n, h)[0] == '[';
  }

  predicate NoNewline(s: string) { '\n' !in s }

  lemma StripKeepsNoNewline(s: string)
    requires NoNewline(s)
    ensures NoNewline(Strip(s))
  {
    var i := StripIsSlice(s);
  }

  /** Line `n` starts with `[n] `, whatever the fields hold. */
  lemma CitationLinePrefix(n: nat, h: Hit)
    ensures var prefix := "[" + NatToString(n) + "] ";
      |prefix| <= |CitationLine(n, h)| && CitationLine(n, h)[..|prefix|] == prefix
  {
    var prefix := "[" + NatToString(n) + "] ";
    var rest := Strip(h.title) + " \U{2014} " + ClipSnippet(Strip(h.snippet)) + " (" + Strip(h.url) + ")";
    assert CitationLine(n, h) == prefix + rest;
  }

  /** Line `n` starts with `[n] `, and holds a line break only if a field does. */
  lemma CitationLineShape(n: nat, h: Hit)
    requires NoNewline(h.title) && NoNewline(h.url) && NoNewline(h.snippet)
    ensures var prefix := "[" + NatToString(n) + "] ";
      |prefix| <= |CitationLine(n, h)| && CitationLine(n, h)[..|prefix|] == prefix
    ensures NoNewline(CitationLine(n, h))
  {
    var digits := NatToString(n);
    var prefix := "[" + digits + "] ";
    var t, u, sn := Strip(h.title), Strip(h.url), Strip(h.snippet);
    StripKeepsNoNewline(h.title);
    StripKeepsNoNewline(h.url);
    StripKeepsNoNewline(h.snippet);
    var c := ClipSnippet(sn);
    assert NoNewline(c) by {
      if |sn| > SnippetLimit {
        assert c == sn[..217] + "...";
        assert '\n' !in sn[..217];
      }
    }
    assert NoNewline(digits);
    var rest := t + " \U{2014} " + c + " (" + u + ")";
    assert NoNewline(prefix);
    assert NoNewline(rest);
    assert CitationLine(n, h) == prefix + rest;
  }

  /** When no field holds a line break, a non-empty citation block splits
      back into exactly one line per result, line k carrying the number k+1. */
  lemma CitationBlockHasOneLinePerResult(results: seq<Hit>)
    requires results != []
    requires forall k :: 0 <= k < |results| ==> NoNewline(results[k].title) && NoNewline(results[k].url) && NoNewline(results[k].snippet)
    ensures SplitLines(JoinLines(CitationLines(results))) == CitationLines(results)
    ensures forall k :: 0 <= k < |results| ==>
      var prefix := "[" + NatToString(k + 1) + "] ";
      |prefix| <= |CitationLines(results)[k]| && CitationLines(results)[k][..|prefix|] == prefix
  {
    var lines := CitationLines(results);
    forall k | 0 <= k < |lines|
      ensures NoNewline(lines[k])
      ensures var prefix := "[" + NatToString(k + 1) + "] "; |prefix| <= |lines[k]| && lines[k][..|prefix|] == prefix
    {
      CitationLineShape(k + 1, results[k]);
    }
    SplitJoinLines(lines);
  }

  // ---------------------------------------------------------------------
  // _json_list_guard

  /** A parsed JSON value. Numbers carry their integer part only: the guard
      never looks inside them. */
  datatype Json =
    | JNull
    | JBool(b: bool)
    | JNumber(n: int)
    | JString(s: string)
    | JArray(items: seq<Json>)
    | JObject(members: seq<(string, Json)>)

  /** The reply parsed to a JSON list whose every element is a string. */
  predicate IsStringList(reply: Option<Json>) {
    reply.Some? && reply.value.JArray? &&
    forall k :: 0 <= k < |reply.value.items| ==> reply.value.items[k].JString?
  }

  const MaxListItems := 6

  /** `_json_list_guard`: the first six strings of a list-of-strings reply,
      and otherwise the caller's fallback, whatever its element type. */
  function JsonListGuard<T>(reply: Option<Json>, fallback: seq<T>, fromText: string -> T): (r: seq<T>)
    ensures IsStringList(reply) ==> |r| == Min(MaxListItems, |reply.value.items|)
    ensures IsStringList(reply) ==> forall k :: 0 <= k < |r| ==> r[k] == fromText(reply.value.items[k].s)
    ensures !IsStringList(reply) ==> r == fallback
  {
    if IsStringList(reply) then
      var items := reply.value.items;
      var n := Min(MaxListItems, |items|);
      seq(n, k requires 0 <= k < n => fromText(items[k].s))
    else fallback
  }

  // ---------------------------------------------------------------------
  // generate_queries

  /** Any mode other than "support" or "attack" is treated as "support". */
  function NormalizeMode(mode: string): (m: string)
    ensures m == "support" || m == "attack"
    ensures mode == "support" || mode == "attack" ==> m == mode
    ensures mode != "support" && mode != "attack" ==> m == "support"
  {
    if mode == "support" || mode == "attack" then mode else "support"
  }

  /** `opponent_claim or topic` */
  function ClaimOrTopic(opponentClaim: Option<string>, topic: string): string {
    if opponentClaim.Some? && opponentClaim.value != "" then opponentClaim.value else topic
  }

  /** The three fixed queries used when the LLM gives no usable list. */
  function FallbackQueries(topic: string, opponentClaim: Option<string>, mode: string): seq<string> {
    if NormalizeMode(mode) == "support" then
      ["benefits of " + topic,
       topic + " positive outcomes meta-analysis",
       "case studies supporting " + topic]
    else
      var subject := ClaimOrTopic(opponentClaim, topic);
      ["fact check " + subject,
       "criticisms of " + subject,
       subject + " debunked controversy"]
  }

  function Verbatim(s: string): string { s }

  /** `generate_queries`: the LLM's list of strings cut to six, or exactly
      the three templates of the (normalised) mode. */
  function GenerateQueries(topic: string, opponentClaim: Option<string>, mode: string, reply: Option<Json>): (qs: seq<string>)
    ensures IsStringList(reply) ==> |qs| == Min(MaxListItems, |reply.value.items|)
    ensures IsStringList(reply) ==> forall k :: 0 <= k < |qs| ==> qs[k] == reply.value.items[k].s
    ensures !IsStringList(reply) ==> |qs| == 3 && qs == FallbackQueries(topic, opponentClaim, NormalizeMode(mode))
  {
    JsonListGuard(reply, FallbackQueries(topic, opponentClaim, mode), Verbatim)
  }

  /** In attack mode the fallback queries name the opponent's claim when
      there is one, and the topic otherwise. */
  lemma AttackFallbackTargetsClaim(topic: string, opponentClaim: Option<string>)
    ensures var qs := FallbackQueries(topic, opponentClaim, "attack");
      opponentClaim.Some? && opponentClaim.value != "" ==> qs[0] == "fact check " + opponentClaim.value
    ensures var qs := FallbackQueries(topic, opponentClaim, "attack");
      (opponentClaim.None? || opponentClaim.value == "") ==> qs[0] == "fact check " + topic
  {
  }

  // ---------------------------------------------------------------------
  // _score_results_bias

  /** An element of the guarded score list: a reply string, or a fallback 50. */
  datatype ScoreItem = Text(text: string) | Number(value: int)

  const NeutralScore := 50

  /** `max(0, min(100, v))` */
  function ClampPercent(v: int): (r: int)
    ensures 0 <= r <= 100
    ensures 0 <= v <= 100 ==> r == v
    ensures v < 0 ==> r == 0
    ensures v > 100 ==> r == 100
  {
    Max(0, Min(100, v))
  }

  function AsText(s: string): ScoreItem { Text(s) }

  function NeutralItems(n: nat): seq<ScoreItem> {
    seq(n, _ => Number(NeutralScore))
  }

  /** One score after `int(float(s))` (50 when that fails) and clamping. */
  function CleanScore(item: ScoreItem, parse: string -> Option<int>): (r: int)
    ensures 0 <= r <= 100
    ensures item.Number? ==> r == ClampPercent(item.value)
    ensures item.Text? && parse(item.text).None? ==> r == NeutralScore
    ensures item.Text? && parse(item.text).Some? ==> r == ClampPercent(parse(item.text).value)
  {
    match item
    case Number(v) => ClampPercent(v)
    case Text(t) => ClampPercent(parse(t).GetOr(NeutralScore))
  }

  /** The scores `_score_results_bias` returns for `n` results. */
  function Scores(n: nat, reply: Option<Json>, parse: string -> Option<int>): (r: seq<int>)
    ensures |r| == n
    ensures forall k :: 0 <= k < n ==> 0 <= r[k] <= 100
    ensures !IsStringList(reply) ==> forall k :: 0 <= k < n ==> r[k] == NeutralScore
    ensures IsStringList(reply) ==> forall k :: 0 <= k < n && k < Min(MaxListItems, |reply.value.items|) ==>
      r[k] == CleanScore(Text(reply.value.items[k].s), parse)
    ensures IsStringList(reply) ==> forall k :: Min(MaxListItems, |reply.value.items|) <= k < n ==> r[k] == NeutralScore
  {
    var items := JsonListGuard(reply, NeutralItems(n), AsText);
    seq(n, k requires 0 <= k < n => if k < |items| then CleanScore(items[k], parse) else NeutralScore)
  }

  method ScoreResultsBias(results: seq<Hit>, reply: Option<Json>, parse: string -> Option<int>) returns (scores: seq<int>)
    ensures scores == Scores(|results|, reply, parse)
    ensures |scores| == |results|
    ensures forall k :: 0 <= k < |scores| ==> 0 <= scores[k] <= 100
  {
    if results == [] {
      return [];
    }
    var items := JsonListGuard(reply, NeutralItems(|results|), AsText);
    var clean: seq<int> := [];
    var i := 0;
    while i < |items|
      invariant 0 <= i <= |items|
      invariant |clean| == i
      invariant forall k :: 0 <= k < i ==> clean[k] == CleanScore(items[k], parse)
    {
      var v := match items[i]
        case Number(n) => n
        case Text(t) => parse(t).GetOr(NeutralScore);
      v := Max(0, Min(100, v));
      clean := clean + [v];
      i := i + 1;
    }
    while |clean| < |results|
      invariant |clean| >= |items|
      invariant forall k :: 0 <= k < |clean| ==> clean[k] == if k < |items| then CleanScore(items[k], parse) else NeutralScore
    {
      clean := clean + [NeutralScore];
    }
    scores := clean[..|results|];
  }

  /** The quirk of the guard: a reply that is a list of JSON numbers, as the
      prompt asks for, is not a list of strings, so every result scores 50. */
  lemma NumericScoreReplyIsIgnored(n: nat, numbers: seq<int>, parse: string -> Option<int>)
    requires |numbers| > 0
    ensures Scores(n, Some(JArray(seq(|numbers|, k requires 0 <= k < |numbers| => JNumber(numbers[k])))), parse)
         == seq(n, _ => NeutralScore)
  {
    var reply := Some(JArray(seq(|numbers|, k requires 0 <= k < |numbers| => JNumber(numbers[k]))));
    assert !reply.value.items[0].JString?;
  }

  /** Since the guard keeps at most six replies, results after the sixth
      always score 50. */
  lemma ScoresAfterSixthAreNeutral(n: nat, reply: Option<Json>, parse: string -> Option<int>, k: nat)
    requires MaxListItems <= k < n
    ensures Scores(n, reply, parse)[k] == NeutralScore
  {
  }

  /** A usable reply: each of the first six strings that parses to a value in
      0..100 becomes that result's score. */
  lemma AcceptedScoresAreKept(n: nat, reply: Option<Json>, parse: string -> Option<int>, k: nat)
    requires IsStringList(reply) && k < n && k < MaxListItems && k < |reply.value.items|
    requires parse(reply.value.items[k].s).Some? && 0 <= parse(reply.value.items[k].s).value <= 100
    ensures Scores(n, reply, parse)[k] == parse(reply.value.items[k].s).value
  {
  }

  // ---------------------------------------------------------------------
  // _re_rank_by_bias

  /** A result with its score and its position in the input. */
  datatype Ranked<T> = Ranked(item: T, score: int, index: nat)

  /** `zip(results, scores)`, each pair tagged with its position. */
  function Pair<T>(results: seq<T>, scores: seq<int>): (ps: seq<Ranked<T>>)
    ensures |ps| == Min(|results|, |scores|)
    ensures forall k :: 0 <= k < |ps| ==> ps[k] == Ranked(results[k], scores[k], k)
  {
    var n := Min(|results|, |scores|);
    seq(n, k requires 0 <= k < n => Ranked(results[k], scores[k], k))
  }

  /** The order of a stable sort by descending score: higher scores first,
      equal scores in their input order. */
  predicate Before<T>(a: Ranked<T>, b: Ranked<T>) {
    a.score > b.score || (a.score == b.score && a.index <= b.index)
  }

  predicate SortedDesc<T>(s: seq<Ranked<T>>) {
    forall i, j :: 0 <= i < j < |s| ==> Before(s[i], s[j])
  }

  function Insert<T>(x: Ranked<T>, s: seq<Ranked<T>>): (r: seq<Ranked<T>>)
    ensures multiset(r) == multiset(s) + multiset{x}
    ensures SortedDesc(s) ==> SortedDesc(r)
  {
    if s == [] then [x]
    else if Before(x, s[0]) then
      PrependSorted(x, s);
      [x] + s
    else
      var rest := Insert(x, s[1..]);
      assert s == [s[0]] + s[1..];
      InsertBelowHead(x, s, rest);
      [s[0]] + rest
  }

  /** A sorted sequence stays sorted behind an entry that goes before all of it. */
  lemma PrependSorted<T>(h: Ranked<T>, s: seq<Ranked<T>>)
    ensures SortedDesc(s) && (forall k :: 0 <= k < |s| ==> Before(h, s[k])) ==> SortedDesc([h] + s)
  {
    if SortedDesc(s) && (forall k :: 0 <= k < |s| ==> Before(h, s[k])) {
      var r := [h] + s;
      forall i, j | 0 <= i < j < |r| ensures Before(r[i], r[j]) {
        assert r[j] == s[j - 1];
        if i > 0 {
          assert r[i] == s[i - 1];
        }
      }
    }
  }

  lemma TailSorted<T>(s: seq<Ranked<T>>)
    requires s != [] && SortedDesc(s)
    ensures SortedDesc(s[1..])
  {
    forall i, j | 0 <= i < j < |s[1..]| ensures Before(s[1..][i], s[1..][j]) {
      assert s[1..][i] == s[i + 1] && s[1..][j] == s[j + 1];
    }
  }

  /** Every entry of a sorted sequence's tail comes after its head. */
  lemma HeadBeforeTail<T>(s: seq<Ranked<T>>, y: Ranked<T>)
    requires s != [] && SortedDesc(s) && y in s[1..]
    ensures Before(s[0], y)
  {
    var m :| 0 <= m < |s[1..]| && s[1..][m] == y;
    assert s[m + 1] == y;
  }

  /** The recursive case of `Insert`: `x` goes below the head, so the head
      still comes first. */
  lemma InsertBelowHead<T>(x: Ranked<T>, s: seq<Ranked<T>>, rest: seq<Ranked<T>>)
    requires s != [] && !Before(x, s[0])
    requires multiset(rest) == multiset(s[1..]) + multiset{x}
    requires SortedDesc(s[1..]) ==> SortedDesc(rest)
    ensures SortedDesc(s) ==> SortedDesc([s[0]] + rest)
  {
    if SortedDesc(s) {
      TailSorted(s);
      forall k | 0 <= k < |rest| ensures Before(s[0], rest[k]) {
        assert rest[k] in multiset(rest);
        if rest[k] != x {
          assert rest[k] in multiset(s[1..]);
          HeadBeforeTail(s, rest[k]);
        }
      }
      PrependSorted(s[0], rest);
    }
  }

  /** `paired.sort(key=lambda x: x[1], reverse=True)`, which is stable. */
  function SortByScore<T>(s: seq<Ranked<T>>): (r: seq<Ranked<T>>)
    ensures multiset(r) == multiset(s)
    ensures SortedDesc(r)
  {
    if s == [] then []
    else
      assert s == [s[0]] + s[1..];
      Insert(s[0], SortByScore(s[1..]))
  }

  /** `[r for (r, s) in paired if s >= threshold]`, keeping the ranked tags. */
  function AtLeast<T>(s: seq<Ranked<T>>, threshold: int): (r: seq<Ranked<T>>)
    ensures |r| <= |s|
    ensures forall k :: 0 <= k < |r| ==> r[k] in s && r[k].score >= threshold
    ensures forall k :: 0 <= k < |s| && s[k].score >= threshold ==> s[k] in r
    ensures forall k :: 0 <= k < |s| ==> multiset(r)[s[k]] == if s[k].score >= threshold then multiset(s)[s[k]] else 0
    ensures SortedDesc(s) ==> SortedDesc(r)
  {
    if s == [] then []
    else
      var rest := AtLeast(s[1..], threshold);
      AtLeastStep(s, threshold, rest);
      var r := if s[0].score >= threshold then [s[0]] + rest else rest;
      AtLeastKeepStep(s, threshold, rest, r);
      AtLeastCountStep(s, threshold, rest, r);
      r
  }

  /** The recursive case of `AtLeast`: it keeps passing entries only, and
      every passing entry. */
  lemma AtLeastKeepStep<T>(s: seq<Ranked<T>>, threshold: int, rest: seq<Ranked<T>>, r: seq<Ranked<T>>)
    requires s != []
    requires forall k :: 0 <= k < |rest| ==> rest[k] in s[1..] && rest[k].score >= threshold
    requires |rest| <= |s[1..]|
    requires forall k :: 0 <= k < |s[1..]| && s[1..][k].score >= threshold ==> s[1..][k] in rest
    requires r == if s[0].score >= threshold then [s[0]] + rest else rest
    ensures |r| <= |s|
    ensures forall k :: 0 <= k < |r| ==> r[k] in s && r[k].score >= threshold
    ensures forall k :: 0 <= k < |s| && s[k].score >= threshold ==> s[k] in r
  {
    assert s == [s[0]] + s[1..];
    forall k | 0 <= k < |s| && s[k].score >= threshold ensures s[k] in r {
      if k > 0 { assert s[k] == s[1..][k - 1]; }
    }
  }

  /** The recursive case of `AtLeast`: each entry is kept as often as the
      input has it when it passes, and never otherwise. */
  lemma AtLeastCountStep<T>(s: seq<Ranked<T>>, threshold: int, rest: seq<Ranked<T>>, r: seq<Ranked<T>>)
    requires s != []
    requires forall k :: 0 <= k < |rest| ==> rest[k] in s[1..]
    requires forall k :: 0 <= k < |s[1..]| ==>
      multiset(rest)[s[1..][k]] == if s[1..][k].score >= threshold then multiset(s[1..])[s[1..][k]] else 0
    requires r == if s[0].score >= threshold then [s[0]] + rest else rest
    ensures forall k :: 0 <= k < |s| ==> multiset(r)[s[k]] == if s[k].score >= threshold then multiset(s)[s[k]] else 0
  {
    var tail := s[1..];
    forall k | 0 <= k < |s|
      ensures multiset(r)[s[k]] == if s[k].score >= threshold then multiset(s)[s[k]] else 0
    {
      if s[k] in tail {
        var m :| 0 <= m < |tail| && tail[m] == s[k];
      }
      AtLeastCountOne(s, threshold, rest, r, s[k]);
    }
  }

  /** The count of one entry `x` in the recursive case of `AtLeast`. */
  lemma AtLeastCountOne<T>(s: seq<Ranked<T>>, threshold: int, rest: seq<Ranked<T>>, r: seq<Ranked<T>>, x: Ranked<T>)
    requires s != []
    requires forall k :: 0 <= k < |rest| ==> rest[k] in s[1..]
    requires x in s[1..] ==> multiset(rest)[x] == if x.score >= threshold then multiset(s[1..])[x] else 0
    requires r == if s[0].score >= threshold then [s[0]] + rest else rest
    ensures multiset(r)[x] == if x.score >= threshold then multiset(s)[x] else 0
  {
    assert multiset(s) == multiset{s[0]} + multiset(s[1..]) by { assert s == [s[0]] + s[1..]; }
    if x !in s[1..] {
      assert x !in rest;
    }
  }

  /** The recursive case of `AtLeast`: what the tail keeps stays sorted
      behind the head. */
  lemma AtLeastStep<T>(s: seq<Ranked<T>>, threshold: int, rest: seq<Ranked<T>>)
    requires s != []
    requires forall k :: 0 <= k < |rest| ==> rest[k] in s[1..]
    requires SortedDesc(s[1..]) ==> SortedDesc(rest)
    ensures SortedDesc(s) ==> SortedDesc(rest) && SortedDesc([s[0]] + rest)
  {
    if SortedDesc(s) {
      TailSorted(s);
      forall k | 0 <= k < |rest| ensures Before(s[0], rest[k]) {
        HeadBeforeTail(s, rest[k]);
      }
      PrependSorted(s[0], rest);
    }
  }

  /** The ranked entries `_re_rank_by_bias` keeps: those at or above the
      threshold, or all of them when none is. */
  function Selected<T>(results: seq<T>, scores: seq<int>, threshold: int): seq<Ranked<T>> {
    var sorted := SortByScore(Pair(results, scores));
    var passing := AtLeast(sorted, threshold);
    if passing == [] then sorted else passing
  }

  function Items<T>(s: seq<Ranked<T>>): (r: seq<T>)
    ensures |r| == |s| && forall k :: 0 <= k < |s| ==> r[k] == s[k].item
  {
    seq(|s|, k requires 0 <= k < |s| => s[k].item)
  }

  /** `_re_rank_by_bias` given the scores. */
  function ReRank<T>(results: seq<T>, scores: seq<int>, threshold: int): seq<T> {
    Items(Selected(results, scores, threshold))
  }

  /** Sorting keeps every entry: it has as many entries as its input. */
  lemma SortKeepsLength<T>(s: seq<Ranked<T>>)
    ensures |SortByScore(s)| == |s|
  {
    assert |multiset(SortByScore(s))| == |multiset(s)|;
  }

  /** The re-rank is in non-increasing score order with ties in input
      order, and it is never longer than its input. */
  lemma ReRankOrdered<T>(results: seq<T>, scores: seq<int>, threshold: int)
    ensures SortedDesc(Selected(results, scores, threshold))
    ensures |Selected(results, scores, threshold)| <= |Pair(results, scores)|
  {
    SortKeepsLength(Pair(results, scores));
  }

  /** When some result scores at least the threshold, the re-rank keeps
      exactly those results, each as often as the input has it. */
  lemma ReRankKeepsPassing<T>(results: seq<T>, scores: seq<int>, threshold: int, j: nat)
    requires j < Min(|results|, |scores|) && scores[j] >= threshold
    ensures var sel := Selected(results, scores, threshold);
      forall x :: multiset(sel)[x] == if x.score >= threshold then multiset(Pair(results, scores))[x] else 0
  {
    var ps := Pair(results, scores);
    var sorted := SortByScore(ps);
    var passing := AtLeast(sorted, threshold);
    assert multiset(passing)[ps[j]] == multiset(ps)[ps[j]] > 0;
    assert passing != [];
  }

  /** When no result reaches the threshold, the re-rank falls back to all
      results in sorted order. */
  lemma ReRankFallsBackToAll<T>(results: seq<T>, scores: seq<int>, threshold: int)
    requires forall k :: 0 <= k < Min(|results|, |scores|) ==> scores[k] < threshold
    ensures Selected(results, scores, threshold) == SortByScore(Pair(results, scores))
  {
    var ps := Pair(results, scores);
    var sorted := SortByScore(ps);
    forall k | 0 <= k < |sorted| ensures sorted[k].score < threshold {
      assert sorted[k] in multiset(ps);
    }
    AtLeastNonePass(sorted, threshold);
  }

  lemma {:induction false} AtLeastNonePass<T>(s: seq<Ranked<T>>, threshold: int)
    requires forall k :: 0 <= k < |s| ==> s[k].score < threshold
    ensures AtLeast(s, threshold) == []
  {
    if s != [] {
      AtLeastNonePass(s[1..], threshold);
    }
  }

  /** The re-rank is empty exactly when there is nothing to rank. */
  lemma ReRankEmptyIff<T>(results: seq<T>, scores: seq<int>, threshold: int)
    ensures |ReRank(results, scores, threshold)| > 0 <==> Min(|results|, |scores|) > 0
  {
    SortKeepsLength(Pair(results, scores));
  }

  lemma {:induction false} AtLeastAllPass<T>(s: seq<Ranked<T>>, threshold: int)
    requires forall x :: x in s ==> x.score >= threshold
    ensures AtLeast(s, threshold) == s
  {
    if s != [] {
      assert s == [s[0]] + s[1..];
      AtLeastAllPass(s[1..], threshold);
    }
  }

  /** A threshold of 0 drops nothing: with scores in 0..100 the re-rank is
      the stable descending sort of all results. */
  lemma ZeroThresholdKeepsAll<T>(results: seq<T>, scores: seq<int>)
    requires forall k :: 0 <= k < |scores| ==> scores[k] >= 0
    ensures Selected(results, scores, 0) == SortByScore(Pair(results, scores))
    ensures |ReRank(results, scores, 0)| == Min(|results|, |scores|)
  {
    var ps := Pair(results, scores);
    var sorted := SortByScore(ps);
    forall x | x in sorted ensures x.score >= 0 {
      assert x in multiset(ps);
    }
    AtLeastAllPass(sorted, 0);
    assert |multiset(sorted)| == |multiset(ps)|;
  }

  /** `r` can be obtained from `s` by deleting entries. */
  predicate Subsequence<T(==)>(r: seq<T>, s: seq<T>)
    decreases |s|
  {
    if r == [] then true
    else if s == [] then false
    else if r[0] == s[0] then Subsequence(r[1..], s[1..])
    else Subsequence(r, s[1..])
  }

  /** The filter keeps its input's order: what it keeps is a subsequence
      of the input. With the counts `AtLeast` states, this pins the result
      down to exactly the passing entries in input order. */
  lemma {:induction false} AtLeastKeepsOrder<T>(s: seq<Ranked<T>>, threshold: int)
    ensures Subsequence(AtLeast(s, threshold), s)
  {
    if s != [] {
      var rest := AtLeast(s[1..], threshold);
      AtLeastKeepsOrder(s[1..], threshold);
      var r := AtLeast(s, threshold);
      if s[0].score >= threshold {
        assert r == [s[0]] + rest;
        assert r[1..] == rest;
      } else {
        assert r == rest;
        if rest != [] {
          assert rest[0] != s[0] by { assert rest[0].score >= threshold; }
        }
      }
    }
  }

  /** A sequence without repeated entries holds each value at most once. */
  lemma {:induction false} DistinctCountsOne<T>(s: seq<T>)
    requires forall i, j :: 0 <= i < j < |s| ==> s[i] != s[j]
    ensures forall x :: multiset(s)[x] <= 1
  {
    if s != [] {
      DistinctCountsOne(s[1..]);
      assert s == [s[0]] + s[1..];
      assert s[0] !in s[1..];
    }
  }

  /** A sequence that holds each value at most once repeats no entry. */
  lemma CountsOneDistinct<T>(s: seq<T>)
    requires forall x :: multiset(s)[x] <= 1
    ensures forall i, j :: 0 <= i < j < |s| ==> s[i] != s[j]
  {
    forall i, j | 0 <= i < j < |s| ensures s[i] != s[j] {
      assert s == s[..j] + s[j..];
      assert multiset(s) == multiset(s[..j]) + multiset(s[j..]);
      assert s[..j][i] == s[i] && s[j..][0] == s[j];
      assert multiset(s[..j])[s[i]] >= 1 && multiset(s[j..])[s[j]] >= 1;
      assert multiset(s)[s[i]] == multiset(s[..j])[s[i]] + multiset(s[j..])[s[i]];
      assert multiset(s)[s[i]] <= 1;
    }
  }

  /** The filter never holds an entry more often than its input. */
  lemma AtLeastWithin<T>(s: seq<Ranked<T>>, threshold: int)
    ensures forall x :: multiset(AtLeast(s, threshold))[x] <= multiset(s)[x]
  {
    var r := AtLeast(s, threshold);
    forall x ensures multiset(r)[x] <= multiset(s)[x] {
      if x in s {
        var k :| 0 <= k < |s| && s[k] == x;
      } else {
        assert x !in r;
      }
    }
  }

  /** The re-rank never holds a paired entry more often than `Pair` does. */
  lemma SelectedWithinPair<T>(results: seq<T>, scores: seq<int>, threshold: int)
    ensures forall x :: multiset(Selected(results, scores, threshold))[x] <= multiset(Pair(results, scores))[x]
  {
    AtLeastWithin(SortByScore(Pair(results, scores)), threshold);
  }

  /** Entries drawn, each at most as often as it occurs, from a sequence
      without repeats are entries of it and repeat nothing. */
  lemma DrawnFromDistinct<T>(ps: seq<T>, sel: seq<T>)
    requires forall i, j :: 0 <= i < j < |ps| ==> ps[i] != ps[j]
    requires forall x :: multiset(sel)[x] <= multiset(ps)[x]
    ensures forall i :: 0 <= i < |sel| ==> sel[i] in ps
    ensures forall i, j :: 0 <= i < j < |sel| ==> sel[i] != sel[j]
  {
    DistinctCountsOne(ps);
    CountsOneDistinct(sel);
    forall i | 0 <= i < |sel| ensures sel[i] in ps {
      assert multiset(sel)[sel[i]] > 0;
    }
  }

  /** The re-rank draws each paired result at most once: its entries are
      distinct entries of `Pair`, so no position of the input is used twice. */
  lemma SelectedDrawsEachOnce<T>(results: seq<T>, scores: seq<int>, threshold: int)
    ensures var sel := Selected(results, scores, threshold);
      && (forall i :: 0 <= i < |sel| ==> sel[i].index < Min(|results|, |scores|) && sel[i].item == results[sel[i].index])
      && (forall i, j :: 0 <= i < j < |sel| ==> sel[i].index != sel[j].index)
  {
    var ps := Pair(results, scores);
    var sel := Selected(results, scores, threshold);
    SelectedWithinPair(results, scores, threshold);
    DrawnFromDistinct(ps, sel);
    forall i | 0 <= i < |sel| ensures sel[i] == ps[sel[i].index] {
      var m :| 0 <= m < |ps| && ps[m] == sel[i];
    }
  }

  // ---------------------------------------------------------------------
  // The collection loops of gather_evidence and fact_check_claim

  /** The collection state: the kept results, the URLs seen, the queries
      already sent to the backend. */
  datatype Harvest = Harvest(items: seq<Hit>, seen: set<string>, searched: seq<string>)

  const EmptyHarvest := Harvest([], {}, [])

  /** Each query asks the backend for at most four results. */
  const PerQueryResults := 4

  /** The deduplication key: the stripped URL. */
  function UrlKey(h: Hit): string { Strip(h.url) }

  /** No result without a URL, no URL twice. */
  predicate UniqueUrls(items: seq<Hit>) {
    && (forall k :: 0 <= k < |items| ==> UrlKey(items[k]) != "")
    && (forall i, j :: 0 <= i < j < |items| ==> UrlKey(items[i]) != UrlKey(items[j]))
  }

  predicate Deduplicated(h: Harvest) {
    UniqueUrls(h.items) && forall k :: 0 <= k < |h.items| ==> UrlKey(h.items[k]) in h.seen
  }

  /** The inner loop over one query's results: skip a result whose URL is
      empty or seen, keep the others, stop as soon as `cap` are kept. */
  function Scan(hits: seq<Hit>, cap: int, h: Harvest): Harvest
    decreases |hits|
  {
    if hits == [] then h
    else
      var url := UrlKey(hits[0]);
      if url == "" || url in h.seen then Scan(hits[1..], cap, h)
      else
        var next := Harvest(h.items + [hits[0]], h.seen + {url}, h.searched);
        if |next.items| >= cap then next else Scan(hits[1..], cap, next)
  }

  /** The outer loop: search each query in turn, stop once `cap` are kept. */
  function Collect(queries: seq<string>, backend: string -> BackendReply, cap: int, h: Harvest): Harvest
    decreases |queries|
  {
    if queries == [] then h
    else
      var q := queries[0];
      var after := Scan(SearchResults(q, PerQueryResults, backend(q)), cap, h.(searched := h.searched + [q]));
      if |after.items| >= cap then after else Collect(queries[1..], backend, cap, after)
  }

  lemma {:induction false} ScanKeepsUnique(hits: seq<Hit>, cap: int, h: Harvest)
    requires Deduplicated(h)
    ensures var r := Scan(hits, cap, h);
      Deduplicated(r) && h.items <= r.items && r.searched == h.searched
    ensures |h.items| < Max(cap, 1) ==> |Scan(hits, cap, h).items| <= Max(cap, 1)
    decreases |hits|
  {
    if hits != [] {
      var url := UrlKey(hits[0]);
      if url == "" || url in h.seen {
        ScanKeepsUnique(hits[1..], cap, h);
      } else {
        var next := Harvest(h.items + [hits[0]], h.seen + {url}, h.searched);
        assert Deduplicated(next) by {
          forall i, j | 0 <= i < j < |next.items| ensures UrlKey(next.items[i]) != UrlKey(next.items[j]) {
            if j == |h.items| {
              assert UrlKey(next.items[i]) in h.seen;
            }
          }
        }
        if |next.items| < cap {
          ScanKeepsUnique(hits[1..], cap, next);
        }
      }
    }
  }

  /** Collection keeps results unique by URL, only appends, sends a prefix of
      the queries, and keeps at most `cap` results (at most one when `cap`
      is not positive). */
  lemma {:induction false} CollectKeepsUnique(queries: seq<string>, backend: string -> BackendReply, cap: int, h: Harvest)
    requires Deduplicated(h) && |h.items| < Max(cap, 1)
    ensures var r := Collect(queries, backend, cap, h);
      Deduplicated(r) && h.items <= r.items && |r.items| <= Max(cap, 1)
    ensures var r := Collect(queries, backend, cap, h);
      h.searched <= r.searched && r.searched[|h.searched|..] <= queries
    decreases |queries|
  {
    if queries != [] {
      var q := queries[0];
      var h1 := h.(searched := h.searched + [q]);
      var hits := SearchResults(q, PerQueryResults, backend(q));
      ScanKeepsUnique(hits, cap, h1);
      var after := Scan(hits, cap, h1);
      if |after.items| < cap {
        CollectKeepsUnique(queries[1..], backend, cap, after);
        var r := Collect(queries[1..], backend, cap, after);
        assert r.searched[|h.searched|..] == [q] + r.searched[|after.searched|..];
        assert queries == [q] + queries[1..];
      }
    }
  }

  /** A backend that finds nothing for any query leaves nothing collected. */
  lemma {:induction false} CollectFromEmptyBackend(queries: seq<string>, backend: string -> BackendReply, cap: int, h: Harvest)
    requires forall q :: SearchResults(q, PerQueryResults, backend(q)) == []
    ensures Collect(queries, backend, cap, h).items == h.items
    decreases |queries|
  {
    if queries != [] {
      var q := queries[0];
      assert Scan([], cap, h.(searched := h.searched + [q])).items == h.items;
      CollectFromEmptyBackend(queries[1..], backend, cap, h.(searched := h.searched + [q]));
    }
  }

  /** The URL keys of the kept results. */
  function Keys(items: seq<Hit>): set<string>
  {
    if items == [] then {} else Keys(items[..|items| - 1]) + {UrlKey(items[|items| - 1])}
  }

  lemma KeysAppend(items: seq<Hit>, x: Hit)
    ensures Keys(items + [x]) == Keys(items) + {UrlKey(x)}
  {
    assert (items + [x])[..|items|] == items;
  }

  /** The results the backend gives for the queries, query after query. */
  function Found(queries: seq<string>, backend: string -> BackendReply): seq<Hit>
  {
    if queries == [] then [] else SearchResults(queries[0], PerQueryResults, backend(queries[0])) + Found(queries[1..], backend)
  }

  /** One query's scan keeps only hits of that query, and, unless it stopped
      at the cap, the URL of every hit that has one is among the kept
      results. */
  lemma {:induction false} ScanFinds(hits: seq<Hit>, cap: int, h: Harvest)
    requires h.seen == Keys(h.items)
    ensures var r := Scan(hits, cap, h);
      r.seen == Keys(r.items) && h.seen <= r.seen && h.items <= r.items
    ensures var r := Scan(hits, cap, h);
      forall k :: |h.items| <= k < |r.items| ==> r.items[k] in hits
    ensures var r := Scan(hits, cap, h);
      |r.items| < cap ==> forall x :: x in hits && UrlKey(x) != "" ==> UrlKey(x) in Keys(r.items)
    decreases |hits|
  {
    if hits != [] {
      var url := UrlKey(hits[0]);
      var r := Scan(hits, cap, h);
      if url == "" || url in h.seen {
        ScanFinds(hits[1..], cap, h);
        assert forall x :: x in hits ==> x == hits[0] || x in hits[1..];
      } else {
        var next := Harvest(h.items + [hits[0]], h.seen + {url}, h.searched);
        KeysAppend(h.items, hits[0]);
        if |next.items| < cap {
          ScanFinds(hits[1..], cap, next);
          assert forall x :: x in hits ==> x == hits[0] || x in hits[1..];
          forall k | |h.items| <= k < |r.items| ensures r.items[k] in hits {
            if k == |h.items| {
              assert r.items[k] == next.items[k];
            }
          }
        }
      }
    }
  }

  /** Collection keeps only hits of the queries, and, unless it stopped at
      the cap, the URL of every hit of every query that has one is among
      the kept results: together with `CollectKeepsUnique`, each such URL
      is kept exactly once. */
  lemma {:induction false} CollectFinds(queries: seq<string>, backend: string -> BackendReply, cap: int, h: Harvest)
    requires h.seen == Keys(h.items)
    ensures var r := Collect(queries, backend, cap, h);
      r.seen == Keys(r.items) && h.seen <= r.seen && h.items <= r.items
    ensures var r := Collect(queries, backend, cap, h);
      forall k :: |h.items| <= k < |r.items| ==> r.items[k] in Found(queries, backend)
    ensures var r := Collect(queries, backend, cap, h);
      |r.items| < cap ==> forall x :: x in Found(queries, backend) && UrlKey(x) != "" ==> UrlKey(x) in Keys(r.items)
    decreases |queries|
  {
    if queries != [] {
      var q := queries[0];
      var hits := SearchResults(q, PerQueryResults, backend(q));
      var h1 := h.(searched := h.searched + [q]);
      ScanFinds(hits, cap, h1);
      var after := Scan(hits, cap, h1);
      var r := Collect(queries, backend, cap, h);
      assert Found(queries, backend) == hits + Found(queries[1..], backend);
      if |after.items| < cap {
        CollectFinds(queries[1..], backend, cap, after);
        assert r == Collect(queries[1..], backend, cap, after);
        forall k | |h.items| <= k < |r.items| ensures r.items[k] in Found(queries, backend) {
          if k < |after.items| {
            assert r.items[k] == after.items[k];
          }
        }
      }
    }
  }

  /** The collection loop shared, in two copies, by `gather_evidence` and
      `fact_check_claim`. */
  method CollectUnique(queries: seq<string>, backend: string -> BackendReply, cap: int)
    returns (merged: seq<Hit>, searched: seq<string>)
    ensures merged == Collect(queries, backend, cap, EmptyHarvest).items
    ensures searched == Collect(queries, backend, cap, EmptyHarvest).searched
    ensures UniqueUrls(merged)
    ensures |merged| <= Max(cap, 1)
    ensures searched <= queries
    ensures forall k :: 0 <= k < |merged| ==> merged[k] in Found(queries, backend)
    ensures |merged| < cap ==> forall x :: x in Found(queries, backend) && UrlKey(x) != "" ==> UrlKey(x) in Keys(merged)
  {
    merged, searched := [], [];
    var seen: set<string> := {};
    var i := 0;
    while i < |queries|
      invariant 0 <= i <= |queries|
      invariant Collect(queries, backend, cap, EmptyHarvest) == Collect(queries[i..], backend, cap, Harvest(merged, seen, searched))
    {
      var q := queries[i];
      var hits := SearchWeb(q, PerQueryResults, backend(q));
      searched := searched + [q];
      ghost var start := Harvest(merged, seen, searched);
      ghost var done := false;
      var j := 0;
      while j < |hits|
        invariant 0 <= j <= |hits|
        invariant Scan(hits, cap, start) == Scan(hits[j..], cap, Harvest(merged, seen, searched))
        invariant searched == start.searched
      {
        var url := Strip(hits[j].url);
        assert hits[j..][0] == hits[j] && hits[j..][1..] == hits[j + 1..];
        if url == "" || url in seen {
          j := j + 1;
          continue;
        }
        seen := seen + {url};
        merged := merged + [hits[j]];
        if |merged| >= cap {
          break;
        }
        j := j + 1;
      }
      assert Harvest(merged, seen, searched) == Scan(hits, cap, start);
      if |merged| >= cap {
        break;
      }
      i := i + 1;
    }
    CollectFromScratch(queries, backend, cap);
  }

  /** What a collection started from nothing keeps. */
  lemma CollectFromScratch(queries: seq<string>, backend: string -> BackendReply, cap: int)
    ensures var r := Collect(queries, backend, cap, EmptyHarvest);
      && UniqueUrls(r.items) && |r.items| <= Max(cap, 1) && r.searched <= queries
      && (forall k :: 0 <= k < |r.items| ==> r.items[k] in Found(queries, backend))
      && (|r.items| < cap ==> forall x :: x in Found(queries, backend) && UrlKey(x) != "" ==> UrlKey(x) in Keys(r.items))
  {
    CollectKeepsUnique(queries, backend, cap, EmptyHarvest);
    CollectFinds(queries, backend, cap, EmptyHarvest);
  }

  // ---------------------------------------------------------------------
  // gather_evidence

  /** Re-ranking URL-unique results and citing a prefix keeps them
      URL-unique, and cites only results that were collected. */
  lemma ReRankKeepsUnique(results: seq<Hit>, scores: seq<int>, threshold: int, n: int)
    requires UniqueUrls(results)
    ensures var cited := Take(ReRank(results, scores, threshold), n);
      UniqueUrls(cited) && forall k :: 0 <= k < |cited| ==> cited[k] in results
  {
    var pos := ReRankPositions(results, scores, threshold);
    DrawnOnceKeepsUnique(results, ReRank(results, scores, threshold), pos, n);
  }

  /** Entry `i` of the re-rank is the input's result at position `pos[i]`,
      and no position is drawn twice. */
  lemma ReRankPositions<T>(results: seq<T>, scores: seq<int>, threshold: int) returns (pos: seq<nat>)
    ensures var ranked := ReRank(results, scores, threshold);
      && |pos| == |ranked|
      && (forall i :: 0 <= i < |pos| ==> pos[i] < |results| && ranked[i] == results[pos[i]])
      && (forall i, j :: 0 <= i < j < |pos| ==> pos[i] != pos[j])
  {
    var sel := Selected(results, scores, threshold);
    SelectedDrawsEachOnce(results, scores, threshold);
    pos := seq(|sel|, i requires 0 <= i < |sel| => sel[i].index);
  }

  /** Results drawn from distinct positions of a URL-unique list, and any
      prefix of them, are URL-unique. */
  lemma DrawnOnceKeepsUnique(results: seq<Hit>, ranked: seq<Hit>, pos: seq<nat>, n: int)
    requires UniqueUrls(results)
    requires |pos| == |ranked|
    requires forall i :: 0 <= i < |pos| ==> pos[i] < |results| && ranked[i] == results[pos[i]]
    requires forall i, j :: 0 <= i < j < |pos| ==> pos[i] != pos[j]
    ensures var cited := Take(ranked, n);
      UniqueUrls(cited) && forall k :: 0 <= k < |cited| ==> cited[k] in results
  {
    var cited := Take(ranked, n);
    forall k | 0 <= k < |cited| ensures cited[k] == results[pos[k]] {
      assert cited[k] == ranked[k];
    }
    forall i, j | 0 <= i < j < |cited| ensures UrlKey(cited[i]) != UrlKey(cited[j]) {
      DistinctPositionsDistinctUrls(results, pos[i], pos[j]);
    }
  }

  lemma DistinctPositionsDistinctUrls(results: seq<Hit>, a: nat, b: nat)
    requires UniqueUrls(results) && a < |results| && b < |results| && a != b
    ensures UrlKey(results[a]) != UrlKey(results[b])
  {
    if b < a {
      assert UrlKey(results[b]) != UrlKey(results[a]);
    }
  }

  /** `gather_evidence`: generate queries, collect up to `2 * maxTotal`
      URL-unique results, score and re-rank them, cite the first `maxTotal`.
      `biasPercent` is `int(bias_strength * 100)`. */
  method GatherEvidence(
    topic: string, opponentClaim: Option<string>, maxTotal: int, mode: string, biasPercent: int,
    queryReply: Option<Json>, backend: string -> BackendReply,
    scoreReply: Option<Json>, parse: string -> Option<int>)
    returns (block: string, merged: seq<Hit>, cited: seq<Hit>)
    ensures merged == Collect(GenerateQueries(topic, opponentClaim, mode, queryReply), backend, maxTotal * 2, EmptyHarvest).items
    ensures UniqueUrls(merged)
    ensures maxTotal >= 1 ==> |merged| <= maxTotal * 2
    ensures cited == Take(ReRank(merged, Scores(|merged|, scoreReply, parse), ClampPercent(biasPercent)), maxTotal)
    ensures |cited| <= Max(0, maxTotal)
    ensures UniqueUrls(cited) && forall k :: 0 <= k < |cited| ==> cited[k] in merged
    ensures block == JoinLines(CitationLines(cited))
    ensures (forall q :: SearchResults(q, PerQueryResults, backend(q)) == []) ==> block == ""
  {
    var queries := GenerateQueries(topic, opponentClaim, mode, queryReply);
    var searched;
    merged, searched := CollectUnique(queries, backend, maxTotal * 2);
    var scores := ScoreResultsBias(merged, scoreReply, parse);
    var biased := ReRank(merged, scores, ClampPercent(biasPercent));
    ReRankOrdered(merged, scores, ClampPercent(biasPercent));
    cited := Take(biased, maxTotal);
    ReRankKeepsUnique(merged, scores, ClampPercent(biasPercent), maxTotal);
    block := BuildCitations(cited);
    if forall q :: SearchResults(q, PerQueryResults, backend(q)) == [] {
      CollectFromEmptyBackend(queries, backend, maxTotal * 2, EmptyHarvest);
    }
  }

  // ---------------------------------------------------------------------
  // fact_check_claim

  const MaxFactCheckResults := 10

  /** The fixed fact-check queries: three, plus one naming the topic when
      a topic is given. */
  function FactCheckQueries(claim: string, topic: Option<string>): (qs: seq<string>)
    ensures |qs| == if topic.Some? && topic.value != "" then 4 else 3
    ensures qs[0] == "fact check " + claim
  {
    ["fact check " + claim, claim + " site:.gov", claim + " site:.edu"]
    + (if topic.Some? && topic.value != "" then [topic.value + " claim verification"] else [])
  }

  method FactCheckClaim(claim: string, topic: Option<string>, backend: string -> BackendReply)
    returns (block: string, searched: seq<string>, results: seq<Hit>)
    ensures claim == "" ==> block == "" && searched == [] && results == []
    ensures claim != "" ==> results == Collect(FactCheckQueries(claim, topic), backend, MaxFactCheckResults, EmptyHarvest).items
    ensures claim != "" ==> searched <= FactCheckQueries(claim, topic)
    ensures |results| <= MaxFactCheckResults && UniqueUrls(results)
    ensures block == JoinLines(CitationLines(results))
  {
    if claim == "" {
      return "", [], [];
    }
    var heuristics := FactCheckQueries(claim, topic);
    results, searched := CollectUnique(heuristics, backend, MaxFactCheckResults);
    block := BuildCitations(results);
  }
}
