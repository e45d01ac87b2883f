# AI Debate Club — a Dafny model of the debate logic and the evidence pipeline

AI Debate Club stages a debate between a PRO and a CON language-model agent,
judged by a MODERATOR agent, with a Streamlit front end. This project models
the deterministic logic around the model calls, in three parts.

**The evidence pipeline** (`tools/web_research.py`) is modelled in
`web_research.dfy`. It covers:
- searching with a cap on the number of results;
- the numbered citation block, with snippets clipped to 220 characters;
- the guard that accepts only a JSON list of strings from the language model;
- the fallback search queries;
- score cleaning: clamp to 0..100, pad with 50, cut to length;
- the stable, score-descending re-rank with its threshold and its fallback when nothing passes;
- the over-collecting, URL-deduplicating search loops of `gather_evidence` and `fact_check_claim`.

The search backend, the language model and `int(float(s))` are oracles passed
in as parameters.

**The node updates** are modelled in `debate_state.dfy`, `pro_agent.dfy`,
`con_agent.dfy`, `moderator_agent.dfy`, `src_moderator_agent.dfy`,
`main_nodes.dfy` and `debate_rounds.dfy`:
- The debate record is a datatype.
- Each node is a function from the record to a partial update. The update
  carries the language model's reply, which is an oracle applied to the
  prompt inputs the node assembles.
- The merge overwrites the fields the update carries and appends its
  `chat_history` entries.
- `DebateRounds` composes the nodes of `agents/` over any sequence of turns.

**The front end's debate logic** (`app.py`) is modelled in `app.dfy`:
- `st.session_state` is a class `Session`.
- The real run is a method whose loop folds the graph's stream of state
  snapshots into the transcript rows and the chat log. It is proved equal to
  a recursive specification, `Replay`.
- The invariants of the fold are proved about `Replay`.
- The placeholder fallback is a loop proved to append a fixed, alternating
  chat log.

What the code does, and what the model therefore states:
- Only the CON node of `agents/` advances `round`. PRO only passes the floor
  to CON. The `main.py` nodes set neither the speaker nor the round.
- No node ever writes `moderator_verdict`. The verdict text only reaches the
  chat history. The front end shows a verdict from a snapshot only when its
  `moderator_verdict` is set. So with these nodes that branch never fires,
  and the real run ends with the stream (`NoVerdictNoModeratorMessage`).
- `_json_list_guard` accepts only lists of strings. A reply that is a JSON
  array of numbers is exactly what the scoring prompt asks for, yet it is
  rejected, and every result then scores 50 (`NumericScoreReplyIsIgnored`).
- A real run that raises part-way keeps the chat messages it already added.
  The placeholder exchange is appended after them (`App.Session.Start`).

## Model

| member | source | states |
|---|---|---|
| Common.Take | tools/web_research.py:223 | Python's `s[:k]`: the first `min(k, n)` entries, or all but the last `-k` when `k` is negative. |
| Common.StripIsSlice | tools/web_research.py:64-66 | `strip()` keeps a contiguous piece of its input that neither starts nor ends with whitespace, and it cuts away only whitespace. |
| Common.StripIdempotent | app.py:95-96 | Stripping a stripped string changes nothing. |
| Common.StripEmptyIffBlank | app.py:95-96 | A string strips to "" exactly when it is all whitespace. |
| Common.NatToStringRoundTrip | tools/web_research.py:70 | The decimal numeral of a citation number reads back as that number, so numerals are unambiguous. |
| Common.NatToStringInjective | tools/web_research.py:63-70 | Distinct citation numbers render as distinct numerals. |
| Common.SplitJoinLines | tools/web_research.py:71 | Splitting a newline join of newline-free lines on "\n" gives exactly those lines back. |
| WebResearch.SearchWeb | tools/web_research.py:26-50 | The result is empty for an empty query, for `max_results <= 0`, when the backend is missing, and when it raised. Otherwise it holds the first `min(max_results, n)` records in backend order, with title/url/snippet taken from title/href/body and "" for a missing key. |
| WebResearch.ClipSnippet | tools/web_research.py:68-69 | A snippet of at most 220 characters is kept whole. A longer one becomes its first 217 characters plus "...". No clipped snippet exceeds 220 characters. |
| WebResearch.BuildCitations | tools/web_research.py:53-71 | The loop builds the newline join of line `[k+1] title — snippet (url)` for each result `k`, and the block is "" exactly when there are no results. |
| WebResearch.CitationBlockEmptyIff | tools/web_research.py:60-71 | The citation block is empty if and only if the result list is empty. |
| WebResearch.CitationLinePrefix | tools/web_research.py:70 | Line `n` starts with `[n] `, whatever the fields hold. |
| WebResearch.CitationLineShape | tools/web_research.py:63-70 | When no field holds a newline, line `n` starts with `[n] ` and contains no newline. |
| WebResearch.CitationBlockHasOneLinePerResult | tools/web_research.py:60-71 | When no field holds a line break, a non-empty block splits on newlines into exactly one line per result, numbered 1..n in input order. |
| WebResearch.JsonListGuard | tools/web_research.py:74-82 | A reply that is a list of strings yields its first six strings, in order. Any other reply, or a failed parse, yields the caller's fallback unchanged. |
| WebResearch.NormalizeMode | tools/web_research.py:99-100 | The mode is always "support" or "attack". Those two are kept, and anything else becomes "support". |
| WebResearch.GenerateQueries | tools/web_research.py:99-130 | A usable reply gives exactly its first `min(6, n)` strings, in order. Any other reply gives exactly the three fallback templates of the normalised mode. |
| WebResearch.AttackFallbackTargetsClaim | tools/web_research.py:108-112 | The attack-mode fallback queries name the opponent's claim when it is non-empty, and the topic otherwise. |
| WebResearch.ClampPercent | tools/web_research.py:167 | `max(0, min(100, v))` lies in 0..100. It is `v` itself inside that range, 0 below it and 100 above it. |
| WebResearch.CleanScore | tools/web_research.py:162-168 | Each cleaned score lies in 0..100. A number, or a string that parses, is clamped to 0..100. A string that does not parse counts as 50. |
| WebResearch.Scores | tools/web_research.py:159-172 | There are exactly `n` scores, each in 0..100. An unusable reply gives 50 everywhere. A usable reply gives position `k` the cleaned `k`-th string for `k < min(6, m)`, and 50 at the padded positions after that. |
| WebResearch.ScoreResultsBias | tools/web_research.py:133-174 | The clean/pad/cut loops compute `Scores`: one score per result, each in 0..100, and [] for no results. |
| WebResearch.NumericScoreReplyIsIgnored | tools/web_research.py:159 | A non-empty JSON array of numbers is not a list of strings, so every result scores 50. |
| WebResearch.ScoresAfterSixthAreNeutral | tools/web_research.py:170-171 | The guard keeps at most six replies, so results after the sixth always score 50. |
| WebResearch.AcceptedScoresAreKept | tools/web_research.py:162-168 | Within a usable reply, each of the first six strings that parses to a value in 0..100 becomes its result's score. |
| WebResearch.Pair | tools/web_research.py:179 | `zip` pairs position `k` of both lists, up to the shorter length. |
| WebResearch.SortByScore | tools/web_research.py:181 | The sort is a permutation of its input, in non-increasing score order with ties kept in input order. |
| WebResearch.AtLeast | tools/web_research.py:184 | The filter keeps exactly the entries scoring at least the threshold, each as many times as the input holds it, and it keeps a sorted list sorted. |
| WebResearch.AtLeastKeepsOrder | tools/web_research.py:184 | What the filter keeps is a subsequence of its input, so with the counts above it is exactly the passing entries in input order. |
| WebResearch.SortKeepsLength | tools/web_research.py:181 | Sorting keeps every entry. |
| WebResearch.ReRankOrdered | tools/web_research.py:179-188 | The re-rank is sorted by descending score, stable, and never longer than its input. |
| WebResearch.ReRankKeepsPassing | tools/web_research.py:184-186 | When some result reaches the threshold, the re-rank holds exactly the results that do, each as many times as the input holds it. |
| WebResearch.ReRankFallsBackToAll | tools/web_research.py:186-187 | When no result reaches the threshold, the re-rank is every result in sorted order. |
| WebResearch.ReRankEmptyIff | tools/web_research.py:184-188 | The re-rank is non-empty if and only if there is something to rank. |
| WebResearch.ZeroThresholdKeepsAll | tools/web_research.py:183-184 | A threshold of 0 drops nothing. |
| WebResearch.ScanKeepsUnique | tools/web_research.py:211-218 | One query's scan keeps results unique by stripped URL and free of empty URLs. It only appends, and it stops at the cap. |
| WebResearch.CollectKeepsUnique | tools/web_research.py:208-220 | The whole collection keeps URLs unique and non-empty, holds at most the cap (at most one when the cap is not positive), and sends a prefix of the queries in order. |
| WebResearch.ScanFinds | tools/web_research.py:211-218 | Everything one query's scan keeps is one of that query's results. Unless the cap was reached, every result with a non-empty URL has its URL among the kept items. |
| WebResearch.CollectFinds | tools/web_research.py:208-220 | Everything the collection keeps is a result of a searched query. Unless the cap was reached, every result of the queries with a non-empty URL has its URL among the kept items. |
| WebResearch.CollectFromEmptyBackend | tools/web_research.py:210-216 | A backend that finds nothing leaves nothing collected. |
| WebResearch.CollectUnique | tools/web_research.py:243-255 | The nested loop with its `seen` set and breaks computes `Collect`: URL-unique results of the queries, at most the cap, a prefix of the queries searched, and, unless the cap was reached, a result for every URL found. |
| WebResearch.ReRankKeepsUnique | tools/web_research.py:222-223 | Re-ranking URL-unique results and citing a prefix keeps them URL-unique, and cites only collected results. |
| WebResearch.GatherEvidence | tools/web_research.py:191-225 | The merged list has unique non-empty URLs and at most `2*max_total` entries. At most `max_total` re-ranked results are cited, each a merged result, with no URL cited twice. The block is "" when the backend finds nothing. |
| WebResearch.FactCheckQueries | tools/web_research.py:235-241 | There are three queries, or four when a non-empty topic is given, and the first one is `fact check <claim>`. |
| WebResearch.FactCheckClaim | tools/web_research.py:228-258 | An empty claim gives "" without any search. Otherwise at most 10 URL-unique results are cited, found by a prefix of the fact-check queries. |
| DebateState.Apply | debate_state.py:5-13 | The merge appends the update's history and keeps the topic, the budget and the personas. Each field the update carries takes the update's value, and each field it omits is unchanged. |
| DebateState.HistoryWindow | agents/pro_agent.py:34 | The prompt window is the last `min(4, n)` history entries, a suffix of the history. |
| DebateState.VerdictPromptOf | agents/moderator_agent.py:32-37 | The moderator's inputs are the topic, both arguments defaulting to "No prior argument.", and the last `min(4, n)` history entries. |
| DebateState.HistoryOnlyLeavesStateAlone | agents/moderator_agent.py:39-41 | Merging a history-only update appends one message and changes nothing else. |
| ProAgent.ProPrompt | agents/pro_agent.py:31-37 | CON's argument defaults to "No prior argument.", the personas to "Pro"/"Con", and the history is the last `min(4, n)` entries. |
| ProAgent.ProNode | agents/pro_agent.py:30-43 | The reply becomes `pro_argument` and the one history message. The speaker becomes CON. No round, CON argument or verdict is set. |
| ProAgent.ProTurn | agents/pro_agent.py:39-43 | After a PRO turn only `pro_argument`, the speaker and the history have changed, and the round has not. |
| ConAgent.ConPrompt | agents/con_agent.py:32-38 | PRO's argument defaults to "No prior argument.", the personas to "Con"/"Pro", and the history is the last `min(4, n)` entries. |
| ConAgent.ConNode | agents/con_agent.py:31-45 | The reply becomes `con_argument` and the one history message. The speaker becomes PRO and the round is the incoming round plus one. |
| ConAgent.ConTurn | agents/con_agent.py:40-45 | After a CON turn only `con_argument`, the speaker, the round (+1) and the history have changed. |
| ModeratorAgent.ModeratorNode | agents/moderator_agent.py:31-41 | The update holds one history message with the reply, and no other key, `moderator_verdict` included. |
| ModeratorAgent.ModeratorTurn | agents/moderator_agent.py:39-41 | The moderator's turn changes only the history. Round, speaker, arguments and verdict stay as they were. |
| SrcModeratorAgent.ModeratorNode | src/agents/moderator_agent.py:25-35 | The update holds one history message with the reply, and nothing else. |
| SrcModeratorAgent.AgreesWithCurrentModerator | src/agents/moderator_agent.py:25-35 | Given the same reply, the earlier moderator returns the same update as the current one. |
| SrcModeratorAgent.ModeratorTurn | src/agents/moderator_agent.py:33-35 | Its turn changes only the history. |
| MainNodes.ProPrompt | main.py:75-79 | CON's argument defaults to "No prior argument." and the history is the last `min(4, n)` entries. |
| MainNodes.ConPrompt | main.py:86-90 | PRO's argument defaults to "No prior argument." and the history is the last `min(4, n)` entries. |
| MainNodes.ProNode | main.py:74-83 | The reply becomes `pro_argument` and one history message. Neither speaker nor round is set. |
| MainNodes.ConNode | main.py:85-94 | The reply becomes `con_argument` and one history message. Neither speaker nor round is set. |
| MainNodes.ModeratorNode | main.py:95-104 | The update is one history message with the reply, and nothing else. |
| MainNodes.ExchangeKeepsRound | main.py:74-94 | A PRO and then a CON turn append both replies in order and leave the round and the speaker unchanged. |
| DebateRounds.RunInvariant | agents/con_agent.py:40-45 | For any order of turns, each turn appends one history entry and only CON turns advance the round. Verdict, topic, budget and personas never change. |
| DebateRounds.ExchangesAdvanceRounds | agents/con_agent.py:40-45 | `k >= 1` PRO/CON exchanges add `k` rounds and `2k` messages, give PRO the floor, and end the history with PRO's and then CON's latest argument. |
| DebateRounds.FromTheStart | agents/pro_agent.py:39-43 | From round 0 with an empty history, `k` exchanges reach round `k` with `2k` messages, PRO to speak, and no verdict. |
| DebateRounds.VerdictStaysUnset | agents/moderator_agent.py:39-41 | A debate that started without a verdict still has none after the moderator's turn. |
| App.PersonasForStyle | app.py:71-78 | "Aggressive" and "Casual" map to their fixed pairs, and every other style maps to the formal pair. |
| App.PersonaOrDefaultSpec | app.py:95-96 | A blank or whitespace-only persona becomes the default. Any other persona is kept, stripped. |
| App.PersonaNeverBlank | app.py:95-96 | With "Pro"/"Con" as defaults the persona is never blank, and normalising it again changes nothing. |
| App.InitialState | app.py:98-108 | The initial state has both arguments empty, no history, PRO to speak, round 0, the given budget and the normalised personas. |
| App.InitialPersonasNotBlank | app.py:94-108 | The personas handed to the debate are never blank. |
| App.InitialStateStartsFresh | app.py:98-108 | From the initial state, `k` exchanges of the agent nodes reach round `k` with `2k` messages, PRO to speak, non-blank personas and no verdict. |
| App.ObserveKeepsShape | app.py:118-144 | One snapshot keeps the fold's invariant (listed under `App.ReplayKeepsShape`). It stops exactly when it shows a verdict, which then closes the chat log. |
| App.ReplayKeepsShape | app.py:117-144 | Throughout the fold: rows are numbered 1, 2, ... and counted by `turn_idx`; no chat message is empty; the PRO column equals the PRO messages; every filled CON cell holds a CON message; the change-detection locals hold each side's last message; neither side repeats back to back. The fold stops exactly when the verdict is set, and that verdict is then the only and last moderator message. |
| App.SeeProRecords | app.py:123-127 | A new, non-empty PRO argument adds exactly one PRO chat message and opens a new last row holding it with an empty CON cell. An empty or repeated one changes nothing. |
| App.SeeConRecords | app.py:129-137 | A new, non-empty CON argument adds exactly one CON chat message and lands in the last row's CON cell, opening a row only when there is none. Earlier rows stay as they were. An empty or repeated one changes nothing. |
| App.RowsPerProMessage | app.py:123-136 | Each PRO message opens one row, and at most one extra row exists, opened when CON is heard first. |
| App.NoVerdictNoModeratorMessage | app.py:139-144 | A stream whose snapshots carry no verdict is consumed completely and adds no moderator message. |
| App.PlaceholderTurnsAlternate | app.py:202-204 | Round `i` puts its PRO line at position `2(i-1)` and its CON line right after it. |
| App.PlaceholderScript | app.py:202-206 | The placeholder chat log has `2n` messages that alternate PRO and CON from PRO and are tagged with their round, then exactly one moderator message with the fixed verdict. |
| App.Session.constructor | app.py:59-68 | A new session has empty lists, an empty verdict and placeholder mode. |
| App.Session.RunRealDebate | app.py:81-151 | A failed graph import returns False and changes nothing. Otherwise the loop leaves transcript, chat log and verdict equal to `Replay` of the stream, and returns True unless the stream raised before a verdict was shown. |
| App.Session.HearPro | app.py:123-127 | The PRO half of the loop body is `SeePro`. |
| App.Session.HearCon | app.py:129-137 | The CON half of the loop body is `SeeCon`, filling the last row or opening one. |
| App.Session.AppendPlaceholder | app.py:202-206 | The fallback loop appends exactly the placeholder chat log and sets the fixed verdict. |
| App.Session.Start | app.py:194-207 | Pressing Start resets the session and runs the debate. On failure the placeholder log follows any messages already added. The mode records which path was taken. |

## Left out

- The prompt templates and their wording are left out. Each node's
  instructions reach the model only through the oracle `llm`, so the two
  moderator variants differ only in their oracle.
- The DuckDuckGo search and every `llm.invoke` / `chain.invoke` call are
  oracles passed in as parameters (`BackendReply`, `Option<Json>`, a reply
  function of the prompt inputs).
- An exception raised by a node's chain call is not modelled inside the
  node. The front end sees it as a stream that raises (`Stream.raises`).
- `json.loads` and `int(float(s))` are inputs: the parsed JSON value (`None`
  when the call raised or the text is not JSON) and a partial function
  `parse`. JSON numbers keep only their integer part, which the guard never
  reads.
- WebResearch.GatherEvidence takes the threshold as the integer
  `int(bias_strength * 100)`, so the float multiplication and truncation are
  not modelled. The same applies to the `stance` and `persona` parameters,
  which only reach prompts.
- WebResearch.ScoreResultsBias does not model the 320-character clipping of
  the scoring prompt, because that text only reaches the language model.
- WebResearch.GatherEvidence and WebResearch.FactCheckClaim do not model
  their outer `except` returning "". Every failure inside them is already
  absorbed by the oracles, the guard and `search_web`'s own handler.
- The `print` calls in the agent nodes are output only.
- App.PersonasForStyle: `app.py` defines `personas_for_style` but never
  calls it. The model states the lookup and nothing that depends on it.
- App.InitialState: `pro_persona` and `con_persona` are not keys of the
  state type in `debate_state.py:5-13`. The model assumes the graph hands
  them on to the nodes, as `app.py:98-108` intends. A graph that dropped
  undeclared keys would make the nodes see no persona, and `ProPrompt` and
  `ConPrompt` would then use their "Pro"/"Con" defaults. `graph.py` is not
  part of this model, so that cannot be settled here.
- DebateState.Apply models the `add_messages` reducer of `chat_history` as
  plain appending. The reducer's replacement of a message with the same id
  is not modelled, because every node adds fresh messages.
- `llm.py`, `tools/memory.py` and `src/ui.py` are not part of this model:
  - `llm.py` is a model client with start-up and network checks;
  - `tools/memory.py` wraps store constructors that cannot be seen;
  - `src/ui.py` is rendering.
- The debate graph (`graph.py`) is not part of this model. It is an input
  that maps the initial state to a stream of snapshots. No routing or
  termination claim is made, and `DebateRounds` allows any order of turns.
- The Streamlit page layout, widgets, CSS/HTML rendering, `st.toast` and
  `time.sleep` are presentation only.
- The `current_speaker` value "moderator" is never written by any node, so
  `Side` has only PRO and CON.
