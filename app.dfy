/** app.py: the front end's debate logic. The real run folds the stream of
    state snapshots produced by the debate graph into a numbered transcript
    and a flat chat log by change detection; when the graph cannot be used
    the chat log is filled with a fixed placeholder exchange instead. */
module App {
  import opened Common
  import opened DebateState
  import DebateRounds

  // ---------------------------------------------------------------------
  // Personas

  /** `personas_for_style`: the default (PRO, CON) personas of a style. */
  function PersonasForStyle(style: string): (pair: (string, string))
    ensures style == "Aggressive" ==> pair == ("Hardline Disruptor", "Relentless Critic")
    ensures style == "Casual" ==> pair == ("Pragmatic Tech Enthusiast", "Concerned Parent")
    ensures style != "Aggressive" && style != "Casual" ==> pair == ("Academic Scholar", "Skeptical Ethicist")
  {
    if style == "Aggressive" then ("Hardline Disruptor", "Relentless Critic")
    else if style == "Casual" then ("Pragmatic Tech Enthusiast", "Concerned Parent")
    else ("Academic Scholar", "Skeptical Ethicist")
  }

  /** `(persona or "").strip() or default` */
  function PersonaOrDefault(persona: string, default: string): string {
    if Strip(persona) != "" then Strip(persona) else default
  }

  /** A blank or whitespace-only persona is replaced by the default; any
      other persona is kept with its surrounding whitespace removed. */
  lemma PersonaOrDefaultSpec(persona: string, default: string)
    ensures IsBlank(persona) ==> PersonaOrDefault(persona, default) == default
    ensures !IsBlank(persona) ==> PersonaOrDefault(persona, default) == Strip(persona) != ""
  {
    StripEmptyIffBlank(persona);
  }

  /** With a stripped, non-empty default such as "Pro" or "Con" the persona
      the debate receives is never blank, and normalising it again changes
      nothing. */
  lemma PersonaNeverBlank(persona: string, default: string)
    requires default != "" && Strip(default) == default
    ensures !IsBlank(PersonaOrDefault(persona, default))
    ensures PersonaOrDefault(PersonaOrDefault(persona, default), default) == PersonaOrDefault(persona, default)
  {
    var r := PersonaOrDefault(persona, default);
    StripEmptyIffBlank(persona);
    StripEmptyIffBlank(default);
    if !IsBlank(persona) {
      StripIdempotent(persona);
      StripEmptyIffBlank(r);
    }
  }

  /** The state the real run hands to the graph: both arguments empty, no
      history, PRO to speak, round 0 of `maxRounds`, and the normalised
      personas. */
  function InitialState(topic: string, maxRounds: int, proPersona: string, conPersona: string): (s: State)
    ensures s.topic == topic && s.maxRounds == maxRounds
    ensures s.round == 0 && s.currentSpeaker == Pro && s.chatHistory == []
    ensures s.proArgument == Some("") && s.conArgument == Some("") && s.moderatorVerdict.None?
    ensures s.proPersona == Some(PersonaOrDefault(proPersona, "Pro"))
    ensures s.conPersona == Some(PersonaOrDefault(conPersona, "Con"))
  {
    State(topic, Some(""), Some(""), Pro, [], 0, maxRounds, None,
          Some(PersonaOrDefault(proPersona, "Pro")), Some(PersonaOrDefault(conPersona, "Con")))
  }

  /** The personas of the initial state are never blank. */
  lemma InitialPersonasNotBlank(topic: string, maxRounds: int, proPersona: string, conPersona: string)
    ensures var s := InitialState(topic, maxRounds, proPersona, conPersona);
      s.proPersona.Some? && !IsBlank(s.proPersona.value)
      && s.conPersona.Some? && !IsBlank(s.conPersona.value)
  {
    StripKeepsTrimmed("Pro");
    StripKeepsTrimmed("Con");
    PersonaNeverBlank(proPersona, "Pro");
    PersonaNeverBlank(conPersona, "Con");
  }

  /** Started from the front end's initial state, `k` PRO/CON exchanges of
      the agent nodes reach round `k` with `2k` history entries, PRO to
      speak, non-blank personas, and no verdict. */
  lemma InitialStateStartsFresh(topic: string, maxRounds: int, proPersona: string, conPersona: string,
                                k: nat, r: DebateRounds.Replies)
    ensures var u := DebateRounds.Run(InitialState(topic, maxRounds, proPersona, conPersona), DebateRounds.Exchanges(k), r);
      u.round == k && |u.chatHistory| == 2 * k && u.currentSpeaker == Pro && u.moderatorVerdict.None?
      && u.proPersona.Some? && !IsBlank(u.proPersona.value)
      && u.conPersona.Some? && !IsBlank(u.conPersona.value)
  {
    var s := InitialState(topic, maxRounds, proPersona, conPersona);
    var u := DebateRounds.Run(s, DebateRounds.Exchanges(k), r);
    DebateRounds.FromTheStart(s, k, r);
    DebateRounds.RunInvariant(s, DebateRounds.Exchanges(k), r);
    assert u.proPersona == s.proPersona && u.conPersona == s.conPersona;
    InitialPersonasNotBlank(topic, maxRounds, proPersona, conPersona);
  }

  // ---------------------------------------------------------------------
  // Folding the snapshot stream

  datatype Role = ProSpeaker | ConSpeaker | ModeratorSpeaker

  /** An entry of `chat_messages`. */
  datatype ChatMessage = ChatMessage(speaker: Role, content: string)

  /** An entry of `transcript`: a numbered row with both sides' arguments. */
  datatype Row = Row(round: int, pro: string, con: string)

  /** What the fold has built so far: the two session lists and the verdict,
      plus the loop's change-detection locals. */
  datatype View = View(
    transcript: seq<Row>,
    messages: seq<ChatMessage>,
    verdict: string,
    prevPro: string,
    prevCon: string,
    turnIdx: int)

  /** The view right after the run resets the session. */
  const StartView := View([], [], "", "", "", 0)

  /** A new, non-empty PRO argument opens a numbered row and adds a PRO
      chat message. */
  function SeePro(v: View, currentPro: string): View {
    if currentPro != "" && currentPro != v.prevPro then
      v.(prevPro := currentPro, turnIdx := v.turnIdx + 1,
         transcript := v.transcript + [Row(v.turnIdx + 1, currentPro, "")],
         messages := v.messages + [ChatMessage(ProSpeaker, currentPro)])
    else v
  }

  /** A new, non-empty CON argument fills the last row's CON slot (or opens
      a row when there is none) and adds a CON chat message. */
  function SeeCon(v: View, currentCon: string): View {
    if currentCon != "" && currentCon != v.prevCon then
      var t := v.transcript;
      var w := if t != [] then v.(transcript := t[|t| - 1 := t[|t| - 1].(con := currentCon)])
               else v.(turnIdx := v.turnIdx + 1, transcript := t + [Row(v.turnIdx + 1, "", currentCon)]);
      w.(prevCon := currentCon, messages := w.messages + [ChatMessage(ConSpeaker, currentCon)])
    else v
  }

  /** The verdict a snapshot makes the front end show, if any: a non-empty
      `moderator_verdict` once the round has reached the budget. */
  function VerdictShown(snap: State, maxRounds: int): Option<string> {
    if snap.moderatorVerdict.Some? && snap.moderatorVerdict.value != "" && snap.round >= maxRounds
    then snap.moderatorVerdict else None
  }

  datatype Outcome = Outcome(view: View, stop: bool)

  /** One snapshot: PRO, then CON, then possibly the verdict, which ends the run. */
  function Observe(v: View, snap: State, maxRounds: int): Outcome {
    var w := SeeCon(SeePro(v, snap.proArgument.GetOr("")), snap.conArgument.GetOr(""));
    match VerdictShown(snap, maxRounds)
    case Some(verdict) => Outcome(SeeVerdict(w, verdict), true)
    case None => Outcome(w, false)
  }

  /** The verdict is recorded and added to the chat as a moderator message. */
  function SeeVerdict(v: View, verdict: string): View {
    v.(verdict := verdict, messages := v.messages + [ChatMessage(ModeratorSpeaker, verdict)])
  }

  /** The fold over the snapshots that remain, stopping at the first verdict. */
  function Replay(snaps: seq<State>, maxRounds: int, v: View): Outcome
    decreases |snaps|
  {
    if snaps == [] then Outcome(v, false)
    else
      var o := Observe(v, snaps[0], maxRounds);
      if o.stop then o else Replay(snaps[1..], maxRounds, o.view)
  }

  /** One step of the fold over `snaps[i..]`. */
  lemma ReplayUnfold(snaps: seq<State>, i: nat, maxRounds: int, v: View)
    requires i < |snaps|
    ensures var o := Observe(v, snaps[i], maxRounds);
      Replay(snaps[i..], maxRounds, v) == if o.stop then o else Replay(snaps[i + 1..], maxRounds, o.view)
  {
    assert snaps[i..][0] == snaps[i];
    assert snaps[i..][1..] == snaps[i + 1..];
  }

  /** The contents one role has said, in order. */
  function Said(messages: seq<ChatMessage>, role: Role): (r: seq<string>)
    ensures |r| <= |messages|
  {
    if messages == [] then []
    else
      var m := messages[|messages| - 1];
      Said(messages[..|messages| - 1], role) + (if m.speaker == role then [m.content] else [])
  }

  function LastOr(xs: seq<string>, default: string): string {
    if xs == [] then default else xs[|xs| - 1]
  }

  /** No entry equals the one before it. */
  predicate NoRepeats(xs: seq<string>) {
    forall k :: 0 <= k < |xs| - 1 ==> xs[k] != xs[k + 1]
  }

  /** The PRO column of the transcript. */
  function ProColumn(t: seq<Row>): (r: seq<string>)
    ensures |r| == |t|
  {
    if t == [] then [] else ProColumn(t[..|t| - 1]) + [t[|t| - 1].pro]
  }

  /** A row opened by a CON argument, which happens only when CON is heard first. */
  function Lead(messages: seq<ChatMessage>): seq<string> {
    if messages != [] && messages[0].speaker == ConSpeaker then [""] else []
  }

  /** What the fold keeps true at every step: rows numbered 1, 2, ... with
      `turn_idx` the number of rows; no empty chat message; the PRO column is
      exactly the PRO messages (after an empty cell when CON was heard
      first); every filled CON cell holds something CON said; the
      change-detection locals hold each side's last message; and no side's
      messages repeat back to back. */
  predicate Shape(v: View) {
    && v.turnIdx == |v.transcript|
    && RowsNumbered(v.transcript)
    && NoEmptyMessage(v.messages)
    && ProColumn(v.transcript) == Lead(v.messages) + Said(v.messages, ProSpeaker)
    && ConCellsIn(v.transcript, Said(v.messages, ConSpeaker))
    && v.prevPro == LastOr(Said(v.messages, ProSpeaker), "")
    && v.prevCon == LastOr(Said(v.messages, ConSpeaker), "")
    && NoRepeats(Said(v.messages, ProSpeaker))
    && NoRepeats(Said(v.messages, ConSpeaker))
  }

  /** Rows are numbered 1, 2, ... in order. */
  predicate RowsNumbered(t: seq<Row>) {
    forall k :: 0 <= k < |t| ==> t[k].round == k + 1
  }

  /** Every non-empty CON cell of the transcript is among `said`. */
  predicate ConCellsIn(t: seq<Row>, said: seq<string>) {
    forall k :: 0 <= k < |t| && t[k].con != "" ==> t[k].con in said
  }

  predicate NoEmptyMessage(messages: seq<ChatMessage>) {
    forall k :: 0 <= k < |messages| ==> messages[k].content != ""
  }

  /** Before the verdict: no moderator message yet, no verdict, and rows
      exactly when messages. */
  predicate Running(v: View) {
    && v.verdict == ""
    && Said(v.messages, ModeratorSpeaker) == []
    && (v.transcript == [] <==> v.messages == [])
  }

  /** The run ended on a verdict: it is the last chat message, and the only
      moderator message. */
  predicate ClosedByVerdict(v: View) {
    && v.verdict != ""
    && |v.messages| >= 1
    && v.messages[|v.messages| - 1] == ChatMessage(ModeratorSpeaker, v.verdict)
    && Said(v.messages[..|v.messages| - 1], ModeratorSpeaker) == []
  }

  lemma SaidAppend(messages: seq<ChatMessage>, m: ChatMessage, role: Role)
    ensures Said(messages + [m], role) == Said(messages, role) + (if m.speaker == role then [m.content] else [])
  {
    assert (messages + [m])[..|messages|] == messages;
  }

  /** Appending a message to a non-empty log keeps its lead cell. */
  lemma LeadAppend(messages: seq<ChatMessage>, m: ChatMessage)
    requires messages != []
    ensures Lead(messages + [m]) == Lead(messages)
  {
    assert (messages + [m])[0] == messages[0];
  }

  lemma NoEmptyAppend(messages: seq<ChatMessage>, m: ChatMessage)
    requires NoEmptyMessage(messages) && m.content != ""
    ensures NoEmptyMessage(messages + [m])
  {
    forall k | 0 <= k < |messages| + 1 ensures (messages + [m])[k].content != "" {
      if k < |messages| {
        assert (messages + [m])[k] == messages[k];
      }
    }
  }

  /** Appending one chat message: what each role has said, the lead cell
      and the no-empty-message property. */
  lemma AppendMessage(messages: seq<ChatMessage>, m: ChatMessage)
    requires NoEmptyMessage(messages) && m.content != ""
    ensures Said(messages + [m], ProSpeaker) == Said(messages, ProSpeaker) + (if m.speaker == ProSpeaker then [m.content] else [])
    ensures Said(messages + [m], ConSpeaker) == Said(messages, ConSpeaker) + (if m.speaker == ConSpeaker then [m.content] else [])
    ensures Said(messages + [m], ModeratorSpeaker) == Said(messages, ModeratorSpeaker) + (if m.speaker == ModeratorSpeaker then [m.content] else [])
    ensures messages != [] ==> Lead(messages + [m]) == Lead(messages)
    ensures messages == [] ==> Lead(messages + [m]) == if m.speaker == ConSpeaker then [""] else []
    ensures NoEmptyMessage(messages + [m])
  {
    SaidAppend(messages, m, ProSpeaker);
    SaidAppend(messages, m, ConSpeaker);
    SaidAppend(messages, m, ModeratorSpeaker);
    if messages != [] {
      LeadAppend(messages, m);
    } else {
      assert messages + [m] == [m];
    }
    NoEmptyAppend(messages, m);
  }

  lemma NoRepeatsAppend(xs: seq<string>, x: string)
    requires NoRepeats(xs) && x != LastOr(xs, "")
    ensures NoRepeats(xs + [x]) && LastOr(xs + [x], "") == x
  {
    var ys := xs + [x];
    forall k | 0 <= k < |ys| - 1 ensures ys[k] != ys[k + 1] {
      if k + 1 < |xs| {
        assert ys[k] == xs[k] && ys[k + 1] == xs[k + 1];
      } else {
        assert ys[k] == xs[|xs| - 1] && ys[k + 1] == x;
      }
    }
  }

  lemma RowsNumberedAppend(t: seq<Row>, row: Row)
    requires RowsNumbered(t) && row.round == |t| + 1
    ensures RowsNumbered(t + [row])
  {
    forall k | 0 <= k < |t| + 1 ensures (t + [row])[k].round == k + 1 {
      if k < |t| {
        assert (t + [row])[k] == t[k];
      }
    }
  }

  lemma ProColumnAppend(t: seq<Row>, row: Row)
    ensures ProColumn(t + [row]) == ProColumn(t) + [row.pro]
  {
    assert (t + [row])[..|t|] == t;
  }

  /** Filling the last row's CON slot leaves the numbering and the PRO
      column alone. */
  lemma {:induction false} FillConSlot(t: seq<Row>, con: string)
    requires t != []
    ensures ProColumn(t[|t| - 1 := t[|t| - 1].(con := con)]) == ProColumn(t)
    ensures RowsNumbered(t) ==> RowsNumbered(t[|t| - 1 := t[|t| - 1].(con := con)])
  {
    var u := t[|t| - 1 := t[|t| - 1].(con := con)];
    assert u[..|u| - 1] == t[..|t| - 1];
    assert forall k :: 0 <= k < |u| ==> u[k].round == t[k].round;
  }

  /** A new row whose CON cell is empty or said keeps the CON cells heard. */
  lemma ConCellsAppendRow(t: seq<Row>, said: seq<string>, more: seq<string>, row: Row)
    requires ConCellsIn(t, said) && (row.con == "" || row.con in said + more)
    ensures ConCellsIn(t + [row], said + more)
  {
    forall k | 0 <= k < |t| + 1 && (t + [row])[k].con != "" ensures (t + [row])[k].con in said + more {
      if k < |t| {
        assert (t + [row])[k] == t[k];
        assert t[k].con in said;
      }
    }
  }

  /** Writing a newly said CON argument into the last cell keeps the CON
      cells heard. */
  lemma ConCellsFill(t: seq<Row>, said: seq<string>, con: string)
    requires t != [] && ConCellsIn(t, said)
    ensures ConCellsIn(t[|t| - 1 := t[|t| - 1].(con := con)], said + [con])
  {
    var u := t[|t| - 1 := t[|t| - 1].(con := con)];
    forall k | 0 <= k < |u| && u[k].con != "" ensures u[k].con in said + [con] {
      if k < |t| - 1 {
        assert u[k] == t[k];
        assert t[k].con in said;
      } else {
        assert u[k].con == con == (said + [con])[|said|];
      }
    }
  }

  lemma StartViewShape()
    ensures Shape(StartView) && Running(StartView)
  {
  }

  lemma SeeProKeepsShape(v: View, currentPro: string)
    requires Shape(v) && Running(v)
    ensures Shape(SeePro(v, currentPro)) && Running(SeePro(v, currentPro))
  {
    if currentPro != "" && currentPro != v.prevPro {
      SeeProOpensRow(v, currentPro);
    }
  }

  lemma SeeProOpensRow(v: View, currentPro: string)
    requires Shape(v) && Running(v)
    requires currentPro != "" && currentPro != v.prevPro
    ensures Shape(SeePro(v, currentPro)) && Running(SeePro(v, currentPro))
  {
    var t, ms := v.transcript, v.messages;
    var m := ChatMessage(ProSpeaker, currentPro);
    var row := Row(|t| + 1, currentPro, "");
    var w := SeePro(v, currentPro);
    assert w == v.(prevPro := currentPro, turnIdx := |t| + 1, transcript := t + [row], messages := ms + [m]);
    AppendMessage(ms, m);
    RowsNumberedAppend(t, row);
    ProColumnAppend(t, row);
    NoRepeatsAppend(Said(ms, ProSpeaker), currentPro);
    ConCellsAppendRow(t, Said(ms, ConSpeaker), [], row);
    assert Said(ms, ConSpeaker) + [] == Said(ms, ConSpeaker);
    assert ProColumn(w.transcript) == Lead(w.messages) + Said(w.messages, ProSpeaker);
  }

  lemma SeeConKeepsShape(v: View, currentCon: string)
    requires Shape(v) && Running(v)
    ensures Shape(SeeCon(v, currentCon)) && Running(SeeCon(v, currentCon))
  {
    if currentCon != "" && currentCon != v.prevCon {
      if v.transcript != [] {
        SeeConFillsRow(v, currentCon);
      } else {
        SeeConOpensRow(v, currentCon);
      }
    }
  }

  lemma SeeConFillsRow(v: View, currentCon: string)
    requires Shape(v) && Running(v)
    requires currentCon != "" && currentCon != v.prevCon && v.transcript != []
    ensures Shape(SeeCon(v, currentCon)) && Running(SeeCon(v, currentCon))
  {
    var t, ms := v.transcript, v.messages;
    var m := ChatMessage(ConSpeaker, currentCon);
    var u := t[|t| - 1 := t[|t| - 1].(con := currentCon)];
    var w := SeeCon(v, currentCon);
    assert w == v.(prevCon := currentCon, transcript := u, messages := ms + [m]);
    AppendMessage(ms, m);
    FillConSlot(t, currentCon);
    NoRepeatsAppend(Said(ms, ConSpeaker), currentCon);
    ConCellsFill(t, Said(ms, ConSpeaker), currentCon);
    assert ProColumn(w.transcript) == Lead(w.messages) + Said(w.messages, ProSpeaker);
  }

  lemma SeeConOpensRow(v: View, currentCon: string)
    requires Shape(v) && Running(v)
    requires currentCon != "" && currentCon != v.prevCon && v.transcript == []
    ensures Shape(SeeCon(v, currentCon)) && Running(SeeCon(v, currentCon))
  {
    var w := SeeCon(v, currentCon);
    assert v.messages == [];
    assert w.messages == [ChatMessage(ConSpeaker, currentCon)];
    assert w.transcript == [Row(1, "", currentCon)];
    assert ProColumn(w.transcript) == [""];
    assert Said(w.messages, ProSpeaker) == [];
    assert Said(w.messages, ConSpeaker) == [currentCon];
  }

  /** Recording a verdict keeps the shape and closes the chat log. */
  lemma SeeVerdictCloses(v: View, verdict: string)
    requires Shape(v) && Running(v) && verdict != ""
    ensures Shape(SeeVerdict(v, verdict)) && ClosedByVerdict(SeeVerdict(v, verdict))
  {
    var ms := v.messages;
    var m := ChatMessage(ModeratorSpeaker, verdict);
    var w := SeeVerdict(v, verdict);
    assert w == v.(verdict := verdict, messages := ms + [m]);
    AppendMessage(ms, m);
    assert Said(w.messages, ProSpeaker) == Said(ms, ProSpeaker);
    assert Said(w.messages, ConSpeaker) == Said(ms, ConSpeaker);
    assert ProColumn(w.transcript) == Lead(w.messages) + Said(w.messages, ProSpeaker);
  }

  /** One snapshot keeps the fold's shape; it stops exactly when it shows a
      verdict, which then closes the chat log. */
  lemma ObserveKeepsShape(v: View, snap: State, maxRounds: int)
    requires Shape(v) && Running(v)
    ensures var o := Observe(v, snap, maxRounds);
      Shape(o.view)
      && (o.stop <==> VerdictShown(snap, maxRounds).Some?)
      && (o.stop ==> ClosedByVerdict(o.view))
      && (!o.stop ==> Running(o.view))
  {
    var w1 := SeePro(v, snap.proArgument.GetOr(""));
    SeeProKeepsShape(v, snap.proArgument.GetOr(""));
    var w := SeeCon(w1, snap.conArgument.GetOr(""));
    SeeConKeepsShape(w1, snap.conArgument.GetOr(""));
    var shown := VerdictShown(snap, maxRounds);
    if shown.Some? {
      SeeVerdictCloses(w, shown.value);
      assert Observe(v, snap, maxRounds) == Outcome(SeeVerdict(w, shown.value), true);
    } else {
      assert Observe(v, snap, maxRounds) == Outcome(w, false);
    }
  }

  /** The whole fold, started from a running view: its result keeps the
      shape, it stopped exactly when a verdict was shown, and then that
      verdict is the one moderator message and the last chat message. */
  lemma {:induction false} ReplayKeepsShape(snaps: seq<State>, maxRounds: int, v: View)
    requires Shape(v) && Running(v)
    ensures var o := Replay(snaps, maxRounds, v);
      Shape(o.view)
      && (o.stop <==> o.view.verdict != "")
      && (o.stop ==> ClosedByVerdict(o.view))
      && (!o.stop ==> Running(o.view))
    decreases |snaps|
  {
    if snaps != [] {
      ObserveKeepsShape(v, snaps[0], maxRounds);
      var o := Observe(v, snaps[0], maxRounds);
      if !o.stop {
        ReplayKeepsShape(snaps[1..], maxRounds, o.view);
      }
    }
  }

  /** A new, non-empty CON argument adds exactly one chat message, a CON
      one, and lands in the last row's CON cell; the earlier rows stay as
      they were. A repeated or empty one changes nothing. */
  lemma SeeConRecords(v: View, currentCon: string)
    ensures currentCon == "" || currentCon == v.prevCon ==> SeeCon(v, currentCon) == v
    ensures currentCon != "" && currentCon != v.prevCon ==>
      var w := SeeCon(v, currentCon);
      && w.messages == v.messages + [ChatMessage(ConSpeaker, currentCon)]
      && Said(w.messages, ConSpeaker) == Said(v.messages, ConSpeaker) + [currentCon]
      && Said(w.messages, ProSpeaker) == Said(v.messages, ProSpeaker)
      && |w.transcript| == (if v.transcript == [] then 1 else |v.transcript|)
      && w.transcript[|w.transcript| - 1].con == currentCon
      && w.transcript[..|w.transcript| - 1] == (if v.transcript == [] then [] else v.transcript[..|v.transcript| - 1])
      && w.prevCon == currentCon
  {
    if currentCon != "" && currentCon != v.prevCon {
      var m := ChatMessage(ConSpeaker, currentCon);
      SaidAppend(v.messages, m, ConSpeaker);
      SaidAppend(v.messages, m, ProSpeaker);
    }
  }

  /** A new, non-empty PRO argument adds exactly one chat message, a PRO
      one, and opens a new last row holding it with an empty CON cell. A
      repeated or empty one changes nothing. */
  lemma SeeProRecords(v: View, currentPro: string)
    ensures currentPro == "" || currentPro == v.prevPro ==> SeePro(v, currentPro) == v
    ensures currentPro != "" && currentPro != v.prevPro ==>
      var w := SeePro(v, currentPro);
      && w.messages == v.messages + [ChatMessage(ProSpeaker, currentPro)]
      && Said(w.messages, ProSpeaker) == Said(v.messages, ProSpeaker) + [currentPro]
      && Said(w.messages, ConSpeaker) == Said(v.messages, ConSpeaker)
      && w.transcript == v.transcript + [Row(v.turnIdx + 1, currentPro, "")]
      && w.prevPro == currentPro
  {
    if currentPro != "" && currentPro != v.prevPro {
      var m := ChatMessage(ProSpeaker, currentPro);
      SaidAppend(v.messages, m, ConSpeaker);
      SaidAppend(v.messages, m, ProSpeaker);
    }
  }

  /** Each PRO message opens exactly one row; at most one more row exists,
      opened when CON was heard first. */
  lemma RowsPerProMessage(v: View)
    requires Shape(v)
    ensures |Said(v.messages, ProSpeaker)| <= |v.transcript| <= |Said(v.messages, ProSpeaker)| + 1
  {
  }

  /** A stream in which no snapshot carries a verdict never shows one: no
      moderator message is added and the fold consumes every snapshot. The
      agent nodes never write `moderator_verdict`, so a graph built from
      them alone produces such a stream. */
  lemma {:induction false} NoVerdictNoModeratorMessage(snaps: seq<State>, maxRounds: int, v: View)
    requires Shape(v) && Running(v)
    requires forall k :: 0 <= k < |snaps| ==> snaps[k].moderatorVerdict.None?
    ensures !Replay(snaps, maxRounds, v).stop
    ensures Said(Replay(snaps, maxRounds, v).view.messages, ModeratorSpeaker) == []
    decreases |snaps|
  {
    if snaps != [] {
      ObserveKeepsShape(v, snaps[0], maxRounds);
      var o := Observe(v, snaps[0], maxRounds);
      NoVerdictNoModeratorMessage(snaps[1..], maxRounds, o.view);
    }
  }

  // ---------------------------------------------------------------------
  // Placeholder exchange

  const PlaceholderVerdict := "After weighing clarity, evidence, and relevance, the Con side narrowly wins due to stronger risk analysis."

  /** `name or default`: only an empty name is replaced (no stripping here). */
  function DisplayName(name: string, default: string): string {
    if name != "" then name else default
  }

  const ProPlaceholderText := "In favor: AI can enhance learning with personalization."
  const ConPlaceholderText := "Against: Over-reliance on AI risks empathy and equity."

  /** `f"[Round {i}] ({name}) {text}"` */
  function PlaceholderLine(i: nat, name: string, text: string): string {
    "[Round " + NatToString(i) + "] (" + name + ") " + text
  }

  function ProPlaceholder(i: nat, proPersona: string): string {
    PlaceholderLine(i, DisplayName(proPersona, "Pro"), ProPlaceholderText)
  }

  function ConPlaceholder(i: nat, conPersona: string): string {
    PlaceholderLine(i, DisplayName(conPersona, "Con"), ConPlaceholderText)
  }

  /** The messages of rounds 1 to `n`. */
  function PlaceholderTurns(n: nat, proPersona: string, conPersona: string): (r: seq<ChatMessage>)
    ensures |r| == 2 * n
  {
    if n == 0 then []
    else PlaceholderTurns(n - 1, proPersona, conPersona)
         + [ChatMessage(ProSpeaker, ProPlaceholder(n, proPersona)), ChatMessage(ConSpeaker, ConPlaceholder(n, conPersona))]
  }

  /** The whole placeholder chat log for a budget of `maxRounds` turns. */
  function PlaceholderMessages(maxRounds: int, proPersona: string, conPersona: string): seq<ChatMessage> {
    PlaceholderTurns(Max(0, maxRounds), proPersona, conPersona) + [ChatMessage(ModeratorSpeaker, PlaceholderVerdict)]
  }

  /** Round `i` contributes the PRO line at position `2(i-1)` and the CON
      line right after it. */
  lemma {:induction false} PlaceholderTurnsAlternate(n: nat, proPersona: string, conPersona: string)
    ensures forall k :: 0 <= k < 2 * n ==>
      PlaceholderTurns(n, proPersona, conPersona)[k] ==
        if k % 2 == 0 then ChatMessage(ProSpeaker, ProPlaceholder(k / 2 + 1, proPersona))
        else ChatMessage(ConSpeaker, ConPlaceholder(k / 2 + 1, conPersona))
  {
    if n > 0 {
      PlaceholderTurnsAlternate(n - 1, proPersona, conPersona);
      var prev := PlaceholderTurns(n - 1, proPersona, conPersona);
      var r := PlaceholderTurns(n, proPersona, conPersona);
      forall k | 0 <= k < 2 * n
        ensures r[k] == if k % 2 == 0 then ChatMessage(ProSpeaker, ProPlaceholder(k / 2 + 1, proPersona))
                        else ChatMessage(ConSpeaker, ConPlaceholder(k / 2 + 1, conPersona))
      {
        if k < 2 * (n - 1) {
          assert r[k] == prev[k];
        } else if k == 2 * (n - 1) {
          assert k / 2 + 1 == n;
        } else {
          assert k / 2 + 1 == n;
        }
      }
    }
  }

  /** The placeholder chat log: `2n` messages for a budget of `n >= 0`
      turns, alternating PRO and CON from PRO and tagged with their round,
      then exactly one moderator message carrying the fixed verdict. */
  lemma PlaceholderScript(maxRounds: int, proPersona: string, conPersona: string)
    ensures var ms := PlaceholderMessages(maxRounds, proPersona, conPersona);
      var n := Max(0, maxRounds);
      |ms| == 2 * n + 1
      && ms[2 * n] == ChatMessage(ModeratorSpeaker, PlaceholderVerdict)
      && (forall k :: 0 <= k < 2 * n ==> ms[k].speaker == if k % 2 == 0 then ProSpeaker else ConSpeaker)
      && (forall k :: 0 <= k < 2 * n && k % 2 == 0 ==> ms[k].content == ProPlaceholder(k / 2 + 1, proPersona))
      && (forall k :: 0 <= k < 2 * n && k % 2 == 1 ==> ms[k].content == ConPlaceholder(k / 2 + 1, conPersona))
  {
    var n := Max(0, maxRounds);
    PlaceholderTurnsAlternate(n, proPersona, conPersona);
    var ms := PlaceholderMessages(maxRounds, proPersona, conPersona);
    var turns := PlaceholderTurns(n, proPersona, conPersona);
    assert forall k :: 0 <= k < 2 * n ==> ms[k] == turns[k];
  }

  // ---------------------------------------------------------------------
  // The session

  datatype Mode = Real | Placeholder

  /** What the graph's `stream` yields: its snapshots, and whether it raises
      once they are used up. */
  datatype Stream = Stream(snapshots: seq<State>, raises: bool)

  /** `st.session_state`: the lists the page renders and the verdict banner. */
  class Session {
    var transcript: seq<Row>
    var chatMessages: seq<ChatMessage>
    var moderatorVerdict: string
    var mode: Mode

    /** The session as first created on the page. */
    constructor ()
      ensures transcript == [] && chatMessages == [] && moderatorVerdict == "" && mode == Placeholder
    {
      transcript := [];
      chatMessages := [];
      moderatorVerdict := "";
      mode := Placeholder;
    }

    /** `run_real_debate`. `graph` is `None` when the graph cannot be
        imported, and otherwise gives the stream for an initial state. */
    method RunRealDebate(topic: string, maxRounds: int, proPersona: string, conPersona: string,
                         graph: Option<State -> Stream>) returns (ok: bool)
      modifies this
      ensures graph.None? ==> !ok && unchanged(this)
      ensures graph.Some? ==>
        var stream := graph.value(InitialState(topic, maxRounds, proPersona, conPersona));
        var o := Replay(stream.snapshots, maxRounds, StartView);
        && transcript == o.view.transcript && chatMessages == o.view.messages
        && moderatorVerdict == o.view.verdict
        && ok == (o.stop || !stream.raises)
      ensures mode == old(mode)
    {
      if graph.None? {
        return false;
      }
      var stream := graph.value(InitialState(topic, maxRounds, proPersona, conPersona));
      var snaps := stream.snapshots;
      transcript := [];
      chatMessages := [];
      moderatorVerdict := "";
      var prevPro, prevCon, turnIdx := "", "", 0;
      var i := 0;
      var stopped := false;
      while i < |snaps|
        invariant 0 <= i <= |snaps|
        invariant Replay(snaps, maxRounds, StartView)
          == Replay(snaps[i..], maxRounds, View(transcript, chatMessages, moderatorVerdict, prevPro, prevCon, turnIdx))
        invariant !stopped
        invariant mode == old(mode)
        decreases |snaps| - i
      {
        ghost var before := View(transcript, chatMessages, moderatorVerdict, prevPro, prevCon, turnIdx);
        var step := snaps[i];
        var currentRound := step.round;
        var currentPro := step.proArgument.GetOr("");
        var currentCon := step.conArgument.GetOr("");
        prevPro, turnIdx := HearPro(currentPro, prevPro, prevCon, turnIdx);
        prevCon, turnIdx := HearCon(currentCon, prevPro, prevCon, turnIdx);
        ghost var after := View(transcript, chatMessages, moderatorVerdict, prevPro, prevCon, turnIdx);
        ReplayUnfold(snaps, i, maxRounds, before);
        var verdict := step.moderatorVerdict;
        if verdict.Some? && verdict.value != "" && currentRound >= maxRounds {
          moderatorVerdict := verdict.value;
          chatMessages := chatMessages + [ChatMessage(ModeratorSpeaker, verdict.value)];
          assert Observe(before, step, maxRounds) == Outcome(SeeVerdict(after, verdict.value), true);
          stopped := true;
          break;
        }
        assert Observe(before, step, maxRounds) == Outcome(after, false);
        i := i + 1;
      }
      ok := stopped || !stream.raises;
    }

    /** The PRO half of the loop body: a new, non-empty PRO argument opens
        a numbered row and adds a PRO chat message. */
    method HearPro(currentPro: string, prevPro: string, prevCon: string, turnIdx: int)
      returns (newPrevPro: string, newTurnIdx: int)
      modifies this
      ensures View(transcript, chatMessages, moderatorVerdict, newPrevPro, prevCon, newTurnIdx)
        == SeePro(View(old(transcript), old(chatMessages), old(moderatorVerdict), prevPro, prevCon, turnIdx), currentPro)
      ensures mode == old(mode)
    {
      newPrevPro, newTurnIdx := prevPro, turnIdx;
      if currentPro != "" && currentPro != prevPro {
        newPrevPro := currentPro;
        newTurnIdx := turnIdx + 1;
        transcript := transcript + [Row(newTurnIdx, currentPro, "")];
        chatMessages := chatMessages + [ChatMessage(ProSpeaker, currentPro)];
      }
    }

    /** The CON half of the loop body: a new, non-empty CON argument fills
        the last row's CON slot, or opens a row when there is none, and adds
        a CON chat message. */
    method HearCon(currentCon: string, prevPro: string, prevCon: string, turnIdx: int)
      returns (newPrevCon: string, newTurnIdx: int)
      modifies this
      ensures View(transcript, chatMessages, moderatorVerdict, prevPro, newPrevCon, newTurnIdx)
        == SeeCon(View(old(transcript), old(chatMessages), old(moderatorVerdict), prevPro, prevCon, turnIdx), currentCon)
      ensures mode == old(mode)
    {
      newPrevCon, newTurnIdx := prevCon, turnIdx;
      if currentCon != "" && currentCon != prevCon {
        newPrevCon := currentCon;
        if transcript != [] {
          transcript := transcript[|transcript| - 1 := transcript[|transcript| - 1].(con := currentCon)];
        } else {
          newTurnIdx := turnIdx + 1;
          transcript := transcript + [Row(newTurnIdx, "", currentCon)];
        }
        chatMessages := chatMessages + [ChatMessage(ConSpeaker, currentCon)];
      }
    }

    /** The placeholder loop and verdict: appends the placeholder chat log. */
    method AppendPlaceholder(maxRounds: int, proPersona: string, conPersona: string)
      modifies this
      ensures chatMessages == old(chatMessages) + PlaceholderMessages(maxRounds, proPersona, conPersona)
      ensures moderatorVerdict == PlaceholderVerdict
      ensures transcript == old(transcript) && mode == old(mode)
    {
      ghost var start := chatMessages;
      var n := Max(0, maxRounds);
      for i := 1 to n + 1
        invariant chatMessages == start + PlaceholderTurns(i - 1, proPersona, conPersona)
        invariant transcript == old(transcript) && mode == old(mode)
      {
        var pro := ChatMessage(ProSpeaker, ProPlaceholder(i, proPersona));
        var con := ChatMessage(ConSpeaker, ConPlaceholder(i, conPersona));
        chatMessages := chatMessages + [pro];
        chatMessages := chatMessages + [con];
      }
      moderatorVerdict := PlaceholderVerdict;
      chatMessages := chatMessages + [ChatMessage(ModeratorSpeaker, PlaceholderVerdict)];
    }

    /** Pressing "Start Debate": reset, try the real debate, fall back to
        the placeholder exchange when it fails, and record the mode. A real
        run that fails part-way keeps the messages it had already added,
        and the placeholder exchange follows them. */
    method Start(topic: string, maxRounds: int, proPersona: string, conPersona: string,
                 graph: Option<State -> Stream>)
      modifies this
      ensures graph.None? ==>
        && transcript == [] && chatMessages == PlaceholderMessages(maxRounds, proPersona, conPersona)
        && moderatorVerdict == PlaceholderVerdict && mode == Placeholder
      ensures graph.Some? ==>
        var stream := graph.value(InitialState(topic, maxRounds, proPersona, conPersona));
        var o := Replay(stream.snapshots, maxRounds, StartView);
        var ok := o.stop || !stream.raises;
        && transcript == o.view.transcript
        && chatMessages == o.view.messages + (if ok then [] else PlaceholderMessages(maxRounds, proPersona, conPersona))
        && moderatorVerdict == (if ok then o.view.verdict else PlaceholderVerdict)
        && mode == (if ok then Real else Placeholder)
    {
      chatMessages := [];
      transcript := [];
      moderatorVerdict := "";
      var success := RunRealDebate(topic, maxRounds, proPersona, conPersona, graph);
      if !success {
        AppendPlaceholder(maxRounds, proPersona, conPersona);
      }
      mode := if success then Real else Placeholder;
    }
  }
}
