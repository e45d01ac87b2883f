/** The shared debate record of debate_state.py and the way a node's
    partial update is merged into it: the fields a delta carries overwrite,
    its `chat_history` entries are appended after the existing ones. */
module DebateState {
  import opened Common

  /** The value of `current_speaker`: the nodes only ever write "pro" or "con". */
  datatype Side = Pro | Con

  /** A chat entry: the nodes append plain human messages holding a reply. */
  datatype Message = Message(content: string)

  /** The debate record. A key the code reads with `.get(key, default)` may
      be missing, so it is an `Option`; the personas are not declared in the
      record but the front end puts them in the initial state. */
  datatype State = State(
    topic: string,
    proArgument: Option<string>,
    conArgument: Option<string>,
    currentSpeaker: Side,
    chatHistory: seq<Message>,
    round: int,
    maxRounds: int,
    moderatorVerdict: Option<string>,
    proPersona: Option<string>,
    conPersona: Option<string>)

  /** The partial update a node returns: `None` for a key it leaves out. */
  datatype Delta = Delta(
    proArgument: Option<string>,
    conArgument: Option<string>,
    currentSpeaker: Option<Side>,
    chatHistory: seq<Message>,
    round: Option<int>,
    moderatorVerdict: Option<string>)

  function Overwrite<T>(old_value: T, update: Option<T>): T {
    if update.Some? then update.value else old_value
  }

  function OverwriteOption<T>(old_value: Option<T>, update: Option<T>): Option<T> {
    if update.Some? then update else old_value
  }

  /** The merge: delta fields overwrite, `chat_history` appends, and the
      fields no node writes (topic, round budget, personas) never change. */
  function Apply(s: State, d: Delta): (t: State)
    ensures t.chatHistory == s.chatHistory + d.chatHistory
    ensures t.topic == s.topic && t.maxRounds == s.maxRounds
    ensures t.proPersona == s.proPersona && t.conPersona == s.conPersona
    ensures d.round.None? ==> t.round == s.round
    ensures d.currentSpeaker.None? ==> t.currentSpeaker == s.currentSpeaker
    ensures d.proArgument.None? ==> t.proArgument == s.proArgument
    ensures d.conArgument.None? ==> t.conArgument == s.conArgument
    ensures d.moderatorVerdict.None? ==> t.moderatorVerdict == s.moderatorVerdict
    ensures d.round.Some? ==> t.round == d.round.value
    ensures d.currentSpeaker.Some? ==> t.currentSpeaker == d.currentSpeaker.value
    ensures d.proArgument.Some? ==> t.proArgument == d.proArgument
    ensures d.conArgument.Some? ==> t.conArgument == d.conArgument
    ensures d.moderatorVerdict.Some? ==> t.moderatorVerdict == d.moderatorVerdict
  {
    s.(proArgument := OverwriteOption(s.proArgument, d.proArgument),
       conArgument := OverwriteOption(s.conArgument, d.conArgument),
       currentSpeaker := Overwrite(s.currentSpeaker, d.currentSpeaker),
       chatHistory := s.chatHistory + d.chatHistory,
       round := Overwrite(s.round, d.round),
       moderatorVerdict := OverwriteOption(s.moderatorVerdict, d.moderatorVerdict))
  }

  /** The placeholder every node uses for a missing argument. */
  const NoPriorArgument := "No prior argument."

  /** The history a node shows its prompt: `chat_history[-4:]`. */
  function HistoryWindow(history: seq<Message>): (w: seq<Message>)
    ensures |w| == Min(4, |history|)
    ensures w == history[|history| - |w|..]
  {
    Tail(history, 4)
  }

  /** The prompt inputs of a PRO or CON turn in agents/: the opponent's last
      argument, the recent history and both personas. */
  datatype TurnPrompt = TurnPrompt(
    topic: string,
    opponentArgument: string,
    history: seq<Message>,
    ownPersona: string,
    opponentPersona: string)

  /** The prompt inputs of a moderator turn. */
  datatype VerdictPrompt = VerdictPrompt(
    topic: string,
    proArgument: string,
    conArgument: string,
    history: seq<Message>)

  /** The moderator's prompt inputs, shared by both moderator variants and
      by main.py: both final arguments with the placeholder default, and the
      recent history. */
  function VerdictPromptOf(s: State): (p: VerdictPrompt)
    ensures p.topic == s.topic
    ensures p.proArgument == if s.proArgument.Some? then s.proArgument.value else NoPriorArgument
    ensures p.conArgument == if s.conArgument.Some? then s.conArgument.value else NoPriorArgument
    ensures |p.history| == Min(4, |s.chatHistory|) && p.history == s.chatHistory[|s.chatHistory| - |p.history|..]
  {
    VerdictPrompt(s.topic, s.proArgument.GetOr(NoPriorArgument), s.conArgument.GetOr(NoPriorArgument), HistoryWindow(s.chatHistory))
  }

  /** A delta that carries one history message and nothing else. */
  function HistoryOnly(reply: string): Delta {
    Delta(None, None, None, [Message(reply)], None, None)
  }

  /** Merging a history-only delta appends the one message and changes no
      other field: round, speaker, arguments and verdict stay as they were. */
  lemma HistoryOnlyLeavesStateAlone(s: State, reply: string)
    ensures Apply(s, HistoryOnly(reply)) == s.(chatHistory := s.chatHistory + [Message(reply)])
  {
  }
}
