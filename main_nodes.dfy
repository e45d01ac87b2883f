/** main.py: the first version of the three nodes. Its prompts carry no
    personas, and its PRO and CON updates set neither the speaker nor the
    round. */
module MainNodes {
  import opened Common
  import opened DebateState

  /** The prompt inputs of a turn in main.py. */
  datatype BarePrompt = BarePrompt(topic: string, opponentArgument: string, history: seq<Message>)

  function ProPrompt(s: State): (p: BarePrompt)
    ensures p.topic == s.topic
    ensures p.opponentArgument == if s.conArgument.Some? then s.conArgument.value else NoPriorArgument
    ensures |p.history| == Min(4, |s.chatHistory|)
    ensures p.history == s.chatHistory[|s.chatHistory| - |p.history|..]
  {
    BarePrompt(s.topic, s.conArgument.GetOr(NoPriorArgument), HistoryWindow(s.chatHistory))
  }

  function ConPrompt(s: State): (p: BarePrompt)
    ensures p.topic == s.topic
    ensures p.opponentArgument == if s.proArgument.Some? then s.proArgument.value else NoPriorArgument
    ensures |p.history| == Min(4, |s.chatHistory|)
    ensures p.history == s.chatHistory[|s.chatHistory| - |p.history|..]
  {
    BarePrompt(s.topic, s.proArgument.GetOr(NoPriorArgument), HistoryWindow(s.chatHistory))
  }

  /** PRO: the reply becomes `pro_argument` and one history message. */
  function ProNode(s: State, llm: BarePrompt -> string): (d: Delta)
    ensures d.proArgument == Some(llm(ProPrompt(s)))
    ensures d.chatHistory == [Message(llm(ProPrompt(s)))]
    ensures d.currentSpeaker.None? && d.round.None?
    ensures d.conArgument.None? && d.moderatorVerdict.None?
  {
    var reply := llm(ProPrompt(s));
    Delta(Some(reply), None, None, [Message(reply)], None, None)
  }

  /** CON: the reply becomes `con_argument` and one history message. */
  function ConNode(s: State, llm: BarePrompt -> string): (d: Delta)
    ensures d.conArgument == Some(llm(ConPrompt(s)))
    ensures d.chatHistory == [Message(llm(ConPrompt(s)))]
    ensures d.currentSpeaker.None? && d.round.None?
    ensures d.proArgument.None? && d.moderatorVerdict.None?
  {
    var reply := llm(ConPrompt(s));
    Delta(None, Some(reply), None, [Message(reply)], None, None)
  }

  /** The moderator: one history message, nothing else. */
  function ModeratorNode(s: State, llm: VerdictPrompt -> string): (d: Delta)
    ensures d.chatHistory == [Message(llm(VerdictPromptOf(s)))]
    ensures d.proArgument.None? && d.conArgument.None?
    ensures d.currentSpeaker.None? && d.round.None? && d.moderatorVerdict.None?
  {
    HistoryOnly(llm(VerdictPromptOf(s)))
  }

  /** A PRO turn followed by a CON turn in main.py adds the two replies to
      the history in that order and leaves the speaker and the round where
      they were: these nodes never advance the debate's round counter. */
  lemma ExchangeKeepsRound(s: State, proLlm: BarePrompt -> string, conLlm: BarePrompt -> string)
    ensures var s1 := Apply(s, ProNode(s, proLlm));
      var t := Apply(s1, ConNode(s1, conLlm));
      t.round == s.round && t.currentSpeaker == s.currentSpeaker
      && t.chatHistory == s.chatHistory + [Message(proLlm(ProPrompt(s))), Message(conLlm(ConPrompt(s1)))]
      && t.proArgument == Some(proLlm(ProPrompt(s))) && t.conArgument == Some(conLlm(ConPrompt(s1)))
  {
  }
}
