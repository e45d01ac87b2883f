/** agents/con_agent.py: the CON turn, the only node that advances the round. */
module ConAgent {
  import opened Common
  import opened DebateState

  /** The prompt inputs of a CON turn: PRO's last argument (or the
      placeholder), the last four history entries, and the personas with
      their "Con"/"Pro" defaults. */
  function ConPrompt(s: State): (p: TurnPrompt)
    ensures p.topic == s.topic
    ensures s.proArgument.None? ==> p.opponentArgument == NoPriorArgument
    ensures s.proArgument.Some? ==> p.opponentArgument == s.proArgument.value
    ensures |p.history| == Min(4, |s.chatHistory|)
    ensures p.history == s.chatHistory[|s.chatHistory| - |p.history|..]
    ensures p.ownPersona == if s.conPersona.Some? then s.conPersona.value else "Con"
    ensures p.opponentPersona == if s.proPersona.Some? then s.proPersona.value else "Pro"
  {
    TurnPrompt(s.topic, s.proArgument.GetOr(NoPriorArgument), HistoryWindow(s.chatHistory),
               s.conPersona.GetOr("Con"), s.proPersona.GetOr("Pro"))
  }

  /** The update a CON turn returns: the reply becomes `con_argument` and the
      one new history message, the floor passes back to PRO, and the round
      is the incoming one plus one. */
  function ConNode(s: State, llm: TurnPrompt -> string): (d: Delta)
    ensures d.conArgument == Some(llm(ConPrompt(s)))
    ensures d.chatHistory == [Message(llm(ConPrompt(s)))]
    ensures d.currentSpeaker == Some(Pro)
    ensures d.round == Some(s.round + 1)
    ensures d.proArgument.None? && d.moderatorVerdict.None?
  {
    var reply := llm(ConPrompt(s));
    Delta(None, Some(reply), Some(Pro), [Message(reply)], Some(s.round + 1), None)
  }

  /** The state after a CON turn: one message more, PRO to speak, one round
      further, PRO's argument and the verdict as before. */
  lemma ConTurn(s: State, llm: TurnPrompt -> string)
    ensures var t := Apply(s, ConNode(s, llm));
      var reply := llm(ConPrompt(s));
      t == s.(conArgument := Some(reply), currentSpeaker := Pro, round := s.round + 1,
              chatHistory := s.chatHistory + [Message(reply)])
  {
  }
}
