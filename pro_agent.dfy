/** agents/pro_agent.py: the PRO turn. The chain call is the oracle `llm`,
    applied to the prompt inputs the node assembles. */
module ProAgent {
  import opened Common
  import opened DebateState

  /** The prompt inputs of a PRO turn: CON's last argument (or the
      placeholder), the last four history entries, and the personas with
      their "Pro"/"Con" defaults. */
  function ProPrompt(s: State): (p: TurnPrompt)
    ensures p.topic == s.topic
    ensures s.conArgument.None? ==> p.opponentArgument == NoPriorArgument
    ensures s.conArgument.Some? ==> p.opponentArgument == s.conArgument.value
    ensures |p.history| == Min(4, |s.chatHistory|)
    ensures p.history == s.chatHistory[|s.chatHistory| - |p.history|..]
    ensures p.ownPersona == if s.proPersona.Some? then s.proPersona.value else "Pro"
    ensures p.opponentPersona == if s.conPersona.Some? then s.conPersona.value else "Con"
  {
    TurnPrompt(s.topic, s.conArgument.GetOr(NoPriorArgument), HistoryWindow(s.chatHistory),
               s.proPersona.GetOr("Pro"), s.conPersona.GetOr("Con"))
  }

  /** The update a PRO turn returns: the reply becomes `pro_argument` and the
      one new history message, the floor passes to CON, and no round key is
      present. */
  function ProNode(s: State, llm: TurnPrompt -> string): (d: Delta)
    ensures d.proArgument == Some(llm(ProPrompt(s)))
    ensures d.chatHistory == [Message(llm(ProPrompt(s)))]
    ensures d.currentSpeaker == Some(Con)
    ensures d.round.None? && d.conArgument.None? && d.moderatorVerdict.None?
  {
    var reply := llm(ProPrompt(s));
    Delta(Some(reply), None, Some(Con), [Message(reply)], None, None)
  }

  /** The state after a PRO turn: one message more, CON to speak, the round
      and everything else as before. */
  lemma ProTurn(s: State, llm: TurnPrompt -> string)
    ensures var t := Apply(s, ProNode(s, llm));
      var reply := llm(ProPrompt(s));
      t == s.(proArgument := Some(reply), currentSpeaker := Con,
              chatHistory := s.chatHistory + [Message(reply)])
  {
  }
}
