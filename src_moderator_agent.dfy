/** src/agents/moderator_agent.py: the earlier moderator. Its instructions
    differ, which the oracle `llm` absorbs; the inputs it reads and the
    update it returns are those of the current moderator. */
module SrcModeratorAgent {
  import opened Common
  import opened DebateState
  import ModeratorAgent

  /** The update: one history message with the reply, nothing else. */
  function ModeratorNode(s: State, llm: VerdictPrompt -> string): (d: Delta)
    ensures d.chatHistory == [Message(llm(VerdictPromptOf(s)))]
    ensures d.proArgument.None? && d.conArgument.None?
    ensures d.currentSpeaker.None? && d.round.None? && d.moderatorVerdict.None?
  {
    Delta(None, None, None, [Message(llm(VerdictPromptOf(s)))], None, None)
  }

  /** Given the same reply, both moderator variants return the same update. */
  lemma AgreesWithCurrentModerator(s: State, llm: VerdictPrompt -> string)
    ensures ModeratorNode(s, llm) == ModeratorAgent.ModeratorNode(s, llm)
  {
  }

  /** Its turn changes nothing but the history. */
  lemma ModeratorTurn(s: State, llm: VerdictPrompt -> string)
    ensures Apply(s, ModeratorNode(s, llm))
      == s.(chatHistory := s.chatHistory + [Message(llm(VerdictPromptOf(s)))])
  {
    HistoryOnlyLeavesStateAlone(s, llm(VerdictPromptOf(s)));
  }
}
