/** agents/moderator_agent.py: the judging turn. Its reply goes into the
    history only; `moderator_verdict` is declared in the record but this
    node never writes it. */
module ModeratorAgent {
  import opened DebateState

  /** The update the moderator returns: one history message holding the
      verdict text, and no other key. */
  function ModeratorNode(s: State, llm: VerdictPrompt -> string): (d: Delta)
    ensures d.chatHistory == [Message(llm(VerdictPromptOf(s)))]
    ensures d.proArgument.None? && d.conArgument.None?
    ensures d.currentSpeaker.None? && d.round.None?
    ensures d.moderatorVerdict.None?
  {
    HistoryOnly(llm(VerdictPromptOf(s)))
  }

  /** After the moderator's turn the history has grown by the verdict and
      nothing else changed, `moderator_verdict` included. */
  lemma ModeratorTurn(s: State, llm: VerdictPrompt -> string)
    ensures var t := Apply(s, ModeratorNode(s, llm));
      t == s.(chatHistory := s.chatHistory + [Message(llm(VerdictPromptOf(s)))])
      && t.moderatorVerdict == s.moderatorVerdict
  {
    HistoryOnlyLeavesStateAlone(s, llm(VerdictPromptOf(s)));
  }
}
