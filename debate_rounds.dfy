/** What the node updates of agents/ add up to when they are merged one
    after another. The order of turns is decided by a router that is not
    part of this model, so any sequence of turns is allowed here. */
module DebateRounds {
  import opened DebateState
  import ProAgent
  import ConAgent
  import ModeratorAgent

  datatype Turn = ProTurn | ConTurn | ModeratorTurn

  /** The three chains, as oracles from prompt inputs to reply text. */
  datatype Replies = Replies(
    pro: TurnPrompt -> string,
    con: TurnPrompt -> string,
    moderator: VerdictPrompt -> string)

  /** One node runs and its update is merged into the state. */
  function Step(s: State, turn: Turn, r: Replies): State {
    match turn
    case ProTurn => Apply(s, ProAgent.ProNode(s, r.pro))
    case ConTurn => Apply(s, ConAgent.ConNode(s, r.con))
    case ModeratorTurn => Apply(s, ModeratorAgent.ModeratorNode(s, r.moderator))
  }

  /** The nodes named by `turns` run in order. */
  function Run(s: State, turns: seq<Turn>, r: Replies): State
    decreases |turns|
  {
    if turns == [] then s else Run(Step(s, turns[0], r), turns[1..], r)
  }

  function CountOf(turns: seq<Turn>, turn: Turn): nat {
    if turns == [] then 0 else (if turns[0] == turn then 1 else 0) + CountOf(turns[1..], turn)
  }

  /** Whatever the order of turns: each turn adds exactly one history entry
      after the existing ones, the round grows by the number of CON turns
      only, and no turn ever writes `moderator_verdict`, the topic, the
      round budget or the personas. */
  lemma {:induction false} RunInvariant(s: State, turns: seq<Turn>, r: Replies)
    ensures var u := Run(s, turns, r);
      u.round == s.round + CountOf(turns, ConTurn)
      && |u.chatHistory| == |s.chatHistory| + |turns|
      && u.chatHistory[..|s.chatHistory|] == s.chatHistory
      && u.moderatorVerdict == s.moderatorVerdict
      && u.topic == s.topic && u.maxRounds == s.maxRounds
      && u.proPersona == s.proPersona && u.conPersona == s.conPersona
    decreases |turns|
  {
    if turns != [] {
      var s1 := Step(s, turns[0], r);
      RunInvariant(s1, turns[1..], r);
      var u := Run(s, turns, r);
      assert u == Run(s1, turns[1..], r);
      assert s1.chatHistory[..|s.chatHistory|] == s.chatHistory;
      assert u.chatHistory[..|s.chatHistory|] == u.chatHistory[..|s1.chatHistory|][..|s.chatHistory|];
    }
  }

  /** `k` exchanges: PRO, then CON, `k` times. */
  function Exchanges(k: nat): (turns: seq<Turn>)
    ensures |turns| == 2 * k
  {
    if k == 0 then [] else [ProTurn, ConTurn] + Exchanges(k - 1)
  }

  /** In `k` exchanges PRO speaks at the even positions and CON at the odd
      ones, so there are exactly `k` CON turns. */
  lemma {:induction false} ExchangesAlternate(k: nat)
    ensures forall i :: 0 <= i < 2 * k ==> Exchanges(k)[i] == if i % 2 == 0 then ProTurn else ConTurn
    ensures CountOf(Exchanges(k), ConTurn) == k
  {
    if k > 0 {
      ExchangesAlternate(k - 1);
      var e := Exchanges(k);
      assert e[1..] == [ConTurn] + Exchanges(k - 1);
      assert e[1..][1..] == Exchanges(k - 1);
      forall i | 2 <= i < 2 * k
        ensures e[i] == if i % 2 == 0 then ProTurn else ConTurn
      {
        assert e[i] == Exchanges(k - 1)[i - 2];
      }
    }
  }

  /** After `k >= 1` exchanges the round has grown by `k`, the history by
      `2k`, PRO has the floor again, and the history ends with PRO's and then
      CON's latest argument. */
  lemma {:induction false} ExchangesAdvanceRounds(s: State, k: nat, r: Replies)
    requires k >= 1
    ensures var u := Run(s, Exchanges(k), r);
      u.round == s.round + k
      && |u.chatHistory| == |s.chatHistory| + 2 * k
      && u.currentSpeaker == Pro
      && u.proArgument.Some? && u.conArgument.Some?
      && u.chatHistory[|u.chatHistory| - 2] == Message(u.proArgument.value)
      && u.chatHistory[|u.chatHistory| - 1] == Message(u.conArgument.value)
    decreases k
  {
    var e := Exchanges(k);
    var s1 := Step(s, ProTurn, r);
    var s2 := Step(s1, ConTurn, r);
    assert e[1..] == [ConTurn] + Exchanges(k - 1);
    assert Run(s, e, r) == Run(s2, Exchanges(k - 1), r);
    if k == 1 {
      assert Run(s2, [], r) == s2;
    } else {
      ExchangesAdvanceRounds(s2, k - 1, r);
    }
  }

  /** The debate as the front end starts it (round 0, empty history, PRO to
      speak, no verdict): after `k` exchanges the round is `k`, the history
      holds `2k` messages, PRO speaks next, and still no verdict is set. */
  lemma FromTheStart(s: State, k: nat, r: Replies)
    requires s.round == 0 && s.chatHistory == [] && s.currentSpeaker == Pro && s.moderatorVerdict.None?
    ensures var u := Run(s, Exchanges(k), r);
      u.round == k && |u.chatHistory| == 2 * k && u.currentSpeaker == Pro && u.moderatorVerdict.None?
  {
    RunInvariant(s, Exchanges(k), r);
    ExchangesAlternate(k);
    if k >= 1 {
      ExchangesAdvanceRounds(s, k, r);
    }
  }

  /** A closing moderator turn adds the verdict text to the history only:
      `moderator_verdict` is unset after any debate that started without one. */
  lemma VerdictStaysUnset(s: State, turns: seq<Turn>, r: Replies)
    requires s.moderatorVerdict.None?
    ensures Run(s, turns + [ModeratorTurn], r).moderatorVerdict.None?
  {
    RunInvariant(s, turns + [ModeratorTurn], r);
  }
}
