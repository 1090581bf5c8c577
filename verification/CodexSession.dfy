/**
 * The end of a native Codex session. Turns may follow each other on their own while a native goal is
 * unfinished, so the session exits with zero only when no turn is active and no goal is left to do.
 */
module CodexSession {
  import opened Options

  datatype Goal = Pursued | Complete | UsageLimited | Stopped

  datatype TurnStatus = TurnCompleted | TurnInterrupted | TurnFailed

  /**
   * `replies` are answers to goal questions that have arrived and wait to be settled; `latest` is what
   * the server said last about the goal.
   */
  datatype State = State(activeTurn: Option<nat>, sawTurn: bool, hadGoal: bool, exit: Option<int>,
                         asked: nat, replies: seq<Option<Goal>>, latest: Option<Goal>)

  const FRESH := State(None, false, false, None, 0, [], None)

  datatype Message = TurnStarted(id: nat)
                   | GoalUpdated(goal: Goal)
                   | GoalCleared
                   | TurnEnded(ended: nat, status: TurnStatus)
                   | GoalReply(told: Option<Goal>)
                   | ReplySettles
                   | Breaks

  function Finish(s: State, code: int): State {
    if s.exit.Some? then s else s.(exit := Some(code))
  }

  function SettledOn(s: State, goal: Option<Goal>): State {
    var t := s.(hadGoal := s.hadGoal || goal.Some?);
    if t.activeTurn.Some? || goal == Some(Pursued) then t
    else if goal.Some? && goal != Some(Complete) then Finish(t, 1)
    else if goal.None? && t.hadGoal then Finish(t, 1)
    else if !t.sawTurn then t
    else Finish(t, 0)
  }

  /** A reply may be settled any time after it arrived: messages of the same chunk are handled before. */
  predicate Enabled(s: State, m: Message) {
    && s.exit.None?
    && (m.GoalReply? ==> s.asked > 0)
    && (m.ReplySettles? ==> s.replies != [])
  }

  function Handle(s: State, m: Message): State
    requires m.ReplySettles? ==> s.replies != []
    requires m.GoalReply? ==> s.asked > 0
  {
    match m
    case TurnStarted(id) => s.(activeTurn := Some(id), sawTurn := true)
    case GoalUpdated(goal) => SettledOn(s.(latest := Some(goal)), Some(goal))
    case GoalCleared => SettledOn(s.(latest := None), None)
    case TurnEnded(id, status) =>
      var t := if s.activeTurn == Some(id) then s.(activeTurn := None) else s;
      (match status
       case TurnCompleted => t.(asked := t.asked + 1)
       case TurnInterrupted => Finish(t, 130)
       case TurnFailed => Finish(t, 1))
    case GoalReply(goal) => s.(asked := s.asked - 1, replies := s.replies + [goal], latest := goal)
    case ReplySettles => SettledOn(s.(replies := s.replies[1..]), s.replies[0])
    case Breaks => Finish(s, 1)
  }

  predicate Runs(s: State, messages: seq<Message>, t: State)
    decreases |messages|
  {
    if messages == [] then s == t else Enabled(s, messages[0]) && Runs(Handle(s, messages[0]), messages[1..], t)
  }

  /** No turn is active, one was seen, and the last word on the goal is that there is none or that it is complete. */
  predicate Clean(s: State) {
    s.activeTurn.None? && s.sawTurn && (s.latest == Some(Complete) || (s.latest.None? && !s.hadGoal))
  }

  /** A reply that is settled is still the last word on the goal, or the last word is that it is complete. */
  predicate SettlesTheLastWord(s: State, m: Message) {
    m.ReplySettles? && s.replies != [] ==> s.latest == s.replies[0] || s.latest == Some(Complete)
  }

  /** The goal that a message tells, if it tells one: an update, its clearing, or a reply that is settled. */
  function Told(s: State, m: Message): Option<Option<Goal>> {
    match m
    case GoalUpdated(goal) => Some(Some(goal))
    case GoalCleared => Some(None)
    case ReplySettles => if s.replies == [] then None else Some(s.replies[0])
    case _ => None
  }

  /** Which messages end a session, and with what. */
  lemma EndsExactly(s: State, m: Message)
    requires Enabled(s, m)
    ensures var told, exit := Told(s, m), Handle(s, m).exit;
            && (exit == Some(0) <==>
                  && s.activeTurn.None? && s.sawTurn
                  && (told == Some(Some(Complete)) || (told == Some(None) && !s.hadGoal)))
            && (exit == Some(1) <==>
                  || m == Breaks || (m.TurnEnded? && m.status == TurnFailed)
                  || (s.activeTurn.None? && (told in {Some(Some(UsageLimited)), Some(Some(Stopped))}
                      || (told == Some(None) && s.hadGoal))))
            && (exit == Some(130) <==> m.TurnEnded? && m.status == TurnInterrupted)
            && (exit.Some? ==> exit.value in {0, 1, 130})
  {
    if Told(s, m).Some? {
      SettlesExactly(s, Told(s, m).value);
    }
  }

  lemma SettlesExactly(s: State, goal: Option<Goal>)
    requires s.exit.None?
    ensures var exit := SettledOn(s, goal).exit;
            && (exit == Some(0) <==> s.activeTurn.None? && s.sawTurn && (goal == Some(Complete) || (goal == None && !s.hadGoal)))
            && (exit == Some(1) <==>
                  s.activeTurn.None? && (goal in {Some(UsageLimited), Some(Stopped)} || (goal == None && s.hadGoal)))
            && (exit.Some? ==> exit.value in {0, 1})
  {
    if goal.Some? {
      assert goal.value.Pursued? || goal.value.Complete? || goal.value.UsageLimited? || goal.value.Stopped?;
    }
  }

  lemma RunsOn(s: State, m: Message, rest: seq<Message>, t: State)
    requires Enabled(s, m) && Runs(Handle(s, m), rest, t)
    ensures Runs(s, [m] + rest, t)
  {
  }

  /** So a session that never had a goal ends with zero behind its turn. */
  lemma SessionWithoutGoalEnds(id: nat) returns (t: State)
    ensures Runs(FRESH, [TurnStarted(id), TurnEnded(id, TurnCompleted), GoalReply(None), ReplySettles], t)
    ensures t.exit == Some(0) && Clean(t)
  {
    var s1 := Handle(FRESH, TurnStarted(id));
    var s2 := Handle(s1, TurnEnded(id, TurnCompleted));
    var s3 := Handle(s2, GoalReply(None));
    t := Handle(s3, ReplySettles);
    RunsOn(s3, ReplySettles, [], t);
    RunsOn(s2, GoalReply(None), [ReplySettles], t);
    RunsOn(s1, TurnEnded(id, TurnCompleted), [GoalReply(None), ReplySettles], t);
    RunsOn(FRESH, TurnStarted(id), [TurnEnded(id, TurnCompleted), GoalReply(None), ReplySettles], t);
  }

  /** The turn started last is active until it ends itself. */
  predicate Started(messages: seq<Message>, i: nat, id: nat)
    requires i < |messages|
  {
    messages[i] == TurnStarted(id)
    && forall j :: i < j < |messages| ==> !messages[j].TurnStarted? && !(messages[j].TurnEnded? && messages[j].ended == id)
  }

  lemma StartedShifts(init: seq<Message>, last: Message, id: nat)
    ensures (exists i :: 0 <= i < |init| + 1 && Started(init + [last], i, id)) <==>
              || last == TurnStarted(id)
              || (!last.TurnStarted? && !(last.TurnEnded? && last.ended == id)
                  && exists i :: 0 <= i < |init| && Started(init, i, id))
  {
    var all := init + [last];
    assert all[|init|] == last && forall j :: 0 <= j < |init| ==> all[j] == init[j];
    assert Started(all, |init|, id) <==> last == TurnStarted(id);
    forall i | 0 <= i < |init|
      ensures Started(all, i, id) <==> Started(init, i, id) && !last.TurnStarted? && !(last.TurnEnded? && last.ended == id)
    {
    }
  }

  lemma {:induction false} ActiveExactly(messages: seq<Message>, t: State, id: nat)
    requires Runs(FRESH, messages, t)
    ensures t.activeTurn == Some(id) <==> exists i :: 0 <= i < |messages| && Started(messages, i, id)
  {
    if messages != [] {
      var init, last := messages[..|messages| - 1], messages[|messages| - 1];
      var before := RunEndsWithItsExit(FRESH, messages, t);
      ActiveExactly(init, before, id);
      StartedShifts(init, last, id);
      assert messages == init + [last];
    }
  }

  function Count(messages: seq<Message>, counts: Message -> bool): nat {
    if messages == [] then 0
    else Count(messages[..|messages| - 1], counts) + if counts(messages[|messages| - 1]) then 1 else 0
  }

  const COMPLETES := (m: Message) => m.TurnEnded? && m.status.TurnCompleted?
  const REPLIES := (m: Message) => m.GoalReply?
  const SETTLES := (m: Message) => m.ReplySettles?

  lemma CountsStep(s: State, m: Message)
    requires Enabled(s, m)
    ensures var t := Handle(s, m);
            && t.asked == s.asked + (if COMPLETES(m) then 1 else 0) - (if REPLIES(m) then 1 else 0)
            && |t.replies| == |s.replies| + (if REPLIES(m) then 1 else 0) - (if SETTLES(m) then 1 else 0)
            && t.sawTurn == (s.sawTurn || m.TurnStarted?)
  {
  }

  /** Every completed turn asks for the goal once, and every reply answers one question and is settled once. */
  lemma {:induction false} AskedOnce(messages: seq<Message>, t: State)
    requires Runs(FRESH, messages, t)
    ensures Count(messages, COMPLETES) == Count(messages, REPLIES) + t.asked
    ensures Count(messages, REPLIES) == Count(messages, SETTLES) + |t.replies|
    ensures t.sawTurn <==> exists m :: m in messages && m.TurnStarted?
  {
    if messages != [] {
      var init, last := messages[..|messages| - 1], messages[|messages| - 1];
      var before := RunEndsWithItsExit(FRESH, messages, t);
      AskedOnce(init, before);
      CountsStep(before, last);
      assert forall m :: m in messages <==> m in init || m == last;
    }
  }

  /** The message that ends a session with zero ends it clean exactly when it settles the last word. */
  lemma ZeroIsCleanExactly(s: State, m: Message)
    requires Enabled(s, m) && Handle(s, m).exit == Some(0)
    ensures Clean(Handle(s, m)) <==> SettlesTheLastWord(s, m)
  {
  }

  lemma {:induction false} RunEndsWithItsExit(s: State, messages: seq<Message>, t: State) returns (before: State)
    requires Runs(s, messages, t) && messages != []
    ensures Runs(s, messages[..|messages| - 1], before) && Enabled(before, messages[|messages| - 1])
    ensures t == Handle(before, messages[|messages| - 1])
    decreases |messages|
  {
    if |messages| == 1 {
      before := s;
    } else {
      before := RunEndsWithItsExit(Handle(s, messages[0]), messages[1..], t);
      assert messages[1..][..|messages| - 2] == messages[..|messages| - 1][1..];
    }
  }

  /** A whole session that exits with zero is done exactly when its last message settled the last word on the goal. */
  lemma ZeroMeansDoneExactly(messages: seq<Message>, t: State) returns (before: State)
    requires Runs(FRESH, messages, t) && t.exit == Some(0)
    ensures messages != [] && Runs(FRESH, messages[..|messages| - 1], before) && Enabled(before, messages[|messages| - 1])
    ensures Clean(t) <==> SettlesTheLastWord(before, messages[|messages| - 1])
  {
    before := RunEndsWithItsExit(FRESH, messages, t);
    ZeroIsCleanExactly(before, messages[|messages| - 1]);
  }

  /** Replies are settled before anything else is handled. */
  predicate Prompt(s: State, messages: seq<Message>)
    decreases |messages|
  {
    messages == [] ||
    (Enabled(s, messages[0]) && (messages[0].ReplySettles? || s.replies == []) && Prompt(Handle(s, messages[0]), messages[1..]))
  }

  /** A waiting reply is the last word on the goal, and an exit with zero was clean. */
  predicate InOrder(s: State) {
    && (s.exit == Some(0) ==> Clean(s))
    && (s.replies != [] ==> |s.replies| == 1 && s.replies[0] == s.latest)
  }

  lemma StepStaysInOrder(s: State, m: Message)
    requires InOrder(s) && Enabled(s, m) && (m.ReplySettles? || s.replies == [])
    ensures InOrder(Handle(s, m))
  {
  }

  lemma {:induction false} PromptStaysInOrder(s: State, messages: seq<Message>, t: State)
    requires InOrder(s) && Runs(s, messages, t) && Prompt(s, messages)
    ensures InOrder(t)
    decreases |messages|
  {
    if messages != [] {
      StepStaysInOrder(s, messages[0]);
      PromptStaysInOrder(Handle(s, messages[0]), messages[1..], t);
    }
  }

  /** So no session exits early whose replies arrive in chunks of their own. */
  lemma PromptSessionsAreDone(messages: seq<Message>, t: State)
    requires Runs(FRESH, messages, t) && Prompt(FRESH, messages) && t.exit == Some(0)
    ensures t.activeTurn == None && t.sawTurn && (t.latest == Some(Complete) || (t.latest == None && !t.hadGoal))
  {
    PromptStaysInOrder(FRESH, messages, t);
  }

  /** A reply that is settled after a newer word on the goal ends the session while that goal is pursued. */
  lemma LateReplyEndsAGoal()
    ensures exists messages, s :: Runs(FRESH, messages, s) && s.exit == Some(0) && s.latest == Some(Pursued)
  {
    var s1 := Handle(FRESH, TurnStarted(1));
    var s2 := Handle(s1, TurnEnded(1, TurnCompleted));
    var s3 := Handle(s2, GoalReply(Some(Complete)));
    var s4 := Handle(s3, GoalUpdated(Pursued));
    var s5 := Handle(s4, ReplySettles);
    RunsOn(s4, ReplySettles, [], s5);
    RunsOn(s3, GoalUpdated(Pursued), [ReplySettles], s5);
    RunsOn(s2, GoalReply(Some(Complete)), [GoalUpdated(Pursued), ReplySettles], s5);
    RunsOn(s1, TurnEnded(1, TurnCompleted), [GoalReply(Some(Complete)), GoalUpdated(Pursued), ReplySettles], s5);
    RunsOn(FRESH, TurnStarted(1),
        [TurnEnded(1, TurnCompleted), GoalReply(Some(Complete)), GoalUpdated(Pursued), ReplySettles], s5);
  }

  class Session {
    var activeTurn: Option<nat>
    var sawTurn: bool
    var hadGoal: bool
    var exit: Option<int>
    var asked: nat
    var replies: seq<Option<Goal>>
    ghost var latest: Option<Goal>

    constructor ()
      ensures Now() == FRESH
    {
      activeTurn, sawTurn, hadGoal, exit, asked, replies, latest := None, false, false, None, 0, [], None;
    }

    ghost function Now(): State
      reads this
    {
      State(activeTurn, sawTurn, hadGoal, exit, asked, replies, latest)
    }

    method Settle(goal: Option<Goal>)
      modifies this`hadGoal, this`exit
      ensures Now() == SettledOn(old(Now()), goal)
    {
      if goal.Some? {
        hadGoal := true;
      }
      if activeTurn.Some? || goal == Some(Pursued) {
        return;
      }
      var code := if goal.Some? && goal.value != Complete then Some(1) else if goal.None? && hadGoal then Some(1)
          else if sawTurn then Some(0) else None;
      if exit.None? {
        exit := code;
      }
    }

    method Receive(m: Message)
      requires m.ReplySettles? ==> replies != []
      requires m.GoalReply? ==> asked > 0
      modifies this
      ensures Now() == Handle(old(Now()), m)
    {
      match m
      case TurnStarted(id) => activeTurn, sawTurn := Some(id), true;
      case GoalUpdated(goal) =>
        latest := Some(goal);
        Settle(Some(goal));
      case GoalCleared =>
        latest := None;
        Settle(None);
      case TurnEnded(id, status) =>
        if activeTurn == Some(id) {
          activeTurn := None;
        }
        if status.TurnCompleted? {
          asked := asked + 1;
        } else if exit.None? {
          exit := Some(if status.TurnInterrupted? then 130 else 1);
        }
      case GoalReply(goal) =>
        asked, replies, latest := asked - 1, replies + [goal], goal;
      case ReplySettles =>
        var goal := replies[0];
        replies := replies[1..];
        Settle(goal);
      case Breaks =>
        if exit.None? {
          exit := Some(1);
        }
    }
  }
}
