/** Which assistant message answers a say: read off a snapshot of the conversation that may have grown
    past the answer. */
module ChatAnswer {
  import opened Basics

  datatype Role = User | Custom | Assistant | OtherRole

  datatype Stop = NoStop | ToolUse | Errored | Aborted | Stopped

  /** `say` is the say id a chat injection carries in its details. */
  datatype Message = Message(role: Role, say: Option<string>, stop: Stop, paused: bool, text: string,
                             thoughts: seq<string>)

  datatype Outcome = Complete | Error | Abort

  datatype Answer = Answer(text: string, thinking: seq<string>, outcome: Outcome)

  /** Which messages open a generated turn is left open. */
  type Generated = Message -> bool

  predicate IsSettled(m: Message) {
    m.role.Assistant? && !m.stop.NoStop? && !m.stop.ToolUse? && !m.paused
  }

  predicate IsOrigin(m: Message, say: string) {
    m.role.Custom? && m.say == Some(say)
  }

  predicate OpensTurn(generated: Generated, m: Message) {
    m.role.User? || generated(m)
  }

  function Thoughts(m: Message): seq<string> {
    if m.role.Assistant? then m.thoughts else []
  }

  function LastOrigin(messages: seq<Message>, say: string): (i: int)
    ensures -1 <= i < |messages|
    ensures i >= 0 ==> IsOrigin(messages[i], say)
    ensures forall k :: i < k < |messages| ==> !IsOrigin(messages[k], say)
  {
    if messages == [] then -1
    else if IsOrigin(Last(messages), say) then |messages| - 1
    else LastOrigin(Front(messages), say)
  }

  /** The length of the stretch before the next turn's origin. */
  function OwnedLength(generated: Generated, messages: seq<Message>): (n: nat)
    ensures n <= |messages|
    ensures n < |messages| ==> OpensTurn(generated, messages[n])
    ensures forall k :: 0 <= k < n ==> !OpensTurn(generated, messages[k])
  {
    if messages == [] || OpensTurn(generated, messages[0]) then 0 else 1 + OwnedLength(generated, messages[1..])
  }

  function FirstSettled(messages: seq<Message>): (i: nat)
    ensures i <= |messages|
    ensures i < |messages| ==> IsSettled(messages[i])
    ensures forall k :: 0 <= k < i ==> !IsSettled(messages[k])
  {
    if messages == [] || IsSettled(messages[0]) then 0 else 1 + FirstSettled(messages[1..])
  }

  function AllThoughts(messages: seq<Message>): seq<string> {
    if messages == [] then [] else AllThoughts(Front(messages)) + Thoughts(Last(messages))
  }

  function OutcomeOf(m: Message): Outcome {
    match m.stop
    case Errored => Error
    case Aborted => Abort
    case _ => Complete
  }

  function Owned(generated: Generated, messages: seq<Message>, say: string): seq<Message> {
    var after := messages[LastOrigin(messages, say) + 1..];
    after[..OwnedLength(generated, after)]
  }

  /** What `noteChatTurnEnd` captures for a say, if it can. */
  function Capture(generated: Generated, messages: seq<Message>, say: string): Option<Answer> {
    if LastOrigin(messages, say) < 0 then None
    else
      var owned := Owned(generated, messages, say);
      var i := FirstSettled(owned);
      if i == |owned| then None
      else Some(Answer(owned[i].text, AllThoughts(owned[..i + 1]), OutcomeOf(owned[i])))
  }

  lemma LastOriginStays(messages: seq<Message>, more: seq<Message>, say: string)
    requires forall k :: 0 <= k < |more| ==> !IsOrigin(more[k], say)
    ensures LastOrigin(messages + more, say) == LastOrigin(messages, say)
  {
    var all := messages + more;
    assert forall k :: 0 <= k < |messages| ==> all[k] == messages[k];
    assert forall k :: |messages| <= k < |all| ==> all[k] == more[k - |messages|];
  }

  lemma OwnedGrows(generated: Generated, after: seq<Message>, more: seq<Message>)
    ensures after[..OwnedLength(generated, after)] <= (after + more)[..OwnedLength(generated, after + more)]
  {
    assert forall k :: 0 <= k < |after| ==> (after + more)[k] == after[k];
    assert OwnedLength(generated, after) <= OwnedLength(generated, after + more);
  }

  lemma FirstSettledStays(owned: seq<Message>, grown: seq<Message>)
    requires owned <= grown && FirstSettled(owned) < |owned|
    ensures FirstSettled(grown) == FirstSettled(owned)
  {
    assert forall k :: 0 <= k < |owned| ==> grown[k] == owned[k];
  }

  /** A captured answer does not depend on how late the snapshot is: messages appended since, unless
      they repeat the say's own origin, change neither text, nor thinking, nor outcome. */
  lemma CaptureIsStable(generated: Generated, messages: seq<Message>, more: seq<Message>, say: string)
    requires Capture(generated, messages, say).Some?
    requires forall k :: 0 <= k < |more| ==> !IsOrigin(more[k], say)
    ensures Capture(generated, messages + more, say) == Capture(generated, messages, say)
  {
    var owned, grown := Owned(generated, messages, say), Owned(generated, messages + more, say);
    OwnedStays(generated, messages, more, say);
    FirstSettledStays(owned, grown);
    var i := FirstSettled(owned);
    assert grown[..i + 1] == owned[..i + 1];
  }

  lemma AfterGrows(messages: seq<Message>, more: seq<Message>, from: nat)
    requires from <= |messages|
    ensures (messages + more)[from..] == messages[from..] + more
  {
  }

  lemma OwnedStays(generated: Generated, messages: seq<Message>, more: seq<Message>, say: string)
    requires forall k :: 0 <= k < |more| ==> !IsOrigin(more[k], say)
    ensures LastOrigin(messages + more, say) == LastOrigin(messages, say)
    ensures Owned(generated, messages, say) <= Owned(generated, messages + more, say)
  {
    LastOriginStays(messages, more, say);
    var o := LastOrigin(messages, say);
    AfterGrows(messages, more, o + 1);
    OwnedGrows(generated, messages[o + 1..], more);
  }

  /** The say's last origin, and the first settled assistant after it with no other turn opening between. */
  ghost predicate AnswerAt(generated: Generated, messages: seq<Message>, say: string, origin: nat, at: nat) {
    && origin < at < |messages| && messages[origin].role.Custom? && messages[origin].say == Some(say)
    && (forall k :: origin < k < |messages| ==> !(messages[k].role.Custom? && messages[k].say == Some(say)))
    && (forall k :: origin < k <= at ==> !messages[k].role.User? && !generated(messages[k]))
    && Finished(messages[at]) && forall k :: origin < k < at ==> !Finished(messages[k])
  }

  /** An assistant message that has stopped, neither for a tool nor to pause. */
  predicate Finished(m: Message) {
    m.role.Assistant? && (m.stop.Stopped? || m.stop.Errored? || m.stop.Aborted?) && !m.paused
  }

  /** What is captured is that assistant's text, the thinking of the messages up to it, and the outcome its
      stop reason says. */
  lemma CaptureIsOwned(generated: Generated, messages: seq<Message>, say: string) returns (origin: nat, at: nat)
    requires Capture(generated, messages, say).Some?
    ensures AnswerAt(generated, messages, say, origin, at)
    ensures Capture(generated, messages, say).value.text == messages[at].text
    ensures Capture(generated, messages, say).value.thinking == AllThoughts(messages[origin + 1..at + 1])
    ensures var outcome := Capture(generated, messages, say).value.outcome;
            && (outcome.Error? <==> messages[at].stop.Errored?)
            && (outcome.Abort? <==> messages[at].stop.Aborted?)
  {
    var owned := Owned(generated, messages, say);
    origin := LastOrigin(messages, say);
    at := origin + 1 + FirstSettled(owned);
    OwnedIsWindow(generated, messages, say);
    WindowUpTo(messages, owned, origin, at);
    CapturedFrom(generated, messages, say);
    OutcomeIs(owned[FirstSettled(owned)]);
    AnswerIsThere(generated, messages, say, owned, origin, at);
  }

  lemma OutcomeIs(m: Message)
    ensures (OutcomeOf(m).Error? <==> m.stop.Errored?) && (OutcomeOf(m).Abort? <==> m.stop.Aborted?)
  {
  }

  lemma CapturedFrom(generated: Generated, messages: seq<Message>, say: string)
    requires Capture(generated, messages, say).Some?
    ensures var owned := Owned(generated, messages, say);
            var i := FirstSettled(owned);
            i < |owned|
            && Capture(generated, messages, say)
               == Some(Answer(owned[i].text, AllThoughts(owned[..i + 1]), OutcomeOf(owned[i])))
  {
  }

  lemma AnswerIsThere(generated: Generated, messages: seq<Message>, say: string, owned: seq<Message>, origin: nat,
                      at: nat)
    requires origin == LastOrigin(messages, say) && origin + 1 + |owned| <= |messages|
    requires owned == messages[origin + 1..origin + 1 + |owned|]
    requires forall k :: 0 <= k < |owned| ==> !OpensTurn(generated, owned[k])
    requires at == origin + 1 + FirstSettled(owned) < origin + 1 + |owned|
    ensures AnswerAt(generated, messages, say, origin, at)
  {
    assert forall k :: origin < k < |messages| ==> !IsOrigin(messages[k], say);
    forall k | origin < k <= at ensures !OpensTurn(generated, messages[k]) && (IsSettled(messages[k]) ==> k == at) {
      assert messages[k] == owned[k - origin - 1];
    }
    assert messages[at] == owned[at - origin - 1];
  }

  /** There is something to capture exactly when there are such an origin and such an assistant. */
  lemma CapturedIff(generated: Generated, messages: seq<Message>, say: string)
    ensures Capture(generated, messages, say).Some?
            <==> exists origin: nat, at: nat :: AnswerAt(generated, messages, say, origin, at)
  {
    if Capture(generated, messages, say).Some? {
      var origin, at := CaptureIsOwned(generated, messages, say);
    } else if origin: nat, at: nat :| AnswerAt(generated, messages, say, origin, at) {
      SettledIsOwned(generated, messages, say, origin, at);
    }
  }

  lemma SettledIsOwned(generated: Generated, messages: seq<Message>, say: string, origin: nat, at: nat)
    requires AnswerAt(generated, messages, say, origin, at)
    ensures Capture(generated, messages, say).Some?
  {
    assert LastOrigin(messages, say) == origin;
    var after := messages[origin + 1..];
    var n := OwnedLength(generated, after);
    assert forall k :: 0 <= k < at - origin ==> after[k] == messages[origin + 1 + k];
    assert at - origin <= n;
    assert IsSettled(after[..n][at - origin - 1]);
  }

  lemma ThoughtsOfOne(m: Message)
    ensures AllThoughts([m]) == if m.role.Assistant? then m.thoughts else []
  {
    assert Front([m]) == [] && Last([m]) == m;
    assert AllThoughts([m]) == AllThoughts([]) + Thoughts(m);
  }

  /** The thinking of messages is that of the assistants among them, in order. */
  lemma {:induction false} ThoughtsConcat(a: seq<Message>, b: seq<Message>)
    ensures AllThoughts(a + b) == AllThoughts(a) + AllThoughts(b)
  {
    if b == [] {
      assert a + b == a;
    } else {
      ThoughtsConcat(a, Front(b));
      assert Front(a + b) == a + Front(b) && Last(a + b) == Last(b);
      var before, late, last := AllThoughts(a), AllThoughts(Front(b)), Thoughts(Last(b));
      assert before + (late + last) == (before + late) + last;
    }
  }

  lemma WindowUpTo(messages: seq<Message>, owned: seq<Message>, origin: nat, at: nat)
    requires origin + 1 + |owned| <= |messages| && owned == messages[origin + 1..origin + 1 + |owned|]
    requires origin < at < origin + 1 + |owned|
    ensures messages[origin + 1..at + 1] == owned[..at - origin]
    ensures forall k :: origin < k <= at ==> messages[k] == owned[k - origin - 1]
  {
  }

  lemma OwnedIsWindow(generated: Generated, messages: seq<Message>, say: string)
    requires LastOrigin(messages, say) >= 0
    ensures var o, owned := LastOrigin(messages, say), Owned(generated, messages, say);
            && o + 1 + |owned| <= |messages| && owned == messages[o + 1..o + 1 + |owned|]
            && forall k :: 0 <= k < |owned| ==> !OpensTurn(generated, owned[k])
  {
    var after := messages[LastOrigin(messages, say) + 1..];
    assert forall k :: 0 <= k < OwnedLength(generated, after) ==> !OpensTurn(generated, after[k]);
  }

  /** A repeated origin does change what is captured: the answer belongs to the last one. */
  lemma RepeatedOriginForgets(generated: Generated, messages: seq<Message>, say: string, again: Message)
    requires IsOrigin(again, say)
    ensures Capture(generated, messages + [again], say).None?
  {
    var all := messages + [again];
    assert all[|messages|] == again;
    assert LastOrigin(all, say) == |messages|;
    assert Owned(generated, all, say) == [];
  }
}
