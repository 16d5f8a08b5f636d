/** The broadcast ("spam") controller of main.js: the globals `stopSpam` and
    `spamInitiatorId`, the stop branch of the message pipeline, and the
    repeat-send loop of handleSpamCommand. */
module Broadcast {
  import opened Text
  import opened Outbound
  import opened SpamArgs

  const Usage := "Spam command format is incorrect. Correct format: !spam [@user] \"<message>\" <count>"
  const CountRange := "Spam count should be between 1 and 20."
  const Complete := "Spam complete! Now everyone will sit in peace."
  const NothingToStop := "No spam is running, what to stop?"
  const Stopped := "Okay, spam has been stopped."
  const OnlyInitiatorPrefix := "Only the person who started the spam can stop it. Initiator: @"

  /** `spamInitiatorId` is truthy: a broadcast was started and not cancelled. */
  predicate IsSet(initiator: Option<string>) {
    Truthy(initiator)
  }

  /** The two globals. */
  datatype State = State(stopSpam: bool, initiator: Option<string>)

  /** A stop request reaching the stop branch: the chat it was sent in and its sender. */
  datatype StopMessage = StopMessage(jid: string, sender: string)

  /** The reply of the stop branch and whether it raises `stopSpam`. */
  datatype StopOutcome = StopOutcome(reply: Action, raisesStop: bool)

  /** The stop branch (main.js:262-276) for a sender, given the current initiator. */
  function StopBranch(initiator: Option<string>, sender: string, jid: string): (r: StopOutcome)
    ensures r.raisesStop <==> IsSet(initiator) && initiator.value == sender
    ensures !IsSet(initiator) ==> r.reply == Send(jid, NothingToStop, [])
    ensures r.raisesStop ==> r.reply == Send(jid, Stopped, [])
    ensures IsSet(initiator) && initiator.value != sender ==>
              r.reply.Send? && r.reply.jid == jid && r.reply.mentions == [initiator.value]
              && StartsWith(r.reply.text, OnlyInitiatorPrefix)
              && r.reply.text == OnlyInitiatorPrefix + Before(initiator.value, '@')
  {
    if !IsSet(initiator) then StopOutcome(Send(jid, NothingToStop, []), false)
    else if initiator.value == sender then StopOutcome(Send(jid, Stopped, []), true)
    else
      var text := OnlyInitiatorPrefix + Before(initiator.value, '@');
      assert text[..|OnlyInitiatorPrefix|] == OnlyInitiatorPrefix;
      StopOutcome(Send(jid, text, [initiator.value]), false)
  }

  /** Only the initiator can stop a broadcast: the stop branch never clears
      the flag, and raises it only for the current initiator. */
  lemma StopOnlyByInitiator(st: State, m: StopMessage)
    ensures var o := StopBranch(st.initiator, m.sender, m.jid);
            (st.stopSpam || o.raisesStop) != st.stopSpam ==> st.initiator == Some(m.sender)
  {
  }

  /** State and replies after a stop request arrives during a pause of the loop. */
  function AfterStop(st: State, m: StopMessage): (r: (State, Action))
    ensures r.0.initiator == st.initiator
    ensures r.0.stopSpam <==> st.stopSpam || (IsSet(st.initiator) && st.initiator.value == m.sender)
    ensures r.1.Send? && r.1.jid == m.jid
    ensures r.1 == StopBranch(st.initiator, m.sender, m.jid).reply
  {
    var o := StopBranch(st.initiator, m.sender, m.jid);
    (State(st.stopSpam || o.raisesStop, st.initiator), o.reply)
  }

  /** The loop of main.js:671-679 from iteration `i` on. `arrivals[k]`, when
      present, is a stop request handled during the pause after send `k`;
      its reply joins the output stream at that point. */
  function SpamLoop(jid: string, text: string, mentions: seq<string>, count: nat,
                    arrivals: seq<Option<StopMessage>>, i: nat, st: State, out: seq<Action>): (r: (seq<Action>, State))
    ensures |out| <= |r.0| <= |out| + 2 * (if i < count then count - i else 0) && r.0[..|out|] == out
    ensures r.1.initiator == st.initiator || r.1 == State(false, None)
    decreases count - i
  {
    if i >= count then (out, st)
    else if st.stopSpam then (out, State(false, None))
    else
      var sent := out + [Send(jid, text, mentions)];
      if i < |arrivals| && arrivals[i].Some? then
        var (st', reply) := AfterStop(st, arrivals[i].value);
        SpamLoop(jid, text, mentions, count, arrivals, i + 1, st', sent + [reply])
      else
        SpamLoop(jid, text, mentions, count, arrivals, i + 1, st, sent)
  }

  /** handleSpamCommand (main.js:642-684): the messages it sends and the globals after it. */
  function SpamCommand(st: State, jid: string, participant: Option<string>, args: string,
                       arrivals: seq<Option<StopMessage>>): (r: (seq<Action>, State))
    ensures 1 <= |r.0| <= 2 * MaxSpamCount + 1
    ensures r.1 == st || r.1.initiator == participant || r.1 == State(false, None)
    ensures r.1 != st ==> IsGroup(jid) && ParseSpamArgs(args).Accepted?
  {
    if !IsGroup(jid) then ([Send(jid, OnlyInGroups, [])], st)
    else
      match ParseSpamArgs(args)
      case Malformed => ([Send(jid, Usage, [])], st)
      case OutOfRange => ([Send(jid, CountRange, [])], st)
      case Accepted(text, mentions, count) =>
        var (out, st') := SpamLoop(jid, text, mentions, count, arrivals, 0, State(false, participant), []);
        (if !st'.stopSpam then out + [Send(jid, Complete, [])] else out, st')
  }

  /** `count` copies of the same action. */
  function Repeat(a: Action, count: nat): (r: seq<Action>)
    ensures |r| == count && forall k :: 0 <= k < count ==> r[k] == a
  {
    if count == 0 then [] else Repeat(a, count - 1) + [a]
  }

  /** Out of a group, with malformed arguments or with a count out of range the
      command sends exactly one explanation and leaves both globals untouched. */
  lemma RejectedLeavesState(st: State, jid: string, participant: Option<string>, args: string,
                            arrivals: seq<Option<StopMessage>>)
    requires !IsGroup(jid) || !ParseSpamArgs(args).Accepted?
    ensures var (out, st') := SpamCommand(st, jid, participant, args, arrivals);
            st' == st && |out| == 1
            && out[0] == Send(jid, if !IsGroup(jid) then OnlyInGroups
                                   else if ParseSpamArgs(args).Malformed? then Usage else CountRange, [])
  {
  }

  /** There is no guard against a second broadcast: what the command sends does
      not depend on whether one is already running, and an accepted command
      overwrites the initiator whatever it was. */
  lemma {:induction false} NoSecondRunGuard(st1: State, st2: State, jid: string, participant: Option<string>,
                                            args: string, arrivals: seq<Option<StopMessage>>)
    ensures SpamCommand(st1, jid, participant, args, arrivals).0 == SpamCommand(st2, jid, participant, args, arrivals).0
    ensures IsGroup(jid) && ParseSpamArgs(args).Accepted? ==>
              SpamCommand(st1, jid, participant, args, arrivals) == SpamCommand(st2, jid, participant, args, arrivals)
  {
  }

  lemma {:induction false} UninterruptedLoop(jid: string, text: string, mentions: seq<string>, count: nat,
                                             i: nat, st: State, out: seq<Action>)
    requires i <= count && !st.stopSpam
    ensures SpamLoop(jid, text, mentions, count, [], i, st, out)
         == (out + Repeat(Send(jid, text, mentions), count - i), st)
    decreases count - i
  {
    var a := Send(jid, text, mentions);
    if i < count {
      UninterruptedLoop(jid, text, mentions, count, i + 1, st, out + [a]);
      assert [a] + Repeat(a, count - i - 1) == Repeat(a, count - i);
      assert out + [a] + Repeat(a, count - i - 1) == out + ([a] + Repeat(a, count - i - 1));
    } else {
      assert out + Repeat(a, 0) == out;
    }
  }

  /** Normal completion: `count` copies of the text, then the completion
      message; the flag ends false and the initiator is NOT cleared. */
  lemma NormalCompletion(st: State, jid: string, participant: Option<string>, args: string)
    requires IsGroup(jid) && ParseSpamArgs(args).Accepted?
    ensures var p := ParseSpamArgs(args);
            SpamCommand(st, jid, participant, args, [])
            == (Repeat(Send(jid, p.text, p.mentions), p.count) + [Send(jid, Complete, [])], State(false, participant))
  {
    var p := ParseSpamArgs(args);
    UninterruptedLoop(jid, p.text, p.mentions, p.count, 0, State(false, participant), []);
    assert [] + Repeat(Send(jid, p.text, p.mentions), p.count) == Repeat(Send(jid, p.text, p.mentions), p.count);
  }

  /** `k` pauses without a stop request. */
  function Quiet(k: nat): (r: seq<Option<StopMessage>>)
    ensures |r| == k && forall j :: 0 <= j < k ==> r[j] == None
  {
    if k == 0 then [] else Quiet(k - 1) + [None]
  }

  lemma {:induction false} QuietPrefix(jid: string, text: string, mentions: seq<string>, count: nat,
                                       arrivals: seq<Option<StopMessage>>, k: nat, i: nat, st: State, out: seq<Action>)
    requires i <= k < count && k < |arrivals| && !st.stopSpam
    requires forall j :: i <= j < k ==> arrivals[j] == None
    ensures SpamLoop(jid, text, mentions, count, arrivals, i, st, out)
         == SpamLoop(jid, text, mentions, count, arrivals, k, st, out + Repeat(Send(jid, text, mentions), k - i))
    decreases k - i
  {
    var a := Send(jid, text, mentions);
    if i < k {
      QuietPrefix(jid, text, mentions, count, arrivals, k, i + 1, st, out + [a]);
      assert [a] + Repeat(a, k - i - 1) == Repeat(a, k - i);
      assert out + [a] + Repeat(a, k - i - 1) == out + ([a] + Repeat(a, k - i - 1));
    } else {
      assert out + Repeat(a, 0) == out;
    }
  }

  /** Cancellation observed inside the loop: the initiator's stop request
      during the pause after send k (with more sends to go) ends the loop at
      the next check, which clears both globals; the completion message is
      still sent after the stop acknowledgement. */
  lemma CancelSeenInLoop(jid: string, participant: string, args: string, k: nat, stopJid: string)
    requires IsGroup(jid) && ParseSpamArgs(args).Accepted? && participant != ""
    requires k + 1 < ParseSpamArgs(args).count
    ensures var p := ParseSpamArgs(args);
            var arrivals := Quiet(k) + [Some(StopMessage(stopJid, participant))];
            forall st :: SpamCommand(st, jid, Some(participant), args, arrivals)
              == (Repeat(Send(jid, p.text, p.mentions), k + 1) + [Send(stopJid, Stopped, []), Send(jid, Complete, [])],
                  State(false, None))
  {
    var p := ParseSpamArgs(args);
    var a := Send(jid, p.text, p.mentions);
    var arrivals := Quiet(k) + [Some(StopMessage(stopJid, participant))];
    var st0 := State(false, Some(participant));
    QuietPrefix(jid, p.text, p.mentions, p.count, arrivals, k, 0, st0, []);
    assert [] + Repeat(a, k) == Repeat(a, k);
    assert Repeat(a, k) + [a] == Repeat(a, k + 1);
    assert arrivals[k] == Some(StopMessage(stopJid, participant));
    var out1 := Repeat(a, k + 1) + [Send(stopJid, Stopped, [])];
    assert SpamLoop(jid, p.text, p.mentions, p.count, arrivals, 0, st0, [])
        == SpamLoop(jid, p.text, p.mentions, p.count, arrivals, k + 1, State(true, Some(participant)), out1);
    assert SpamLoop(jid, p.text, p.mentions, p.count, arrivals, k + 1, State(true, Some(participant)), out1)
        == (out1, State(false, None));
    assert out1 + [Send(jid, Complete, [])]
        == Repeat(a, k + 1) + [Send(stopJid, Stopped, []), Send(jid, Complete, [])];
  }

  /** A stop request from the initiator during the pause after the LAST send
      is never observed by the loop: no completion message, `stopSpam` stays
      raised and the initiator stays set. */
  lemma CancelAfterLastSend(jid: string, participant: string, args: string, stopJid: string)
    requires IsGroup(jid) && ParseSpamArgs(args).Accepted? && participant != ""
    ensures var p := ParseSpamArgs(args);
            var arrivals := Quiet(p.count - 1) + [Some(StopMessage(stopJid, participant))];
            forall st :: SpamCommand(st, jid, Some(participant), args, arrivals)
              == (Repeat(Send(jid, p.text, p.mentions), p.count) + [Send(stopJid, Stopped, [])],
                  State(true, Some(participant)))
  {
    var p := ParseSpamArgs(args);
    var a := Send(jid, p.text, p.mentions);
    var k := p.count - 1;
    var arrivals := Quiet(k) + [Some(StopMessage(stopJid, participant))];
    var st0 := State(false, Some(participant));
    QuietPrefix(jid, p.text, p.mentions, p.count, arrivals, k, 0, st0, []);
    assert [] + Repeat(a, k) == Repeat(a, k);
    assert Repeat(a, k) + [a] == Repeat(a, k + 1);
  }

  /** The two globals of main.js:28-29. */
  class Controller {
    var stopSpam: bool
    var initiator: Option<string>

    function Snapshot(): State
      reads this
    {
      State(stopSpam, initiator)
    }

    constructor ()
      ensures Snapshot() == State(false, None)
    {
      stopSpam := false;
      initiator := None;
    }

    /** The stop branch of the pipeline for a message from `sender` in `jid`. */
    method RequestStop(jid: string, sender: string) returns (reply: Action)
      modifies this
      ensures (Snapshot(), reply) == AfterStop(old(Snapshot()), StopMessage(jid, sender))
      ensures initiator == old(initiator)
      ensures stopSpam != old(stopSpam) ==> old(initiator) == Some(sender) && stopSpam
    {
      if !IsSet(initiator) {
        reply := Send(jid, NothingToStop, []);
        return;
      }
      if initiator.value == sender {
        stopSpam := true;
        reply := Send(jid, Stopped, []);
      } else {
        reply := Send(jid, OnlyInitiatorPrefix + Before(initiator.value, '@'), [initiator.value]);
      }
    }

    /** handleSpamCommand: validates the arguments, then sends the text up to
        `count` times, polling `stopSpam` before each send. */
    method HandleSpamCommand(jid: string, participant: Option<string>, args: string,
                             arrivals: seq<Option<StopMessage>>) returns (out: seq<Action>)
      modifies this
      ensures (out, Snapshot()) == SpamCommand(old(Snapshot()), jid, participant, args, arrivals)
    {
      if !IsGroup(jid) {
        return [Send(jid, OnlyInGroups, [])];
      }
      var parsed := ParseSpamArgs(args);
      if parsed.Malformed? {
        return [Send(jid, Usage, [])];
      }
      if parsed.OutOfRange? {
        return [Send(jid, CountRange, [])];
      }
      var text, mentions, count := parsed.text, parsed.mentions, parsed.count;
      initiator := participant;
      stopSpam := false;
      out := [];
      var i := 0;
      while i < count
        invariant 0 <= i <= count
        invariant SpamLoop(jid, text, mentions, count, arrivals, i, Snapshot(), out)
               == SpamLoop(jid, text, mentions, count, arrivals, 0, State(false, participant), [])
        decreases count - i
      {
        if stopSpam {
          stopSpam := false;
          initiator := None;
          break;
        }
        out := out + [Send(jid, text, mentions)];
        if i < |arrivals| && arrivals[i].Some? {
          var reply := RequestStop(arrivals[i].value.jid, arrivals[i].value.sender);
          out := out + [reply];
        }
        i := i + 1;
      }
      if !stopSpam {
        out := out + [Send(jid, Complete, [])];
      }
    }
  }
}
