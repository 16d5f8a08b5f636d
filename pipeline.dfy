/** The inbound message pipeline of main.js (handleMessagesUpsert): text
    extraction, the history record, the authorization gate, flood
    detection, the stop branch, command dispatch and the conversational
    replies, in that order. */
module Pipeline {
  import opened Text
  import opened Outbound
  import opened Ledger
  import opened SpamDetector
  import opened Commands
  import opened Broadcast
  import opened SpamArgs
  import Replies

  const NotAuthorized := "You are not authorized to use this command."
  const GoodMorning := "\U{1F338} Good Morning!"
  const GoodNight := "\U{1F338} Good Night!"

  /** The warning sent to a flooding sender (through the tone-aware sender, with a custom text). */
  const SlowDownOpening := "Hey there, slow down a bit! What's the rush? Your keyboard will get hot. \U{1F602} ("

  function SlowDown(sender: string): string {
    SlowDownOpening + sender + ")"
  }

  /** The parts of a message's content the pipeline reads. */
  datatype Content = Content(conversation: Option<string>, extendedText: Option<string>,
                             imageCaption: Option<string>, videoCaption: Option<string>,
                             mentions: seq<string>)

  /** `messages[0]`: its key and its (possibly missing) content. */
  datatype Inbound = Inbound(remoteJid: string, participant: Option<string>, fromMe: bool,
                             message: Option<Content>)

  /** The text fields, in the order the source tries them. */
  function TextFields(c: Content): seq<Option<string>> {
    [c.conversation, c.extendedText, c.imageCaption, c.videoCaption]
  }

  /** The first truthy field of `fields`. */
  function FirstTruthy(fields: seq<Option<string>>): (t: Option<string>)
    ensures t.Some? ==> exists i :: 0 <= i < |fields| && fields[i] == t && Truthy(t)
                                   && forall j :: 0 <= j < i ==> !Truthy(fields[j])
    ensures t.None? ==> forall i :: 0 <= i < |fields| ==> !Truthy(fields[i])
  {
    if fields == [] then None
    else if Truthy(fields[0]) then fields[0]
    else
      var t := FirstTruthy(fields[1..]);
      assert forall i :: 1 <= i < |fields| ==> fields[i] == fields[1..][i - 1];
      t
  }

  /** `conversation || extendedTextMessage?.text || imageMessage?.caption ||
      videoMessage?.caption`, kept only when truthy. */
  function ExtractText(c: Content): (t: Option<string>)
    ensures Truthy(c.conversation) ==> t == c.conversation
    ensures !Truthy(c.conversation) && Truthy(c.extendedText) ==> t == c.extendedText
    ensures !Truthy(c.conversation) && !Truthy(c.extendedText) && Truthy(c.imageCaption) ==> t == c.imageCaption
    ensures !Truthy(c.conversation) && !Truthy(c.extendedText) && !Truthy(c.imageCaption) ==>
              t == (if Truthy(c.videoCaption) then c.videoCaption else None)
    ensures t.Some? ==> Truthy(t)
  {
    var f := TextFields(c);
    assert f[0] == c.conversation && f[1] == c.extendedText && f[2] == c.imageCaption && f[3] == c.videoCaption;
    FirstTruthy(f)
  }

  /** `participant || remoteJid`. */
  function SenderOf(msg: Inbound): (s: string)
    ensures Truthy(msg.participant) ==> s == msg.participant.value
    ensures !Truthy(msg.participant) ==> s == msg.remoteJid
  {
    OrElse(msg.participant, msg.remoteJid)
  }

  /** What one message does: the entry recorded in its chat's history (if
      any), the outbound actions and the broadcast globals afterwards. */
  datatype Plan = Plan(record: Option<Entry>, actions: seq<Action>, state: State)

  /** Whether the message is handled at all: it has content with text and is not the bot's own. */
  predicate Handled(msg: Inbound) {
    msg.message.Some? && ExtractText(msg.message.value).Some? && !msg.fromMe
  }

  /** The canned greeting, if any, then the generated reply when the bot is
      mentioned or the chat is private. */
  function Conversational(jid: string, text: string, group: bool, mentioned: bool): (r: seq<Action>)
    ensures |r| <= 2
    ensures |r| == (if Contains(Lower(text), "good morning") || Contains(Lower(text), "good night") then 1 else 0)
                 + (if mentioned || !group then 1 else 0)
    ensures (mentioned || !group) <==> |r| >= 1 && r[|r| - 1] == Call(jid, ContextReply(text))
    ensures Contains(Lower(text), "good morning") ==> |r| >= 1 && r[0] == Send(jid, GoodMorning, [])
    ensures !Contains(Lower(text), "good morning") && Contains(Lower(text), "good night")
            ==> |r| >= 1 && r[0] == Send(jid, GoodNight, [])
    ensures !Contains(Lower(text), "good morning") && !Contains(Lower(text), "good night")
            ==> forall a :: a in r ==> a.Call?
  {
    var greeting :=
      if Contains(Lower(text), "good morning") then [Send(jid, GoodMorning, [])]
      else if Contains(Lower(text), "good night") then [Send(jid, GoodNight, [])]
      else [];
    var reply := if mentioned || !group then [Call(jid, ContextReply(text))] else [];
    greeting + reply
  }

  /** The steps after the history record, against the updated histories:
      the authorization, flood and stop gates, then `Respond`. */
  function React(msg: Inbound, c: Content, text: string, myId: string, authorized: seq<string>,
                 chats: map<string, seq<Entry>>, st: State, now: int,
                 arrivals: seq<Option<StopMessage>>): (seq<Action>, State)
  {
    var jid := msg.remoteJid;
    var sender := SenderOf(msg);
    var group := IsGroup(jid);
    var isAuthorized := sender in authorized;
    if !isAuthorized && !group then ([], st)
    else if !isAuthorized && group && StartsWith(text, "!") then ([Send(jid, NotAuthorized, [])], st)
    else if group && CheckSpam(chats, jid, sender, now) then
      ([Replies.ToneAwareAction(jid, "roast", SlowDown(sender))], st)
    else if Contains(Lower(text), "stop") && myId in c.mentions then
      var (st', reply) := AfterStop(st, StopMessage(jid, sender));
      ([reply], st')
    else Respond(msg, c, text, myId, st, arrivals)
  }

  /** A message past the gates: a command or conversation. An accepted
      `!spam` runs the broadcast to its end, with `arrivals` the stop
      requests handled during its pauses; every other command is the
      handler call of the switch. */
  function Respond(msg: Inbound, c: Content, text: string, myId: string, st: State,
                   arrivals: seq<Option<StopMessage>>): (seq<Action>, State)
  {
    var jid := msg.remoteJid;
    if StartsWith(text, "!") then
      var cmd := ParseCommand(text);
      if cmd.name == "!spam" then SpamCommand(st, jid, msg.participant, cmd.args, arrivals)
      else ([Dispatch(jid, cmd, c.mentions, c.extendedText, msg.participant)], st)
    else
      (Conversational(jid, text, IsGroup(jid), myId in c.mentions), st)
  }

  /** handleMessagesUpsert for one message, given the bot's user id, the
      allow-list, the histories, the broadcast globals, the clock and the
      stop requests that arrive while a broadcast it starts is running. */
  function Process(msg: Inbound, botUserId: string, authorized: seq<string>,
                   chats: map<string, seq<Entry>>, st: State, now: int,
                   arrivals: seq<Option<StopMessage>>): (p: Plan)
    ensures p.record.Some? <==> Handled(msg)
    ensures !Handled(msg) ==> p == Plan(None, [], st)
    ensures Handled(msg) ==>
              p.record == Some(Entry(SenderOf(msg), ExtractText(msg.message.value).value, now))
    ensures Handled(msg) && ParseCommand(ExtractText(msg.message.value).value).name != "!spam" ==>
              |p.actions| <= 2
  {
    if !Handled(msg) then Plan(None, [], st)
    else
      var c := msg.message.value;
      var text := ExtractText(c).value;
      var e := Entry(SenderOf(msg), text, now);
      var after := chats[msg.remoteJid := Appended(History(chats, msg.remoteJid), e)];
      ReactBounds(msg, c, text, MyId(botUserId), authorized, after, st, now, arrivals);
      var (actions, st') := React(msg, c, text, MyId(botUserId), authorized, after, st, now, arrivals);
      Plan(Some(e), actions, st')
  }

  /** Outside a broadcast a message causes at most a greeting and a reply:
      two actions; a broadcast at most twice its largest count plus the
      completion message. The globals change only by a broadcast. */
  lemma RespondBounds(msg: Inbound, c: Content, text: string, myId: string, st: State,
                      arrivals: seq<Option<StopMessage>>)
    ensures ParseCommand(text).name != "!spam" ==>
              |Respond(msg, c, text, myId, st, arrivals).0| <= 2
              && Respond(msg, c, text, myId, st, arrivals).1 == st
    ensures |Respond(msg, c, text, myId, st, arrivals).0| <= 2 * MaxSpamCount + 1
  {
    if StartsWith(text, "!") && ParseCommand(text).name == "!spam" {
      var cmd := ParseCommand(text);
      var r := SpamCommand(st, msg.remoteJid, msg.participant, cmd.args, arrivals);
      assert Respond(msg, c, text, myId, st, arrivals) == r;
    } else if !StartsWith(text, "!") {
      var conv := Conversational(msg.remoteJid, text, IsGroup(msg.remoteJid), myId in c.mentions);
      assert Respond(msg, c, text, myId, st, arrivals) == (conv, st);
    }
  }

  /** The same bounds for the whole reaction: the gates answer with at most
      one action, and only the stop branch changes the globals among them. */
  lemma ReactBounds(msg: Inbound, c: Content, text: string, myId: string, authorized: seq<string>,
                    chats: map<string, seq<Entry>>, st: State, now: int,
                    arrivals: seq<Option<StopMessage>>)
    ensures ParseCommand(text).name != "!spam" ==>
              |React(msg, c, text, myId, authorized, chats, st, now, arrivals).0| <= 2
    ensures |React(msg, c, text, myId, authorized, chats, st, now, arrivals).0| <= 2 * MaxSpamCount + 1
    ensures React(msg, c, text, myId, authorized, chats, st, now, arrivals).1 != st ==>
              (Contains(Lower(text), "stop") && myId in c.mentions) || ParseCommand(text).name == "!spam"
  {
    var jid := msg.remoteJid;
    var sender := SenderOf(msg);
    if !(sender in authorized) && !IsGroup(jid) {
    } else if !(sender in authorized) && IsGroup(jid) && StartsWith(text, "!") {
    } else if IsGroup(jid) && CheckSpam(chats, jid, sender, now) {
    } else if Contains(Lower(text), "stop") && myId in c.mentions {
    } else {
      RespondBounds(msg, c, text, myId, st, arrivals);
    }
  }

  /** The histories after the message. */
  function ChatsAfter(chats: map<string, seq<Entry>>, msg: Inbound, p: Plan): map<string, seq<Entry>> {
    if p.record.Some? then chats[msg.remoteJid := Appended(History(chats, msg.remoteJid), p.record.value)]
    else chats
  }

  /** No message causes more than 2 * 20 + 1 actions, and only the stop
      branch or a broadcast changes the globals. */
  lemma ProcessBounds(msg: Inbound, botUserId: string, authorized: seq<string>,
                      chats: map<string, seq<Entry>>, st: State, now: int,
                      arrivals: seq<Option<StopMessage>>)
    ensures var p := Process(msg, botUserId, authorized, chats, st, now, arrivals);
            |p.actions| <= 2 * MaxSpamCount + 1
            && (p.state != st ==>
                  var text := ExtractText(msg.message.value).value;
                  (Contains(Lower(text), "stop") && MyId(botUserId) in msg.message.value.mentions)
                  || ParseCommand(text).name == "!spam")
  {
    if Handled(msg) {
      var c := msg.message.value;
      var text := ExtractText(c).value;
      var after := chats[msg.remoteJid := Appended(History(chats, msg.remoteJid), Entry(SenderOf(msg), text, now))];
      ReactBounds(msg, c, text, MyId(botUserId), authorized, after, st, now, arrivals);
    }
  }

  /** An unauthorized sender in a private chat is recorded but gets no reply,
      and nothing else changes. */
  lemma UnauthorizedPrivateIsSilent(msg: Inbound, botUserId: string, authorized: seq<string>,
                                    chats: map<string, seq<Entry>>, st: State, now: int,
                                    arrivals: seq<Option<StopMessage>>)
    requires Handled(msg) && SenderOf(msg) !in authorized && !IsGroup(msg.remoteJid)
    ensures var p := Process(msg, botUserId, authorized, chats, st, now, arrivals);
            p.record.Some? && p.actions == [] && p.state == st
  {
  }

  /** An unauthorized sender in a group who sends a command gets exactly one
      refusal, and the command does not run. */
  lemma UnauthorizedGroupCommandRefused(msg: Inbound, botUserId: string, authorized: seq<string>,
                                        chats: map<string, seq<Entry>>, st: State, now: int,
                                        arrivals: seq<Option<StopMessage>>)
    requires Handled(msg) && SenderOf(msg) !in authorized && IsGroup(msg.remoteJid)
    requires StartsWith(ExtractText(msg.message.value).value, "!")
    ensures var p := Process(msg, botUserId, authorized, chats, st, now, arrivals);
            p.actions == [Send(msg.remoteJid, NotAuthorized, [])] && p.state == st
  {
  }

  /** In a group, a message that is not a command goes through the rest of
      the pipeline exactly as if its sender were authorized. */
  lemma UnauthorizedGroupChatContinues(msg: Inbound, botUserId: string, authorized: seq<string>,
                                       chats: map<string, seq<Entry>>, st: State, now: int,
                                       arrivals: seq<Option<StopMessage>>)
    requires Handled(msg) && IsGroup(msg.remoteJid)
    requires !StartsWith(ExtractText(msg.message.value).value, "!")
    ensures Process(msg, botUserId, authorized, chats, st, now, arrivals)
         == Process(msg, botUserId, authorized + [SenderOf(msg)], chats, st, now, arrivals)
  {
  }

  /** A sender who reaches the flood threshold in a group (counting the
      message just recorded) gets one fixed warning, and processing of the
      message stops there. */
  lemma FloodWarnedAndStopped(msg: Inbound, botUserId: string, authorized: seq<string>,
                              chats: map<string, seq<Entry>>, st: State, now: int,
                              arrivals: seq<Option<StopMessage>>)
    requires Handled(msg) && IsGroup(msg.remoteJid)
    requires SenderOf(msg) in authorized || !StartsWith(ExtractText(msg.message.value).value, "!")
    requires |History(chats, msg.remoteJid)| <= MaxHistory
    requires |RecentIndices(LastN(History(chats, msg.remoteJid), MaxHistory - 1), SenderOf(msg), now)|
             >= SpamThreshold - 1
    ensures var p := Process(msg, botUserId, authorized, chats, st, now, arrivals);
            p.actions == [Send(msg.remoteJid, SlowDown(SenderOf(msg)), [])] && p.state == st
  {
    var e := Entry(SenderOf(msg), ExtractText(msg.message.value).value, now);
    SpamRightAfterRecording(chats, msg.remoteJid, e, now);
  }

  /** The stop branch: a (non-flooding, admitted) message mentioning the bot
      and containing "stop" in any case gets exactly the stop branch's reply,
      updates the globals as the stop branch does, and never reaches command
      dispatch, even when it starts with "!". */
  lemma StopBranchPreemptsCommands(msg: Inbound, botUserId: string, authorized: seq<string>,
                                   chats: map<string, seq<Entry>>, st: State, now: int,
                                   arrivals: seq<Option<StopMessage>>)
    requires Handled(msg)
    requires var text := ExtractText(msg.message.value).value;
             (SenderOf(msg) in authorized || (IsGroup(msg.remoteJid) && !StartsWith(text, "!")))
             && Contains(Lower(text), "stop")
             && MyId(botUserId) in msg.message.value.mentions
    requires !IsGroup(msg.remoteJid)
             || !CheckSpam(ChatsAfter(chats, msg, Process(msg, botUserId, authorized, chats, st, now, arrivals)),
                           msg.remoteJid, SenderOf(msg), now)
    ensures var p := Process(msg, botUserId, authorized, chats, st, now, arrivals);
            var (st', reply) := AfterStop(st, StopMessage(msg.remoteJid, SenderOf(msg)));
            p.actions == [reply] && p.state == st' && reply.Send?
  {
  }

  /** Only a text starting with "!" reaches a command handler: every other
      handler call a message causes is the generated conversational reply. */
  lemma {:induction false} CommandsOnlyFromBang(msg: Inbound, botUserId: string, authorized: seq<string>,
                                                chats: map<string, seq<Entry>>, st: State, now: int,
                                                arrivals: seq<Option<StopMessage>>)
    requires Handled(msg)
    ensures var p := Process(msg, botUserId, authorized, chats, st, now, arrivals);
            var text := ExtractText(msg.message.value).value;
            forall a :: a in p.actions && a.Call? ==>
              a.handler.ContextReply? || StartsWith(text, "!")
  {
    var c := msg.message.value;
    var text := ExtractText(c).value;
    var e := Entry(SenderOf(msg), text, now);
    var after := chats[msg.remoteJid := Appended(History(chats, msg.remoteJid), e)];
    var r := React(msg, c, text, MyId(botUserId), authorized, after, st, now, arrivals);
    assert Process(msg, botUserId, authorized, chats, st, now, arrivals).actions == r.0;
    ReactCalls(msg, c, text, MyId(botUserId), authorized, after, st, now, arrivals);
  }

  lemma ReactCalls(msg: Inbound, c: Content, text: string, myId: string, authorized: seq<string>,
                   chats: map<string, seq<Entry>>, st: State, now: int,
                   arrivals: seq<Option<StopMessage>>)
    ensures forall a :: a in React(msg, c, text, myId, authorized, chats, st, now, arrivals).0 && a.Call? ==>
              a.handler.ContextReply? || StartsWith(text, "!")
  {
    var jid := msg.remoteJid;
    var sender := SenderOf(msg);
    var group := IsGroup(jid);
    var isAuthorized := sender in authorized;
    if !isAuthorized && !group {
    } else if !isAuthorized && group && StartsWith(text, "!") {
    } else if group && CheckSpam(chats, jid, sender, now) {
    } else if Contains(Lower(text), "stop") && myId in c.mentions {
      var o := StopBranch(st.initiator, sender, jid);
      assert o.reply.Send?;
    } else if StartsWith(text, "!") {
    } else {
      var r := Conversational(jid, text, group, myId in c.mentions);
      assert forall a :: a in r && a.Call? ==> a == Call(jid, ContextReply(text));
    }
  }

  /** A private chat from an authorized sender: `!joke` calls the joke
      handler and nothing else. */
  lemma JokeFromPrivateChat(jid: string, botUserId: string, authorized: seq<string>,
                            chats: map<string, seq<Entry>>, st: State, now: int,
                            arrivals: seq<Option<StopMessage>>)
    requires !IsGroup(jid) && jid in authorized
    ensures var msg := Inbound(jid, None, false, Some(Content(Some("!joke"), None, None, None, [])));
            Process(msg, botUserId, authorized, chats, st, now, arrivals)
            == Plan(Some(Entry(jid, "!joke", now)), [Call(jid, Joke)], st)
  {
    var c := Content(Some("!joke"), None, None, None, []);
    var msg := Inbound(jid, None, false, Some(c));
    assert ExtractText(c) == Some("!joke");
    assert StartsWith("!joke", "!");
    var e := Entry(jid, "!joke", now);
    var after := chats[jid := Appended(History(chats, jid), e)];
    ReactPrivateCommand(msg, c, "!joke", MyId(botUserId), authorized, after, st, now, arrivals);
    JokeCommand();
  }

  /** An authorized private message starting with `!`, mentioning nobody and
      other than `!spam` goes straight to the command switch. */
  lemma ReactPrivateCommand(msg: Inbound, c: Content, text: string, myId: string, authorized: seq<string>,
                            chats: map<string, seq<Entry>>, st: State, now: int,
                            arrivals: seq<Option<StopMessage>>)
    requires !IsGroup(msg.remoteJid) && SenderOf(msg) in authorized
    requires c.mentions == [] && StartsWith(text, "!")
    ensures ParseCommand(text).name != "!spam" ==>
              React(msg, c, text, myId, authorized, chats, st, now, arrivals)
              == ([Dispatch(msg.remoteJid, ParseCommand(text), [], c.extendedText, msg.participant)], st)
  {
  }

  lemma JokeCommand()
    ensures ParseCommand("!joke") == Command("!joke", "")
  {
    assert ' ' !in "!joke";
    ParseBareCommand("!joke");
    LowerJoke();
  }

  lemma LowerJoke()
    ensures Lower("!joke") == "!joke"
  {
    var r := Lower("!joke");
    assert r[0] == '!' && r[1] == 'j' && r[2] == 'o' && r[3] == 'k' && r[4] == 'e';
  }

  /** An admitted `!spam` (authorized sender, not flooding, not a stop
      request) is handed to handleSpamCommand: its sends and the globals after
      it are those of the broadcast command, started from the current globals. */
  lemma SpamDispatchRunsBroadcast(msg: Inbound, botUserId: string, authorized: seq<string>,
                                  chats: map<string, seq<Entry>>, st: State, now: int,
                                  arrivals: seq<Option<StopMessage>>)
    requires Handled(msg) && SenderOf(msg) in authorized
    requires var text := ExtractText(msg.message.value).value;
             ParseCommand(text).name == "!spam"
             && !(Contains(Lower(text), "stop") && MyId(botUserId) in msg.message.value.mentions)
    requires !IsGroup(msg.remoteJid)
             || !CheckSpam(ChatsAfter(chats, msg, Process(msg, botUserId, authorized, chats, st, now, arrivals)),
                           msg.remoteJid, SenderOf(msg), now)
    ensures var p := Process(msg, botUserId, authorized, chats, st, now, arrivals);
            (p.actions, p.state)
            == SpamCommand(st, msg.remoteJid, msg.participant,
                           ParseCommand(ExtractText(msg.message.value).value).args, arrivals)
  {
    var c := msg.message.value;
    var text := ExtractText(c).value;
    SpamWordStartsWithBang(text);
    var after := chats[msg.remoteJid := Appended(History(chats, msg.remoteJid), Entry(SenderOf(msg), text, now))];
    ReactSpam(msg, c, text, MyId(botUserId), authorized, after, st, now, arrivals);
  }

  lemma ReactSpam(msg: Inbound, c: Content, text: string, myId: string, authorized: seq<string>,
                  chats: map<string, seq<Entry>>, st: State, now: int,
                  arrivals: seq<Option<StopMessage>>)
    requires SenderOf(msg) in authorized && StartsWith(text, "!") && ParseCommand(text).name == "!spam"
    requires !(Contains(Lower(text), "stop") && myId in c.mentions)
    requires !IsGroup(msg.remoteJid) || !CheckSpam(chats, msg.remoteJid, SenderOf(msg), now)
    ensures React(msg, c, text, myId, authorized, chats, st, now, arrivals)
            == SpamCommand(st, msg.remoteJid, msg.participant, ParseCommand(text).args, arrivals)
  {
  }

  /** Only a text starting with `!` has the command word `!spam`. */
  lemma SpamWordStartsWithBang(text: string)
    requires ParseCommand(text).name == "!spam"
    ensures StartsWith(text, "!")
  {
    var name := ParseCommand(text).name;
    assert name[0] == '!';
    assert name[0] == Lower(text[..|name|])[0] == LowerChar(text[0]);
  }

  /** A broadcast started in a group and left to finish keeps its initiator:
      the initiator's later "stop" mentioning the bot is acknowledged and
      raises the flag. */
  lemma {:induction false} InitiatorStopsAfterBroadcast(msg: Inbound, botUserId: string, authorized: seq<string>,
                                                        chats: map<string, seq<Entry>>, st: State, now: int)
    requires Handled(msg) && SenderOf(msg) in authorized && IsGroup(msg.remoteJid)
    requires Truthy(msg.participant)
    requires var text := ExtractText(msg.message.value).value;
             ParseCommand(text).name == "!spam"
             && ParseSpamArgs(ParseCommand(text).args).Accepted?
             && !(Contains(Lower(text), "stop") && MyId(botUserId) in msg.message.value.mentions)
    requires !CheckSpam(ChatsAfter(chats, msg, Process(msg, botUserId, authorized, chats, st, now, [])),
                        msg.remoteJid, SenderOf(msg), now)
    ensures var p := Process(msg, botUserId, authorized, chats, st, now, []);
            p.state == State(false, msg.participant)
            && AfterStop(p.state, StopMessage(msg.remoteJid, SenderOf(msg)))
               == (State(true, msg.participant), Send(msg.remoteJid, Stopped, []))
  {
    var args := ParseCommand(ExtractText(msg.message.value).value).args;
    SpamDispatchRunsBroadcast(msg, botUserId, authorized, chats, st, now, []);
    NormalCompletion(st, msg.remoteJid, msg.participant, args);
  }

  /** The context handed to the reply generator repeats the latest text:
      the message is recorded before the context is built from the history
      plus the message. */
  lemma ContextRepeatsLatest(h: seq<Entry>, e: Entry)
    requires |h| <= MaxHistory
    ensures var w := Replies.ContextWindow(Appended(h, e), e.text);
            |w| >= 2 && w[|w| - 2] == e.text && w[|w| - 1] == e.text
  {
    var h' := Appended(h, e);
    AppendedWithinCapacity(h, e);
    var all := Replies.Texts(h') + [e.text];
    var w := Replies.ContextWindow(h', e.text);
    assert w[|w| - 2] == all[|all| - 2];
  }

  /** The bot's state: the histories and the broadcast globals. */
  class Bot {
    const ledger: ChatLedger
    const controller: Controller

    ghost predicate Valid()
      reads this, ledger
    {
      ledger.Valid()
    }

    constructor ()
      ensures Valid() && fresh(ledger) && fresh(controller)
      ensures ledger.chats == map[] && controller.Snapshot() == State(false, None)
    {
      ledger := new ChatLedger();
      controller := new Controller();
    }

    /** handleMessagesUpsert: records the message, then reacts to it against
        the updated histories and the globals; an accepted `!spam` runs the
        broadcast on the controller, with `arrivals` the stop requests
        handled during its pauses. */
    method HandleMessage(msg: Inbound, botUserId: string, authorized: seq<string>, now: int,
                         arrivals: seq<Option<StopMessage>>)
      returns (actions: seq<Action>)
      requires Valid()
      modifies ledger, controller
      ensures Valid()
      ensures var p := Process(msg, botUserId, authorized, old(ledger.chats), old(controller.Snapshot()), now,
                             arrivals);
              actions == p.actions && controller.Snapshot() == p.state
              && ledger.chats == ChatsAfter(old(ledger.chats), msg, p)
    {
      if msg.message.None? {
        return [];
      }
      var c := msg.message.value;
      var t := ExtractText(c);
      if t.None? || msg.fromMe {
        return [];
      }
      var text := t.value;
      var e := Entry(SenderOf(msg), text, now);
      ledger.Append(msg.remoteJid, e);
      ghost var r := React(msg, c, text, MyId(botUserId), authorized, ledger.chats, controller.Snapshot(), now, arrivals);
      assert Process(msg, botUserId, authorized, old(ledger.chats), old(controller.Snapshot()), now, arrivals)
          == Plan(Some(e), r.0, r.1);
      actions := ReactTo(msg, c, text, MyId(botUserId), authorized, now, arrivals);
    }

    /** The gates of handleMessagesUpsert after the message is recorded:
        authorization, flood check and stop request, then `RespondTo`. */
    method ReactTo(msg: Inbound, c: Content, text: string, myId: string, authorized: seq<string>, now: int,
                   arrivals: seq<Option<StopMessage>>)
      returns (actions: seq<Action>)
      modifies controller
      ensures (actions, controller.Snapshot())
              == React(msg, c, text, myId, authorized, ledger.chats, old(controller.Snapshot()), now, arrivals)
    {
      var jid := msg.remoteJid;
      var sender := SenderOf(msg);
      var group := IsGroup(jid);
      var isAuthorized := sender in authorized;
      if !isAuthorized && !group {
        return [];
      }
      if !isAuthorized && group && StartsWith(text, "!") {
        return [Send(jid, NotAuthorized, [])];
      }
      if group && CheckSpam(ledger.chats, jid, sender, now) {
        return [Replies.ToneAwareAction(jid, "roast", SlowDown(sender))];
      }
      if Contains(Lower(text), "stop") && myId in c.mentions {
        var reply := controller.RequestStop(jid, sender);
        return [reply];
      }
      actions := RespondTo(msg, c, text, myId, arrivals);
    }

    /** The command switch, with `!spam` handed to the broadcast, or the
        conversational replies. */
    method RespondTo(msg: Inbound, c: Content, text: string, myId: string,
                     arrivals: seq<Option<StopMessage>>)
      returns (actions: seq<Action>)
      modifies controller
      ensures (actions, controller.Snapshot())
              == Respond(msg, c, text, myId, old(controller.Snapshot()), arrivals)
    {
      var jid := msg.remoteJid;
      if StartsWith(text, "!") {
        var cmd := ParseCommand(text);
        if cmd.name == "!spam" {
          actions := controller.HandleSpamCommand(jid, msg.participant, cmd.args, arrivals);
          return;
        }
        return [Dispatch(jid, cmd, c.mentions, c.extendedText, msg.participant)];
      }
      actions := Conversational(jid, text, IsGroup(jid), myId in c.mentions);
    }
  }
}
