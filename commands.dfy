/** Command parsing and dispatch of the message pipeline (main.js:226-227,
    279-315), and the bot's own id. */
module Commands {
  import opened Text
  import opened Outbound
  import Replies

  /** `${sock.user.id.split(":")[0]}@s.whatsapp.net`: the bot's user id
      without its device part. */
  function MyId(botUserId: string): (r: string)
    ensures EndsWith(r, UserSuffix)
    ensures StartsWith(botUserId, r[..|r| - |UserSuffix|])
    ensures ':' !in r[..|r| - |UserSuffix|]
    ensures |r| - |UserSuffix| == |botUserId| || botUserId[|r| - |UserSuffix|] == ':'
  {
    var phone := Before(botUserId, ':');
    var r := phone + UserSuffix;
    assert r[..|phone|] == phone;
    assert r[|r| - |UserSuffix|..] == UserSuffix;
    r
  }

  /** A device-qualified user id `phone:device@server` yields `phone@s.whatsapp.net`. */
  lemma MyIdOfDeviceId(phone: string, device: string)
    requires ':' !in phone
    ensures MyId(phone + ":" + device) == phone + UserSuffix
  {
    assert phone + ":" + device == phone + [':'] + device;
    BeforePrefix(phone, ':', device);
  }

  /** A command word and its arguments. */
  datatype Command = Command(name: string, args: string)

  /** The command is the text up to the first space, lower-cased; the
      arguments are what follows that many characters, trimmed. */
  function ParseCommand(text: string): (c: Command)
    ensures |c.name| <= |text|
    ensures ' ' !in text[..|c.name|]
    ensures |c.name| == |text| || text[|c.name|] == ' '
    ensures c.name == Lower(text[..|c.name|])
    ensures c.args == Trim(text[|c.name|..])
  {
    var name := Lower(Before(text, ' '));
    Command(name, Trim(text[|name|..]))
  }

  /** `!WORD rest` is the command `!word` with arguments `rest` trimmed. */
  lemma {:induction false} ParseCommandWords(word: string, rest: string)
    requires ' ' !in word
    ensures ParseCommand(word + " " + rest) == Command(Lower(word), Trim(" " + rest))
  {
    var text := word + " " + rest;
    assert text == word + [' '] + rest;
    BeforePrefix(word, ' ', rest);
    assert text[|word|..] == " " + rest;
  }

  /** A message without a space is a bare command with no arguments. */
  lemma {:induction false} ParseBareCommand(word: string)
    requires ' ' !in word
    ensures ParseCommand(word) == Command(Lower(word), "")
  {
    BeforeWithout(word, ' ');
  }

  const UnknownCommand := "Didn't understand what you're saying. Type !help to check commands."

  /** The command words the switch recognises. */
  const KnownCommands := {"!joke", "!roast", "!fact", "!mood", "!tagall", "!tag", "!news", "!quote", "!spam", "!help"}

  /** The switch of main.js:283-315: each known word calls its handler with the
      parts of the message it reads; anything else is answered with a fixed
      line through the tone-aware sender. The `!spam` case names its handler
      only to keep the switch whole: the pipeline's Respond runs `!spam` as
      the broadcast itself and never passes that word here. */
  function Dispatch(jid: string, cmd: Command, mentions: seq<string>, extendedText: Option<string>,
                    participant: Option<string>): (a: Action)
    ensures a.jid == jid
    ensures a.Call? <==> cmd.name in KnownCommands
    ensures cmd.name !in KnownCommands ==> a == Send(jid, UnknownCommand, [])
    ensures cmd.name == "!tag" || cmd.name == "!tagall" ==> a == Call(jid, TagAll(extendedText))
    ensures cmd.name == "!spam" ==> a == Call(jid, Spam(participant, cmd.args))
    ensures cmd.name == "!roast" ==> a == Call(jid, Roast(mentions))
    ensures cmd.name == "!joke" ==> a == Call(jid, Joke)
    ensures cmd.name == "!fact" ==> a == Call(jid, Fact)
    ensures cmd.name == "!mood" ==> a == Call(jid, Mood)
    ensures cmd.name == "!news" ==> a == Call(jid, News)
    ensures cmd.name == "!quote" ==> a == Call(jid, Quote)
    ensures cmd.name == "!help" ==> a == Call(jid, Help)
  {
    match cmd.name
    case "!joke" => Call(jid, Joke)
    case "!roast" => Call(jid, Roast(mentions))
    case "!fact" => Call(jid, Fact)
    case "!mood" => Call(jid, Mood)
    case "!tagall" => Call(jid, TagAll(extendedText))
    case "!tag" => Call(jid, TagAll(extendedText))
    case "!news" => Call(jid, News)
    case "!quote" => Call(jid, Quote)
    case "!spam" => Call(jid, Spam(participant, cmd.args))
    case "!help" => Call(jid, Help)
    case _ => Replies.ToneAwareAction(jid, "chill", UnknownCommand)
  }

  lemma TagWord(rest: string)
    ensures ParseCommand("!TAG " + rest).name == "!tag"
  {
    var w := "!TAG";
    assert ' ' !in w;
    assert "!TAG " + rest == w + " " + rest;
    ParseCommandWords(w, rest);
    LowerTag();
  }

  lemma TagallWord(rest: string)
    ensures ParseCommand("!tagall " + rest).name == "!tagall"
  {
    var w := "!tagall";
    assert ' ' !in w;
    assert "!tagall " + rest == w + " " + rest;
    ParseCommandWords(w, rest);
    LowerTagall();
  }

  lemma LowerTag()
    ensures Lower("!TAG") == "!tag"
  {
    var r := Lower("!TAG");
    assert r[0] == '!' && r[1] == 't' && r[2] == 'a' && r[3] == 'g';
  }

  lemma LowerTagall()
    ensures Lower("!tagall") == "!tagall"
  {
    var r := Lower("!tagall");
    assert r[0] == '!' && r[1] == 't' && r[2] == 'a' && r[3] == 'g';
    assert r[4] == 'a' && r[5] == 'l' && r[6] == 'l';
  }

  /** The alias: `!tag` and `!tagall` (in any case) reach the same handler
      with the same input. */
  lemma TagAliases(jid: string, rest: string, mentions: seq<string>, extendedText: Option<string>,
                   participant: Option<string>)
    ensures Dispatch(jid, ParseCommand("!TAG " + rest), mentions, extendedText, participant)
         == Dispatch(jid, ParseCommand("!tagall " + rest), mentions, extendedText, participant)
  {
    TagWord(rest);
    TagallWord(rest);
  }
}
