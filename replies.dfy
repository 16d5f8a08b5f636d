/** The reply builders of main.js: what each command handler sends, given the
    abstract response of the inference collaborator (or of the group
    metadata lookup), and the two tone-aware reply routines. */
module Replies {
  import opened Text
  import opened Outbound
  import opened Ledger

  // ---- !joke, !fact, !quote (main.js:473-483, 516-525, 620-633) ----

  const JokeMarker := "\U{1F602}: "
  const NoJoke := "I can't remember any joke right now."
  const JokeFailed := "Can't generate a joke, maybe my sense of humor is offline."

  /** sendRomanUrduJoke: the joke behind a fixed emoji marker, or an apology. */
  function JokeText(resp: Response<Option<string>>): (r: string)
    ensures resp.Ok? ==> StartsWith(r, JokeMarker) && EndsWith(r, OrElse(resp.value, NoJoke))
                         && |r| == |JokeMarker| + |OrElse(resp.value, NoJoke)|
    ensures resp.Ok? && Truthy(resp.value) ==> r[|JokeMarker|..] == resp.value.value
    ensures resp.Failed? ==> r == JokeFailed
  {
    match resp
    case Failed => JokeFailed
    case Ok(joke) =>
      JokeMarker + OrElse(joke, NoJoke)
  }

  const FactMarker := "\U{1F9E0} Did you know? "
  const NoFact := "I can't remember any fact right now."
  const FactFailed := "Can't generate a fact, maybe facts are also on vacation these days."

  /** sendRomanUrduFact: the fact behind a fixed marker, or an apology. */
  function FactText(resp: Response<Option<string>>): (r: string)
    ensures resp.Ok? ==> StartsWith(r, FactMarker) && EndsWith(r, OrElse(resp.value, NoFact))
                         && |r| == |FactMarker| + |OrElse(resp.value, NoFact)|
    ensures resp.Ok? && Truthy(resp.value) ==> r[|FactMarker|..] == resp.value.value
    ensures resp.Failed? ==> r == FactFailed
  {
    match resp
    case Failed => FactFailed
    case Ok(fact) =>
      FactMarker + OrElse(fact, NoFact)
  }

  const NoQuote := "No quote found today."
  const QuoteFailed := "Can't generate a quote, maybe I ran out of words today."

  /** `Math.random() < 0.5 ? "motivational" : "funny"`, with the random draw as a parameter. */
  function QuoteType(random: real): (t: string)
    ensures t == "motivational" || t == "funny"
    ensures random < 0.5 <==> t == "motivational"
  {
    if random < 0.5 then "motivational" else "funny"
  }

  /** sendRandomQuote: only the quote itself, or a fallback. */
  function QuoteText(resp: Response<Option<string>>): (r: string)
    ensures resp.Ok? && Truthy(resp.value) ==> r == resp.value.value
    ensures resp.Ok? && !Truthy(resp.value) ==> r == NoQuote
    ensures resp.Failed? ==> r == QuoteFailed
  {
    match resp
    case Failed => QuoteFailed
    case Ok(quote) => OrElse(quote, NoQuote)
  }

  // ---- !roast (main.js:491-509) ----

  const RoastWhom := "Whom to roast? Tag them! (!roast @user)"
  const RoastFailed := "Can't roast, maybe the target is too good for one."
  const NoRoast := "It seems no roast can be made on you!"
  const RoastOpening := "Oh bhai, @"

  /** handleRoastCommand: roasts the first mentioned user and mentions only them. */
  function RoastReply(jid: string, mentions: seq<string>, resp: Response<Option<string>>): (a: Action)
    ensures a.Send? && a.jid == jid
    ensures mentions == [] ==> a == Send(jid, RoastWhom, [])
    ensures mentions != [] && resp.Failed? ==> a == Send(jid, RoastFailed, [])
    ensures mentions != [] && resp.Ok? ==>
              a.mentions == [mentions[0]]
              && StartsWith(a.text, RoastOpening + Before(mentions[0], '@') + "! ")
              && EndsWith(a.text, OrElse(resp.value, NoRoast) + " \U{1F525}")
              && |a.text| == |RoastOpening + Before(mentions[0], '@') + "! "|
                             + |OrElse(resp.value, NoRoast) + " \U{1F525}"|
  {
    if mentions == [] then Send(jid, RoastWhom, [])
    else
      match resp
      case Failed => Send(jid, RoastFailed, [])
      case Ok(roast) =>
        var head := RoastOpening + Before(mentions[0], '@') + "! ";
        var tail := OrElse(roast, NoRoast) + " \U{1F525}";
        assert (head + tail)[..|head|] == head;
        assert (head + tail)[|head + tail| - |tail|..] == tail;
        Send(jid, head + tail, [mentions[0]])
  }

  // ---- sendToneAwareReply (main.js:443-463) ----

  /** sendToneAwareReply(jid, tone, custom): a non-empty custom message is sent
      as it is, without asking the inference service; otherwise the reply is
      generated for the tone. */
  function ToneAwareAction(jid: string, tone: string, custom: string): (a: Action)
    ensures custom != "" ==> a == Send(jid, custom, [])
    ensures custom == "" ==> a == Call(jid, ReplyByTone(tone))
  {
    if custom != "" then Send(jid, custom, []) else Call(jid, ReplyByTone(tone))
  }

  function NoWords(tone: string): string {
    "Wanted to say something " + tone + ", but can't find the words."
  }

  function CannotGenerate(tone: string): string {
    "Sorry, can't generate a " + tone + " reply."
  }

  /** The text sent for a generated tone reply: the reply when it is non-empty,
      a templated fallback on an empty reply, another on failure. */
  function ByToneText(tone: string, resp: Response<Option<string>>): (r: string)
    ensures resp.Ok? && Truthy(resp.value) ==> r == resp.value.value
    ensures resp.Ok? && !Truthy(resp.value) ==> r == NoWords(tone)
    ensures resp.Failed? ==> r == CannotGenerate(tone)
    ensures r != ""
  {
    match resp
    case Failed => CannotGenerate(tone)
    case Ok(reply) => if Truthy(reply) then reply.value else NoWords(tone)
  }

  // ---- generateAndSendToneAwareReply (main.js:418-434) ----

  /** Size of the reply context. */
  const ContextSize: nat := 10
  const ContextFailed := "Sorry, I can't reply right now. Something went wrong."

  function Texts(h: seq<Entry>): (r: seq<string>)
    ensures |r| == |h| && forall i :: 0 <= i < |h| ==> r[i] == h[i].text
  {
    if h == [] then [] else Texts(h[..|h| - 1]) + [h[|h| - 1].text]
  }

  /** `[...history, latest].slice(-10)`. */
  function ContextWindow(h: seq<Entry>, latest: string): (w: seq<string>)
    ensures |w| == if |h| + 1 <= ContextSize then |h| + 1 else ContextSize
    ensures w == (Texts(h) + [latest])[|h| + 1 - |w|..]
    ensures w[|w| - 1] == latest
  {
    var all := Texts(h) + [latest];
    if |all| <= ContextSize then all else all[|all| - ContextSize..]
  }

  /** The context sent to the inference service: the window joined with newlines. */
  function ReplyContext(h: seq<Entry>, latest: string): (r: string)
    ensures EndsWith(r, latest)
  {
    var w := ContextWindow(h, latest);
    JoinLastEndsWith(w, "\n");
    Join(w, "\n")
  }

  /** The context is every text of the window, oldest first, each separated
      from the next by one newline, whatever the texts themselves hold: a
      one-text window is that text, and a longer one is the join of all but
      its last text, a newline, then the latest text. */
  lemma ReplyContextJoin(h: seq<Entry>, latest: string)
    ensures var w := ContextWindow(h, latest);
            (|w| == 1 ==> ReplyContext(h, latest) == latest)
            && (|w| > 1 ==> ReplyContext(h, latest) == Join(w[..|w| - 1], "\n") + "\n" + latest)
  {
    var w := ContextWindow(h, latest);
    if |w| > 1 {
      assert w == w[..|w| - 1] + [latest];
      JoinSnoc(w[..|w| - 1], latest, "\n");
    }
  }

  /** When no remembered text holds a newline, the context splits back into
      exactly the (at most ten) newest texts, the latest one last. */
  lemma ReplyContextLines(h: seq<Entry>, latest: string)
    requires forall i :: 0 <= i < |h| ==> '\n' !in h[i].text
    requires '\n' !in latest
    ensures Split(ReplyContext(h, latest), '\n') == ContextWindow(h, latest)
  {
    var w := ContextWindow(h, latest);
    var all := Texts(h) + [latest];
    assert forall i :: 0 <= i < |all| ==> '\n' !in all[i];
    assert forall i :: 0 <= i < |w| ==> w[i] == all[|h| + 1 - |w| + i];
    assert "\n" == ['\n'];
    SplitJoin(w, '\n');
  }

  /** What is sent for a context reply: the service's reply verbatim, or an apology. */
  function ContextReplyText(resp: Response<string>): (r: string)
    ensures resp.Ok? ==> r == resp.value
    ensures resp.Failed? ==> r == ContextFailed
  {
    match resp
    case Failed => ContextFailed
    case Ok(reply) => reply
  }

  // ---- !mood (main.js:384-409, 532-539) ----

  /** The body of a successful /analyze-mood call; either field may be absent. */
  datatype MoodData = MoodData(mood: Option<string>, phrase: Option<string>)

  datatype MoodClass = Funny | Chill | Serious | Unclear

  const NoConversation := "No khaas conversation yet, so can't determine the mood."
  const MoodFailed := "Can't analyze the mood, maybe I'm also confused."

  /** The branch order of analyzeGroupMood: funny/roasting, then chill/casual,
      then serious/emotional. */
  function Classify(mood: string): (c: MoodClass)
    ensures c == Funny <==> Contains(mood, "funny") || Contains(mood, "roasting")
    ensures c == Chill <==>
              (!(Contains(mood, "funny") || Contains(mood, "roasting"))
               && (Contains(mood, "chill") || Contains(mood, "casual")))
    ensures c == Serious <==>
              (!(Contains(mood, "funny") || Contains(mood, "roasting"))
               && !(Contains(mood, "chill") || Contains(mood, "casual"))
               && (Contains(mood, "serious") || Contains(mood, "emotional")))
  {
    if Contains(mood, "funny") || Contains(mood, "roasting") then Funny
    else if Contains(mood, "chill") || Contains(mood, "casual") then Chill
    else if Contains(mood, "serious") || Contains(mood, "emotional") then Serious
    else Unclear
  }

  /** The sentence for a class, with the service's phrase or the class's default phrase. */
  function MoodSentence(c: MoodClass, phrase: Option<string>): (r: string)
    ensures StartsWith(r, MoodOpening(c))
    ensures EndsWith(r, OrElse(phrase, DefaultPhrase(c)))
    ensures |r| == |MoodOpening(c)| + |OrElse(phrase, DefaultPhrase(c))|
    ensures Truthy(phrase) ==> EndsWith(r, phrase.value)
  {
    MoodOpening(c) + OrElse(phrase, DefaultPhrase(c))
  }

  /** The sentence for a class, before the phrase. */
  function MoodOpening(c: MoodClass): string {
    match c
    case Funny => "The group's mood seems quite \"funny\". "
    case Chill => "The group's mood seems \"chill\". "
    case Serious => "The group's mood seems a bit \"serious\". "
    case Unclear => "I can't understand the group's mood. "
  }

  /** The phrase used when the service sends none. */
  function DefaultPhrase(c: MoodClass): string {
    match c
    case Funny => "Everyone is engaged in humor!"
    case Chill => "Everyone is fine and relaxed."
    case Serious => "Some deep conversations are happening."
    case Unclear => "Perhaps everyone is quiet or there are mixed feelings."
  }

  /** The text sent to /analyze-mood: every remembered text joined with spaces. */
  function MoodRequest(h: seq<Entry>): (r: string)
    ensures h != [] ==> StartsWith(r, h[0].text) && EndsWith(r, h[|h| - 1].text)
  {
    var texts := Texts(h);
    if texts == [] then Join(texts, " ")
    else
      JoinLastEndsWith(texts, " ");
      var r := Join(texts, " ");
      assert r[..|texts[0]|] == texts[0];
      r
  }

  /** One remembered message is sent as its text alone. */
  lemma MoodRequestSingle(e: Entry)
    ensures MoodRequest([e]) == e.text
  {
    assert Texts([e]) == [e.text];
  }

  /** A further message adds one space and its text at the end, so the request
      holds every remembered text, oldest first, separated by single spaces. */
  lemma MoodRequestSnoc(h: seq<Entry>, e: Entry)
    requires h != []
    ensures MoodRequest(h + [e]) == MoodRequest(h) + " " + e.text
  {
    assert (h + [e])[..|h|] == h;
    assert Texts(h + [e]) == Texts(h) + [e.text];
    JoinSnoc(Texts(h), e.text, " ");
  }

  /** A chat whose first remembered message has text sends a non-empty request. */
  lemma MoodRequestNotEmpty(h: seq<Entry>)
    requires h != [] && h[0].text != ""
    ensures MoodRequest(h) != ""
  {
  }

  /** analyzeGroupMood over the chat's history (None when the chat was never seen). */
  function AnalyzeGroupMood(history: Option<seq<Entry>>, resp: Response<MoodData>): (r: string)
    ensures history.None? || history.value == [] ==> r == NoConversation
    ensures history.Some? && history.value != [] && (resp.Failed? || resp.value.mood.None?) ==> r == MoodFailed
    ensures history.Some? && history.value != [] && resp.Ok? && resp.value.mood.Some? ==>
              r == MoodSentence(Classify(resp.value.mood.value), resp.value.phrase)
  {
    if history.None? || history.value == [] then NoConversation
    else
      match resp
      case Failed => MoodFailed
      case Ok(data) =>
        // a missing mood makes `mood.includes` throw, which the handler catches
        if data.mood.None? then MoodFailed
        else MoodSentence(Classify(data.mood.value), data.phrase)
  }

  /** sendGroupMood. */
  function GroupMoodText(jid: string, history: Option<seq<Entry>>, resp: Response<MoodData>): (r: string)
    ensures !IsGroup(jid) ==> r == OnlyInGroups
    ensures IsGroup(jid) ==> r == "Current mood: " + AnalyzeGroupMood(history, resp)
  {
    if !IsGroup(jid) then OnlyInGroups else "Current mood: " + AnalyzeGroupMood(history, resp)
  }

  // ---- !tagall / !tag (main.js:547-572) ----

  const WakeEveryone := "Time to wake everyone up!"
  const TagFailed := "Couldn't tag everyone, something went wrong."

  /** `participants.filter(p => p.id !== myId).map(p => p.id)`. */
  function MentionIds(participants: seq<string>, myId: string): (r: seq<string>)
    ensures myId !in r
    ensures forall p :: p in participants && p != myId ==> p in r
    ensures forall p :: p in r ==> p in participants
    ensures |r| <= |participants|
    ensures multiset(r) == multiset(participants)[myId := 0]
  {
    if participants == [] then []
    else
      var init := participants[..|participants| - 1];
      var rest := MentionIds(init, myId);
      var last := participants[|participants| - 1];
      assert participants == init + [last];
      assert forall p :: p in participants ==> p in init || p == last;
      if last != myId then rest + [last] else rest
  }

  /** The filter keeps the order of the participants: one more participant
      adds its id at the end, unless it is the bot. */
  lemma MentionIdsSnoc(participants: seq<string>, p: string, myId: string)
    ensures MentionIds(participants + [p], myId)
            == MentionIds(participants, myId) + (if p == myId then [] else [p])
  {
    assert (participants + [p])[..|participants|] == participants;
  }

  /** The tag command occurs at i, ignoring ASCII case. */
  predicate TagAt(s: string, i: nat) {
    i + 4 <= |s| && Lower(s[i..i + 4]) == "!tag"
  }

  /** The first position at or after i where the tag command occurs. */
  function FirstTag(s: string, i: nat): (r: Option<nat>)
    requires i <= |s|
    ensures r.Some? ==> i <= r.value && TagAt(s, r.value)
    ensures forall j :: i <= j < (if r.Some? then r.value else |s|) ==> !TagAt(s, j)
    decreases |s| - i
  {
    if i == |s| then None
    else if TagAt(s, i) then Some(i)
    else FirstTag(s, i + 1)
  }

  /** `s.replace(/!tagall|!tag/i, '')`: the leftmost occurrence is removed, the
      long form preferred at that position. */
  function StripTagCommand(s: string): (r: string)
    ensures FirstTag(s, 0).None? ==> r == s
    ensures FirstTag(s, 0).Some? ==>
              var k := FirstTag(s, 0).value;
              var n := if k + 7 <= |s| && Lower(s[k..k + 7]) == "!tagall" then 7 else 4;
              k + n <= |s| && r == s[..k] + s[k + n..]
  {
    match FirstTag(s, 0)
    case None => s
    case Some(k) =>
      var n := if k + 7 <= |s| && Lower(s[k..k + 7]) == "!tagall" then 7 else 4;
      s[..k] + s[k + n..]
  }

  /** tagAllMembers: mentions every participant but the bot, with the text that
      follows the command in an extended text message, or a default line. */
  function TagAllReply(jid: string, myId: string, extendedText: Option<string>,
                       participants: Response<seq<string>>): (a: Action)
    ensures a.Send? && a.jid == jid
    ensures !IsGroup(jid) ==> a == Send(jid, OnlyInGroups, [])
    ensures IsGroup(jid) && participants.Failed? ==> a == Send(jid, TagFailed, [])
    ensures IsGroup(jid) && participants.Ok? ==>
              a.mentions == MentionIds(participants.value, myId)
              && a.text == OrElse(if extendedText.Some? then Some(Trim(StripTagCommand(extendedText.value))) else None,
                                  WakeEveryone)
  {
    if !IsGroup(jid) then Send(jid, OnlyInGroups, [])
    else
      match participants
      case Failed => Send(jid, TagFailed, [])
      case Ok(ps) =>
        var custom := if extendedText.Some? then Some(Trim(StripTagCommand(extendedText.value))) else None;
        Send(jid, OrElse(custom, WakeEveryone), MentionIds(ps, myId))
  }

  /** `!tagall everyone up` sent as an extended text message is announced as
      "everyone up"; a bare `!TAG` falls back to the default line. */
  lemma TagAllCustomText(rest: string)
    requires |rest| >= 1 && rest[0] == ' '
    ensures StripTagCommand("!tagall" + rest) == rest
    ensures StripTagCommand("!TAG") == ""
  {
    var s := "!tagall" + rest;
    assert TagAt(s, 0) by {
      assert s[0..4] == "!tag";
    }
    assert s[0..7] == "!tagall";
    assert Lower("!tagall") == "!tagall";
    assert s[7..] == rest;
    assert TagAt("!TAG", 0) by {
      assert "!TAG"[0..4] == "!TAG";
      assert Lower("!TAG") == "!tag";
    }
  }
}
