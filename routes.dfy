/** The route handlers of the inference server (hf_inference_server.py):
    input validation, the prompt sent to the model, the relay of the
    model's status, and the post-processing of the mood and reply routes. */
module Routes {
  import opened Text
  import opened Outbound
  import opened Gemini
  import Replies
  import Ledger

  /** A JSON reply: the HTTP status and the fields of the body, in order. */
  datatype HttpReply = HttpReply(status: int, body: seq<(string, string)>)

  /** `(text, status)` as call_gemini_api returns it. */
  datatype ModelResult = ModelResult(text: string, status: int)

  /** The model as a route sees it: what call_gemini_api answers for a prompt. */
  type Model = string -> ModelResult

  function ErrorReply(msg: string, status: int): HttpReply {
    HttpReply(status, [("error", msg)])
  }

  /** The pattern every route shares: a non-200 model status is passed on
      with the message under "error"; otherwise the text goes under `key`. */
  function Relay(key: string, m: ModelResult): (r: HttpReply)
    ensures m.status != 200 ==> r == ErrorReply(m.text, m.status)
    ensures m.status == 200 ==> r == HttpReply(200, [(key, m.text)])
  {
    if m.status != 200 then ErrorReply(m.text, m.status) else HttpReply(200, [(key, m.text)])
  }

  // ---- routes without input ----

  const JokePrompt := "Generate a short, funny, and complete joke in Roman Urdu."
  const RoastPrompt := "Generate only a short, funny, and mild roast in Roman Urdu, suitable for a friend. Do not include any explanations or translations."
  const FactPrompt := "Generate a short, interesting, and complete fun fact in Roman Urdu."

  /** /joke: the fixed joke prompt, the answer under "joke". */
  function JokeRoute(model: Model): (r: HttpReply)
    ensures model(JokePrompt).status == 200 ==> r == HttpReply(200, [("joke", model(JokePrompt).text)])
    ensures model(JokePrompt).status != 200 ==> r == ErrorReply(model(JokePrompt).text, model(JokePrompt).status)
  {
    Relay("joke", model(JokePrompt))
  }

  /** /roast: the fixed roast prompt, the answer under "roast". */
  function RoastRoute(model: Model): (r: HttpReply)
    ensures model(RoastPrompt).status == 200 ==> r == HttpReply(200, [("roast", model(RoastPrompt).text)])
    ensures model(RoastPrompt).status != 200 ==> r == ErrorReply(model(RoastPrompt).text, model(RoastPrompt).status)
  {
    Relay("roast", model(RoastPrompt))
  }

  /** /fact: the fixed fact prompt, the answer under "fact". */
  function FactRoute(model: Model): (r: HttpReply)
    ensures model(FactPrompt).status == 200 ==> r == HttpReply(200, [("fact", model(FactPrompt).text)])
    ensures model(FactPrompt).status != 200 ==> r == ErrorReply(model(FactPrompt).text, model(FactPrompt).status)
  {
    Relay("fact", model(FactPrompt))
  }

  // ---- /analyze-mood ----

  const MoodInstruction := "Analyze the tone of the following conversation and classify it as funny, serious, or chill. Respond only with the classification word (e.g., 'funny', 'serious', 'chill') and then a short Roman Urdu phrase about the mood, ensuring the phrase is complete. Conversation: \""

  function MoodPrompt(text: string): string {
    MoodInstruction + text + "\""
  }

  /** `parts = result.split(" ", 1)`: the mood word lower-cased and stripped,
      the phrase stripped, or empty when the result holds no space. */
  function ParseMood(result: string): (r: (string, string))
    ensures ' ' !in result ==> r == (Trim(Lower(result)), "")
  {
    var first := Before(result, ' ');
    if |first| == |result| then
      assert result[..|first|] == result;
      (Trim(Lower(result)), "")
    else
      (Trim(Lower(first)), Trim(result[|first| + 1..]))
  }

  /** With a space at k and none before it, the result is cut at k: the
      word before, the phrase after. */
  lemma ParseMoodAtFirstSpace(result: string, k: nat)
    requires k < |result| && result[k] == ' ' && ' ' !in result[..k]
    ensures ParseMood(result) == (Trim(Lower(result[..k])), Trim(result[k + 1..]))
  {
    assert result == result[..k] + [' '] + result[k + 1..];
    BeforePrefix(result[..k], ' ', result[k + 1..]);
  }

  /** A classification word and its phrase separated by one space come back
      apart, the word lower-cased. */
  lemma {:induction false} ParseMoodOfWordAndPhrase(word: string, phrase: string)
    requires word != [] && forall i :: 0 <= i < |word| ==> !IsSpace(word[i])
    requires phrase == [] || (!IsSpace(phrase[0]) && !IsSpace(phrase[|phrase| - 1]))
    ensures ParseMood(word + " " + phrase) == (Lower(word), phrase)
  {
    var s := word + " " + phrase;
    assert s == word + [' '] + phrase;
    assert ' ' !in word by {
      assert IsSpace(' ');
    }
    BeforePrefix(word, ' ', phrase);
    assert s[|word| + 1..] == phrase;
    TrimIdentity(Lower(word));
    TrimIdentity(phrase);
  }

  /** /analyze-mood for the posted text field (absent counts as empty); the
      model is not consulted for an empty text. */
  function AnalyzeMoodRoute(text: Option<string>, model: Model): (r: HttpReply)
    ensures FieldOr(text, "") == "" ==> r == ErrorReply("No text provided", 400)
    ensures var m := model(MoodPrompt(FieldOr(text, "")));
            FieldOr(text, "") != "" && m.status != 200 ==> r == ErrorReply(m.text, m.status)
    ensures var m := model(MoodPrompt(FieldOr(text, "")));
            FieldOr(text, "") != "" && m.status == 200 ==>
              r.status == 200 && |r.body| == 2 && r.body[0].0 == "mood" && r.body[1].0 == "roman_urdu_phrase"
              && (r.body[0].1, r.body[1].1) == ParseMood(m.text)
  {
    var t := FieldOr(text, "");
    if t == "" then ErrorReply("No text provided", 400)
    else
      var m := model(MoodPrompt(t));
      if m.status != 200 then ErrorReply(m.text, m.status)
      else
        var (mood, phrase) := ParseMood(m.text);
        HttpReply(200, [("mood", mood), ("roman_urdu_phrase", phrase)])
  }

  /** The bot's mood request (its chat's texts joined with spaces) is never
      refused as empty once the chat holds a message with text: the model
      is consulted with the joined texts. */
  lemma BotMoodRequestReachesModel(h: seq<Ledger.Entry>, model: Model)
    requires h != [] && h[0].text != ""
    ensures var text := Replies.MoodRequest(h);
            var m := model(MoodPrompt(text));
            var r := AnalyzeMoodRoute(Some(text), model);
            text != ""
            && (m.status != 200 ==> r == ErrorReply(m.text, m.status))
            && (m.status == 200 ==> r == HttpReply(200, [("mood", ParseMood(m.text).0),
                                                      ("roman_urdu_phrase", ParseMood(m.text).1)]))
  {
    Replies.MoodRequestNotEmpty(h);
  }

  /** What the bot makes of the server's mood: a model answer starting with
      "Funny" (in any case) followed by a phrase is reported as funny, with
      that phrase. */
  lemma FunnyModelAnswer(phrase: string)
    requires phrase != [] && !IsSpace(phrase[0]) && !IsSpace(phrase[|phrase| - 1])
    ensures var p := ParseMood("Funny " + phrase);
            Replies.Classify(p.0) == Replies.Funny && p.1 == phrase
  {
    ParseFunny(phrase);
    ClassifyFunny();
  }

  lemma ParseFunny(phrase: string)
    requires phrase == [] || (!IsSpace(phrase[0]) && !IsSpace(phrase[|phrase| - 1]))
    ensures ParseMood("Funny " + phrase) == ("funny", phrase)
  {
    assert "Funny " + phrase == "Funny" + " " + phrase;
    assert forall i :: 0 <= i < |"Funny"| ==> !IsSpace("Funny"[i]);
    ParseMoodOfWordAndPhrase("Funny", phrase);
    LowerFunny();
  }

  lemma LowerFunny()
    ensures Lower("Funny") == "funny"
  {
    var r := Lower("Funny");
    assert r[0] == LowerChar('F') == 'f';
    assert r[1] == 'u' && r[2] == 'n' && r[3] == 'n' && r[4] == 'y';
  }

  lemma ClassifyFunny()
    ensures Replies.Classify("funny") == Replies.Funny
  {
    assert OccursAt("funny", "funny", 0);
  }

  // ---- /tone-aware-reply ----

  const NoUnderstanding := "I didn't understand anything. Say it again."

  const ToneAwareInstruction := "Given the following conversation, identify its overall tone (funny, serious, or chill) and then generate a short, witty, and contextually relevant Roman Urdu reply. Ensure the reply is complete and appropriate. Conversation:\n\""

  function ToneAwarePrompt(context: string): string {
    ToneAwareInstruction + context + "\"\nReply:"
  }

  /** The model's reply stripped, or a fixed line when nothing is left. */
  function NormalizeReply(reply: string): (r: string)
    ensures Trim(reply) != "" ==> r == Trim(reply)
    ensures Trim(reply) == "" ==> r == NoUnderstanding
    ensures r != ""
  {
    var parsed := Trim(reply);
    if parsed == "" then NoUnderstanding else parsed
  }

  /** A reply that is already stripped and non-empty passes unchanged. */
  lemma NormalizeKeepsCleanReply(reply: string)
    requires reply != [] && !IsSpace(reply[0]) && !IsSpace(reply[|reply| - 1])
    ensures NormalizeReply(reply) == reply
  {
    TrimIdentity(reply);
  }

  /** /tone-aware-reply for the posted context field (absent counts as empty). */
  function ToneAwareReplyRoute(context: Option<string>, model: Model): (r: HttpReply)
    ensures FieldOr(context, "") == "" ==> r == ErrorReply("No context provided", 400)
    ensures var m := model(ToneAwarePrompt(FieldOr(context, "")));
            FieldOr(context, "") != "" && m.status != 200 ==> r == ErrorReply(m.text, m.status)
    ensures var m := model(ToneAwarePrompt(FieldOr(context, "")));
            FieldOr(context, "") != "" && m.status == 200 ==>
              r == HttpReply(200, [("reply", NormalizeReply(m.text))]) && r.body[0].1 != ""
  {
    var c := FieldOr(context, "");
    if c == "" then ErrorReply("No context provided", 400)
    else
      var m := model(ToneAwarePrompt(c));
      if m.status != 200 then ErrorReply(m.text, m.status)
      else HttpReply(200, [("reply", NormalizeReply(m.text))])
  }

  // ---- /generate-reply-by-tone, /summarize-news, /quote ----

  /** `data.get(key, default)` on a string field: the posted value, or the
      default when the field is absent. */
  function FieldOr(field: Option<string>, default: string): (v: string)
    ensures field.None? ==> v == default
    ensures field.Some? ==> v == field.value
  {
    if field.Some? then field.value else default
  }

  /** The default tone of /generate-reply-by-tone. */
  const DefaultTone := "chill"

  const ByToneOpening := "Generate a short and witty Roman Urdu message with a \""
  const ByToneClosing := "\" tone. Ensure the message is complete and appropriate."

  function ReplyByTonePrompt(tone: string): string {
    ByToneOpening + tone + ByToneClosing
  }

  /** /generate-reply-by-tone for the posted tone field: the prompt names the
      tone ("chill" when absent) and the model's text is relayed as it is
      (no stripping). */
  function ReplyByToneRoute(tone: Option<string>, model: Model): (r: HttpReply)
    ensures var m := model(ReplyByTonePrompt(FieldOr(tone, DefaultTone)));
            (m.status == 200 ==> r == HttpReply(200, [("reply", m.text)]))
            && (m.status != 200 ==> r == ErrorReply(m.text, m.status))
  {
    Relay("reply", model(ReplyByTonePrompt(FieldOr(tone, DefaultTone))))
  }

  /** An absent tone is the tone "chill"; a posted tone, even an empty one, is used as it is. */
  lemma DefaultToneIsChill(tone: string, model: Model)
    ensures ReplyByToneRoute(None, model) == ReplyByToneRoute(Some("chill"), model)
    ensures ReplyByToneRoute(Some(tone), model) == Relay("reply", model(ReplyByTonePrompt(tone)))
  {
  }

  const SummarizeInstruction := "Summarize this news headline in Roman Urdu. Ensure the summary is concise and complete: \""

  function SummarizePrompt(title: string): string {
    SummarizeInstruction + title + "\""
  }

  /** /summarize-news for the posted title field (absent counts as empty). */
  function SummarizeNewsRoute(title: Option<string>, model: Model): (r: HttpReply)
    ensures FieldOr(title, "") == "" ==> r == ErrorReply("No title provided", 400)
    ensures FieldOr(title, "") != "" ==>
              var m := model(SummarizePrompt(FieldOr(title, "")));
              (m.status == 200 ==> r == HttpReply(200, [("summary", m.text)]))
              && (m.status != 200 ==> r == ErrorReply(m.text, m.status))
  {
    var t := FieldOr(title, "");
    if t == "" then ErrorReply("No title provided", 400) else Relay("summary", model(SummarizePrompt(t)))
  }

  /** The default quote type of /quote. */
  const DefaultQuoteType := "motivational"

  const QuoteOpening := "Provide only a short and complete "
  const QuoteClosing := " quote in Roman Urdu, without any introductory phrases, explanations, or translations. Just the quote text."

  function QuotePrompt(quoteType: string): string {
    QuoteOpening + quoteType + QuoteClosing
  }

  /** /quote for the posted type field ("motivational" when absent). */
  function QuoteRoute(quoteType: Option<string>, model: Model): (r: HttpReply)
    ensures var m := model(QuotePrompt(FieldOr(quoteType, DefaultQuoteType)));
            (m.status == 200 ==> r == HttpReply(200, [("quote", m.text)]))
            && (m.status != 200 ==> r == ErrorReply(m.text, m.status))
  {
    Relay("quote", model(QuotePrompt(FieldOr(quoteType, DefaultQuoteType))))
  }

  /** An absent type is the type "motivational"; a posted type is used as it is. */
  lemma DefaultQuoteTypeIsMotivational(quoteType: string, model: Model)
    ensures QuoteRoute(None, model) == QuoteRoute(Some("motivational"), model)
    ensures QuoteRoute(Some(quoteType), model) == Relay("quote", model(QuotePrompt(quoteType)))
  {
  }

  /** Every route reports a model failure as an error body carrying the same
      status, never with its success key; with the retry policy of the model
      call, that status is 500. */
  lemma ModelFailureRelayed(key: string, attempts: seq<Attempt>, retries: int, delay: int)
    requires retries <= |attempts|
    ensures var o := CallGeminiSpec(attempts, retries, delay);
            var r := Relay(key, ModelResult(o.text, o.status));
            o.status != 200 ==> r.status == 500 && r.body == [("error", o.text)]
  {
  }
}
