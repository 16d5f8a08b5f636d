/** The daily news digest of main.js (sendDailyNews): the top headlines,
    each rewritten in Roman Urdu by the inference service, in one message. */
module News {
  import opened Text
  import opened Outbound

  /** `articles.slice(0, 5)`. */
  const MaxArticles: nat := 5

  const NoKey := "News API key is not configured."
  const NoNews := "Couldn't find any news for today."
  const NewsFailed := "Something went wrong while fetching news."
  const Header := "\U{1F4F0} *Today's Top Headlines (in Roman Urdu):*\n\n"

  /** The fields of a headline the digest reads. */
  datatype Article = Article(title: string, sourceName: string, url: string)

  /** The answer of the i-th /summarize-news call; calls the caller did not
      supply an answer for count as failed. */
  function SummaryAt(summaries: seq<Response<Option<string>>>, i: nat): (r: Response<Option<string>>)
    ensures i >= |summaries| ==> r.Failed?
    ensures i < |summaries| ==> r == summaries[i]
  {
    if i < |summaries| then summaries[i] else Failed
  }

  /** One numbered entry: the summary (or the original title when the summary
      is empty), its source and its link. */
  function NewsItem(index: nat, a: Article, summary: Option<string>): string {
    NatToString(index + 1) + ". *" + OrElse(summary, a.title) + "*\n"
    + "   _Source: " + a.sourceName + "_\n"
    + "   Link: " + a.url + "\n\n"
  }

  /** An entry is its numbered headline line (the summary, or the title when
      the summary is empty), then its source line, then its link line. */
  lemma NewsItemLayout(index: nat, a: Article, summary: Option<string>)
    ensures var r := NewsItem(index, a, summary);
            var line := NatToString(index + 1) + ". *" + OrElse(summary, a.title) + "*\n";
            var source := "   _Source: " + a.sourceName + "_\n";
            var link := "   Link: " + a.url + "\n\n";
            && |r| == |line| + |source| + |link|
            && r[..|line|] == line
            && r[|line|..|line| + |source|] == source
            && r[|line| + |source|..] == link
  {
    var line := NatToString(index + 1) + ". *" + OrElse(summary, a.title) + "*\n";
    var source := "   _Source: " + a.sourceName + "_\n";
    var link := "   Link: " + a.url + "\n\n";
    assert NewsItem(index, a, summary) == line + source + link;
    ThreeParts(line, source, link);
  }

  lemma ThreeParts(x: string, y: string, z: string)
    ensures var r := x + y + z;
            r[..|x|] == x && r[|x|..|x| + |y|] == y && r[|x| + |y|..] == z
  {
  }

  /** The entries of the first n articles, or Failed when one of their summary calls failed. */
  function Items(articles: seq<Article>, summaries: seq<Response<Option<string>>>, n: nat): Response<string>
    requires n <= |articles|
  {
    if n == 0 then Ok("")
    else
      match Items(articles, summaries, n - 1)
      case Failed => Failed
      case Ok(prefix) =>
        match SummaryAt(summaries, n - 1)
        case Failed => Failed
        case Ok(s) => Ok(prefix + NewsItem(n - 1, articles[n - 1], s))
  }

  /** The articles the digest uses. */
  function TopArticles(all: seq<Article>): (r: seq<Article>)
    ensures |r| == if |all| <= MaxArticles then |all| else MaxArticles
    ensures r == all[..|r|]
  {
    if |all| <= MaxArticles then all else all[..MaxArticles]
  }

  /** The message sendDailyNews sends, given the configured key, the outcome
      of the headline request and the answers of the summary calls. */
  function DailyNews(apiKey: Option<string>, fetched: Response<seq<Article>>,
                     summaries: seq<Response<Option<string>>>): (r: string)
    ensures !Truthy(apiKey) ==> r == NoKey
    ensures Truthy(apiKey) && fetched.Failed? ==> r == NewsFailed
    ensures Truthy(apiKey) && fetched.Ok? && fetched.value == [] ==> r == NoNews
  {
    if !Truthy(apiKey) then NoKey
    else
      match fetched
      case Failed => NewsFailed
      case Ok(all) =>
        var articles := TopArticles(all);
        if articles == [] then NoNews
        else
          match Items(articles, summaries, |articles|)
          case Failed => NewsFailed
          case Ok(body) => Header + body
  }

  /** The entries fail exactly when one of their summary calls failed. */
  lemma {:induction false} ItemsFailIff(articles: seq<Article>, summaries: seq<Response<Option<string>>>, n: nat)
    requires n <= |articles|
    ensures Items(articles, summaries, n).Failed?
        <==> exists k :: 0 <= k < n && SummaryAt(summaries, k).Failed?
  {
    if n > 0 {
      ItemsFailIff(articles, summaries, n - 1);
    }
  }

  /** The text built for the first m entries, followed by entry m, is a
      prefix of the text built for the first n. */
  lemma {:induction false} ItemsLayout(articles: seq<Article>, summaries: seq<Response<Option<string>>>, m: nat, n: nat)
    requires m < n <= |articles|
    requires Items(articles, summaries, n).Ok?
    ensures Items(articles, summaries, m).Ok? && SummaryAt(summaries, m).Ok?
    ensures StartsWith(Items(articles, summaries, n).value,
                       Items(articles, summaries, m).value + NewsItem(m, articles[m], SummaryAt(summaries, m).value))
    decreases n
  {
    var s := Items(articles, summaries, n).value;
    var a := Items(articles, summaries, n - 1).value;
    var item := NewsItem(n - 1, articles[n - 1], SummaryAt(summaries, n - 1).value);
    assert s == a + item;
    if m + 1 < n {
      ItemsLayout(articles, summaries, m, n - 1);
      PrefixOfLonger(a, Items(articles, summaries, m).value + NewsItem(m, articles[m], SummaryAt(summaries, m).value), item);
    } else {
      assert s[..|s|] == s;
    }
  }

  lemma PrefixOfLonger(a: string, t: string, x: string)
    requires StartsWith(a, t)
    ensures StartsWith(a + x, t)
  {
    assert (a + x)[..|t|] == a[..|t|];
  }

  /** Only the answers of the calls for the articles used matter. */
  lemma {:induction false} ItemsOnlyReadSummaries(articles: seq<Article>, s1: seq<Response<Option<string>>>,
                                                  s2: seq<Response<Option<string>>>, n: nat)
    requires n <= |articles|
    requires forall k :: 0 <= k < n ==> SummaryAt(s1, k) == SummaryAt(s2, k)
    ensures Items(articles, s1, n) == Items(articles, s2, n)
  {
    if n > 0 {
      ItemsOnlyReadSummaries(articles, s1, s2, n - 1);
    }
  }

  /** Headlines past the fifth, and the answers to any summary call past the
      fifth, never change the message. */
  lemma FirstFiveOnly(apiKey: Option<string>, all: seq<Article>, summaries: seq<Response<Option<string>>>)
    requires |all| >= MaxArticles && |summaries| >= MaxArticles
    ensures DailyNews(apiKey, Ok(all), summaries)
         == DailyNews(apiKey, Ok(all[..MaxArticles]), summaries[..MaxArticles])
  {
    ItemsOnlyReadSummaries(all[..MaxArticles], summaries, summaries[..MaxArticles], MaxArticles);
  }

  /** With a key and headlines, the digest fails iff one of the (at most five)
      summary calls failed; otherwise it is the header followed by the entries. */
  lemma DigestOutcome(apiKey: Option<string>, all: seq<Article>, summaries: seq<Response<Option<string>>>)
    requires Truthy(apiKey) && all != []
    ensures (exists k :: 0 <= k < |TopArticles(all)| && SummaryAt(summaries, k).Failed?)
        ==> DailyNews(apiKey, Ok(all), summaries) == NewsFailed
    ensures (forall k :: 0 <= k < |TopArticles(all)| ==> SummaryAt(summaries, k).Ok?)
        ==> Items(TopArticles(all), summaries, |TopArticles(all)|).Ok?
            && DailyNews(apiKey, Ok(all), summaries)
               == Header + Items(TopArticles(all), summaries, |TopArticles(all)|).value
  {
    ItemsFailIff(TopArticles(all), summaries, |TopArticles(all)|);
  }

  /** One more entry: the text of the first n + 1 entries extends that of the first n. */
  lemma ItemsStep(articles: seq<Article>, summaries: seq<Response<Option<string>>>, n: nat)
    requires n < |articles|
    requires Items(articles, summaries, n).Ok? && SummaryAt(summaries, n).Ok?
    ensures Items(articles, summaries, n + 1)
         == Ok(Items(articles, summaries, n).value + NewsItem(n, articles[n], SummaryAt(summaries, n).value))
  {
  }

  /** sendDailyNews: the loop over the top articles, one summary call each. */
  method SendDailyNews(apiKey: Option<string>, fetched: Response<seq<Article>>,
                       summaries: seq<Response<Option<string>>>) returns (text: string)
    ensures text == DailyNews(apiKey, fetched, summaries)
  {
    if !Truthy(apiKey) {
      return NoKey;
    }
    if fetched.Failed? {
      return NewsFailed;
    }
    var articles := TopArticles(fetched.value);
    if |articles| == 0 {
      return NoNews;
    }
    // the entries appended to the header, one per article
    var body := "";
    var index := 0;
    while index < |articles|
      invariant 0 <= index <= |articles|
      invariant Items(articles, summaries, index) == Ok(body)
    {
      var summary := SummaryAt(summaries, index);
      if summary.Failed? {
        ItemsFailIff(articles, summaries, |articles|);
        return NewsFailed;
      }
      var item := NewsItem(index, articles[index], summary.value);
      ItemsStep(articles, summaries, index);
      body := body + item;
      index := index + 1;
    }
    return Header + body;
  }
}
