/** The argument grammar of the `!spam` command (main.js:648-666):
    `args.match(/(?:@(\d+)\s+)?"([^"]+)"\s+(\d+)/)` followed by the count check.

    The regular expression is unanchored, so the engine tries each start
    position from the left and reports the first one that matches. At a
    given position no backtracking can change the outcome: each of `\d+`,
    `\s+` and `[^"]+` is greedy and is always followed by a character that
    the run itself cannot contain (a space after the digits, a quote after
    the spaces, a quote after the body, a digit after the spaces), so giving
    characters back only puts a character of the wrong kind where the next
    item needs its own. The optional group is tried first; when it fails,
    the alternative without it needs a quote where the group needed `@`, so
    it fails too. The matcher below is therefore deterministic. */
module SpamArgs {
  import opened Text
  import opened Outbound

  /** Largest accepted repetition count. */
  const MaxSpamCount: nat := 20

  datatype CharClass = Digit | Space | NonQuote

  predicate InClass(c: char, k: CharClass) {
    match k
    case Digit => IsDigit(c)
    case Space => IsSpace(c)
    case NonQuote => c != '"'
  }

  /** Length of the longest run of characters of class `k` starting at `i`. */
  function Run(s: string, i: nat, k: CharClass): (n: nat)
    requires i <= |s|
    ensures i + n <= |s|
    decreases |s| - i
  {
    if i < |s| && InClass(s[i], k) then 1 + Run(s, i + 1, k) else 0
  }

  /** The run is maximal: all its characters are in the class and the one
      after it, if any, is not. */
  lemma {:induction false} RunFacts(s: string, i: nat, k: CharClass)
    requires i <= |s|
    ensures forall j :: i <= j < i + Run(s, i, k) ==> InClass(s[j], k)
    ensures i + Run(s, i, k) == |s| || !InClass(s[i + Run(s, i, k)], k)
    decreases |s| - i
  {
    if i < |s| && InClass(s[i], k) {
      RunFacts(s, i + 1, k);
    }
  }

  /** The capture groups of one match: `@` target, quoted body, count digits. */
  datatype Match = Match(target: Option<string>, body: string, countDigits: string)

  predicate AllDigits(s: string) {
    forall i :: 0 <= i < |s| ==> IsDigit(s[i])
  }

  /** What any match of the expression captures. */
  predicate WellFormed(m: Match) {
    && (m.target.Some? ==> |m.target.value| >= 1 && AllDigits(m.target.value))
    && |m.body| >= 1 && '"' !in m.body
    && |m.countDigits| >= 1 && AllDigits(m.countDigits)
  }

  /** `"([^"]+)"\s+(\d+)` starting exactly at `q`. */
  function TailAt(s: string, q: nat, target: Option<string>): (r: Option<Match>)
    requires q <= |s|
    ensures r.Some? ==> q < |s| && s[q] == '"' && r.value.target == target
  {
    if q < |s| && s[q] == '"' then
      var b := Run(s, q + 1, NonQuote);
      if b >= 1 && q + 1 + b < |s| then
        var w := Run(s, q + 2 + b, Space);
        if w >= 1 then
          var d := Run(s, q + 2 + b + w, Digit);
          if d >= 1 then Some(Match(target, s[q + 1..q + 1 + b], s[q + 2 + b + w..q + 2 + b + w + d]))
          else None
        else None
      else None
    else None
  }

  /** Every character of `r` is of class `k`. */
  predicate AllIn(r: string, k: CharClass) {
    forall j :: 0 <= j < |r| ==> InClass(r[j], k)
  }

  /** The text of a run is all of its class. */
  lemma RunSlice(s: string, i: nat, k: CharClass)
    requires i <= |s|
    ensures AllIn(s[i..i + Run(s, i, k)], k)
  {
    RunFacts(s, i, k);
    var r := s[i..i + Run(s, i, k)];
    assert forall j :: 0 <= j < |r| ==> r[j] == s[i + j];
  }

  lemma DigitRun(r: string)
    requires AllIn(r, Digit)
    ensures AllDigits(r)
  {
    assert forall j :: 0 <= j < |r| ==> InClass(r[j], Digit);
  }

  lemma NonQuoteRun(r: string)
    requires AllIn(r, NonQuote)
    ensures '"' !in r
  {
    assert forall j :: 0 <= j < |r| ==> InClass(r[j], NonQuote);
  }

  /** A tail match captures a non-empty quote-free body and non-empty digits. */
  lemma TailAtWellFormed(s: string, q: nat, target: Option<string>)
    requires q <= |s|
    requires target.Some? ==> |target.value| >= 1 && AllDigits(target.value)
    ensures TailAt(s, q, target).Some? ==> WellFormed(TailAt(s, q, target).value) && TailAt(s, q, target).value.target == target
  {
    if q < |s| && s[q] == '"' {
      var b := Run(s, q + 1, NonQuote);
      RunSlice(s, q + 1, NonQuote);
      NonQuoteRun(s[q + 1..q + 1 + b]);
      if b >= 1 && q + 1 + b < |s| {
        var w := Run(s, q + 2 + b, Space);
        var d := Run(s, q + 2 + b + w, Digit);
        RunSlice(s, q + 2 + b + w, Digit);
        var body, digits := s[q + 1..q + 1 + b], s[q + 2 + b + w..q + 2 + b + w + d];
        DigitRun(digits);
        if w >= 1 && d >= 1 {
          assert TailAt(s, q, target) == Some(Match(target, body, digits));
          assert WellFormed(Match(target, body, digits));
        }
      }
    }
  }

  /** The whole expression starting exactly at `p`. */
  function MatchAt(s: string, p: nat): (r: Option<Match>)
    requires p <= |s|
    ensures r.Some? ==> p < |s| && (s[p] == '@' <==> r.value.target.Some?)
  {
    if p < |s| && s[p] == '@' then
      var d := Run(s, p + 1, Digit);
      var w := Run(s, p + 1 + d, Space);
      if d >= 1 && w >= 1 then TailAt(s, p + 1 + d + w, Some(s[p + 1..p + 1 + d])) else None
    else TailAt(s, p, None)
  }

  /** A match at a position captures well-formed groups. */
  lemma MatchAtWellFormed(s: string, p: nat)
    requires p <= |s|
    ensures MatchAt(s, p).Some? ==> WellFormed(MatchAt(s, p).value)
  {
    if p < |s| && s[p] == '@' {
      var d := Run(s, p + 1, Digit);
      var w := Run(s, p + 1 + d, Space);
      if d >= 1 && w >= 1 {
        RunSlice(s, p + 1, Digit);
        DigitRun(s[p + 1..p + 1 + d]);
        TailAtWellFormed(s, p + 1 + d + w, Some(s[p + 1..p + 1 + d]));
      }
    } else {
      TailAtWellFormed(s, p, None);
    }
  }

  /** `String.prototype.match` without the global flag: the leftmost match at or after `p`. */
  function Search(s: string, p: nat): Option<Match>
    requires p <= |s|
    decreases |s| - p
  {
    match MatchAt(s, p)
    case Some(m) => Some(m)
    case None => if p == |s| then None else Search(s, p + 1)
  }

  /** Search finds the leftmost position at or after `p` where the
      expression matches, and reports no match only when there is none. */
  lemma {:induction false} SearchIsLeftmost(s: string, p: nat)
    requires p <= |s|
    ensures Search(s, p).Some? ==>
              exists k :: p <= k <= |s| && MatchAt(s, k) == Search(s, p)
                          && forall j :: p <= j < k ==> MatchAt(s, j).None?
    ensures Search(s, p).None? ==> forall k :: p <= k <= |s| ==> MatchAt(s, k).None?
    decreases |s| - p
  {
    if MatchAt(s, p).None? && p < |s| {
      SearchIsLeftmost(s, p + 1);
      if Search(s, p).Some? {
        var k :| p + 1 <= k <= |s| && MatchAt(s, k) == Search(s, p + 1)
                 && forall j :: p + 1 <= j < k ==> MatchAt(s, j).None?;
        assert forall j :: p <= j < k ==> MatchAt(s, j).None?;
      }
    }
  }

  /** The leftmost match captures well-formed groups. */
  lemma {:induction false} SearchWellFormed(s: string, p: nat)
    requires p <= |s|
    ensures Search(s, p).Some? ==> WellFormed(Search(s, p).value)
    decreases |s| - p
  {
    MatchAtWellFormed(s, p);
    if MatchAt(s, p).None? && p < |s| {
      SearchWellFormed(s, p + 1);
    }
  }

  /** The three ways handleSpamCommand can read its arguments. */
  datatype SpamParse =
    | Malformed                                             // the usage message
    | OutOfRange                                            // "Spam count should be between 1 and 20."
    | Accepted(text: string, mentions: seq<string>, count: nat)

  /** The mention list built from the optional `@digits` group. */
  function MentionsOf(target: Option<string>): seq<string> {
    if target.Some? then [target.value + UserSuffix] else []
  }

  function ParseSpamArgs(args: string): (r: SpamParse)
    ensures r.Accepted? ==> 1 <= r.count <= MaxSpamCount
    ensures r.Accepted? ==> |r.text| >= 1 && '"' !in r.text
    ensures r.Accepted? ==> |r.mentions| <= 1
    ensures r.Accepted? && |r.mentions| == 1 ==>
              exists digits :: |digits| >= 1 && AllDigits(digits) && r.mentions[0] == digits + UserSuffix
  {
    SearchWellFormed(args, 0);
    match Search(args, 0)
    case None => Malformed
    case Some(m) =>
      var count := DigitsValue(m.countDigits);
      if count <= 0 || count > MaxSpamCount then OutOfRange
      else Accepted(m.body, MentionsOf(m.target), count)
  }

  lemma {:induction false} NoQuoteNoMatch(s: string, p: nat)
    requires p <= |s|
    requires '"' !in s
    ensures Search(s, p) == None
    decreases |s| - p
  {
    if p < |s| {
      NoQuoteNoMatch(s, p + 1);
    }
  }

  /** Without a double quote anywhere the arguments are malformed (e.g. `hi 3`). */
  lemma NoQuoteIsMalformed(args: string)
    requires '"' !in args
    ensures ParseSpamArgs(args) == Malformed
  {
    NoQuoteNoMatch(args, 0);
  }

  /** The canonical argument text for a target, a body and count digits. */
  function Render(target: Option<string>, body: string, countDigits: string): string {
    (if target.Some? then "@" + target.value + " " else "") + QuotedTail(body, countDigits)
  }

  lemma {:induction false} RunIs(s: string, i: nat, k: CharClass, n: nat)
    requires i + n <= |s|
    requires forall j :: i <= j < i + n ==> InClass(s[j], k)
    requires i + n == |s| || !InClass(s[i + n], k)
    ensures Run(s, i, k) == n
    decreases n
  {
    if n > 0 {
      RunIs(s, i + 1, k, n - 1);
    }
  }

  /** The text after the optional mention group: quoted body, one space, count digits. */
  function QuotedTail(body: string, countDigits: string): string {
    "\"" + body + "\" " + countDigits
  }

  /** `s` holds, from position q on, a quoted body, one space and the count digits. */
  predicate TailLayout(s: string, q: nat, body: string, countDigits: string) {
    && |s| == q + 3 + |body| + |countDigits|
    && s[q] == '"' && s[q + 1 + |body|] == '"' && s[q + 2 + |body|] == ' '
    && s[q + 1..q + 1 + |body|] == body
    && s[q + 3 + |body|..] == countDigits
  }

  lemma QuotedTailAt(pre: string, body: string, countDigits: string)
    ensures TailLayout(pre + QuotedTail(body, countDigits), |pre|, body, countDigits)
  {
    var s := pre + QuotedTail(body, countDigits);
    assert s == (pre + ['"']) + body + (['"', ' '] + countDigits);
    assert s == (pre + ['"'] + body + ['"', ' ']) + countDigits;
  }

  lemma {:induction false} TailOfRender(pre: string, target: Option<string>, body: string, countDigits: string)
    requires target.Some? ==> |target.value| >= 1 && AllDigits(target.value)
    requires |body| >= 1 && '"' !in body
    requires |countDigits| >= 1 && AllDigits(countDigits)
    ensures TailAt(pre + QuotedTail(body, countDigits), |pre|, target) == Some(Match(target, body, countDigits))
  {
    QuotedTailAt(pre, body, countDigits);
    TailOfLayout(pre + QuotedTail(body, countDigits), |pre|, target, body, countDigits);
  }

  /** The tail matcher reads back the body and digits laid out at q. */
  lemma TailOfLayout(s: string, q: nat, target: Option<string>, body: string, countDigits: string)
    requires target.Some? ==> |target.value| >= 1 && AllDigits(target.value)
    requires |body| >= 1 && '"' !in body
    requires |countDigits| >= 1 && AllDigits(countDigits)
    requires TailLayout(s, q, body, countDigits)
    ensures TailAt(s, q, target) == Some(Match(target, body, countDigits))
  {
    LayoutRuns(s, q, body, countDigits);
    TailAtRuns(s, q, target, |body|, |countDigits|);
    assert s[q + 3 + |body|..q + 3 + |body| + |countDigits|] == s[q + 3 + |body|..];
  }

  /** The run lengths the tail matcher measures on a laid-out tail. */
  lemma LayoutRuns(s: string, q: nat, body: string, countDigits: string)
    requires |body| >= 1 && '"' !in body
    requires |countDigits| >= 1 && AllDigits(countDigits)
    requires TailLayout(s, q, body, countDigits)
    ensures Run(s, q + 1, NonQuote) == |body|
    ensures Run(s, q + 2 + |body|, Space) == 1
    ensures Run(s, q + 3 + |body|, Digit) == |countDigits|
  {
    var b, n := |body|, |countDigits|;
    assert forall j :: q + 1 <= j < q + 1 + b ==> s[j] == body[j - q - 1];
    RunIs(s, q + 1, NonQuote, b);
    assert forall j :: q + 3 + b <= j < |s| ==> s[j] == countDigits[j - q - 3 - b];
    assert IsDigit(s[q + 3 + b]);
    RunIs(s, q + 2 + b, Space, 1);
    RunIs(s, q + 3 + b, Digit, n);
  }

  /** TailAt in terms of the three run lengths it measures. */
  lemma TailAtRuns(s: string, q: nat, target: Option<string>, b: nat, n: nat)
    requires target.Some? ==> |target.value| >= 1 && AllDigits(target.value)
    requires q + 1 + b < |s| && s[q] == '"'
    requires b >= 1 && Run(s, q + 1, NonQuote) == b
    requires Run(s, q + 2 + b, Space) == 1
    requires n >= 1 && Run(s, q + 3 + b, Digit) == n
    ensures TailAt(s, q, target) == Some(Match(target, s[q + 1..q + 1 + b], s[q + 3 + b..q + 3 + b + n]))
  {
  }

  /** The canonical text is matched at its first character with exactly the
      groups it was built from. */
  lemma RenderMatches(target: Option<string>, body: string, countDigits: string)
    requires target.Some? ==> |target.value| >= 1 && AllDigits(target.value)
    requires |body| >= 1 && '"' !in body
    requires |countDigits| >= 1 && AllDigits(countDigits)
    ensures Search(Render(target, body, countDigits), 0) == Some(Match(target, body, countDigits))
  {
    var s := Render(target, body, countDigits);
    var tail := QuotedTail(body, countDigits);
    if target.Some? {
      var t := target.value;
      var pre := "@" + t + " ";
      assert s == pre + tail;
      TailOfRender(pre, target, body, countDigits);
      MentionRuns(s, t, tail);
      MatchAtMention(s, t);
    } else {
      assert s == [] + tail;
      TailOfRender([], target, body, countDigits);
      assert MatchAt(s, 0) == TailAt(s, 0, None);
    }
  }

  /** The runs read in `@t ` followed by a quoted tail. */
  lemma MentionRuns(s: string, t: string, tail: string)
    requires |t| >= 1 && AllDigits(t) && |tail| >= 1 && tail[0] == '"'
    requires s == "@" + t + " " + tail
    ensures s[0] == '@' && s[1..1 + |t|] == t
    ensures Run(s, 1, Digit) == |t| && Run(s, 1 + |t|, Space) == 1
  {
    assert s[1..1 + |t|] == t;
    assert forall j :: 1 <= j < 1 + |t| ==> s[j] == t[j - 1];
    assert s[1 + |t|] == ' ' && s[2 + |t|] == '"';
    RunIs(s, 1, Digit, |t|);
    RunIs(s, 1 + |t|, Space, 1);
  }

  /** The optional group read as `@t` and one space hands over to the tail. */
  lemma MatchAtMention(s: string, t: string)
    requires |t| >= 1 && 2 + |t| <= |s| && s[0] == '@' && s[1..1 + |t|] == t
    requires Run(s, 1, Digit) == |t| && Run(s, 1 + |t|, Space) == 1
    ensures MatchAt(s, 0) == TailAt(s, 2 + |t|, Some(t))
  {
  }

  /** Round trip: a rendered command with a count in range is accepted with its
      own body, count and mention; `@123 "hello world" 5` is one instance. */
  lemma ParseRender(target: Option<string>, body: string, count: nat)
    requires target.Some? ==> |target.value| >= 1 && AllDigits(target.value)
    requires |body| >= 1 && '"' !in body
    requires 1 <= count <= MaxSpamCount
    ensures ParseSpamArgs(Render(target, body, NatToString(count))) == Accepted(body, MentionsOf(target), count)
  {
    RenderMatches(target, body, NatToString(count));
    DigitsRoundTrip(count);
  }

  /** A count above the maximum is refused even when the rest is well formed (`"hi" 21`). */
  lemma ParseRenderTooMany(target: Option<string>, body: string, count: nat)
    requires target.Some? ==> |target.value| >= 1 && AllDigits(target.value)
    requires |body| >= 1 && '"' !in body
    requires count == 0 || count > MaxSpamCount
    ensures ParseSpamArgs(Render(target, body, NatToString(count))) == OutOfRange
  {
    RenderMatches(target, body, NatToString(count));
    DigitsRoundTrip(count);
  }

  lemma ExampleWithMention()
    ensures ParseSpamArgs("@123 \"hello world\" 5") == Accepted("hello world", ["123" + UserSuffix], 5)
  {
    var target, body := Some("123"), "hello world";
    assert AllDigits(target.value) by {
      assert target.value == ['1', '2', '3'];
    }
    assert '"' !in body by {
      assert forall i :: 0 <= i < |body| ==> body[i] != '"';
    }
    assert NatToString(5) == "5";
    RenderExample();
    ParseRender(target, body, 5);
  }

  lemma RenderExample()
    ensures Render(Some("123"), "hello world", "5") == "@123 \"hello world\" 5"
  {
    assert QuotedTail("hello world", "5") == "\"hello world\" 5";
    assert "@" + "123" + " " == "@123 ";
    assert "@123 " + "\"hello world\" 5" == "@123 \"hello world\" 5";
  }

  lemma ExampleCountTooLarge()
    ensures ParseSpamArgs("\"hi\" 21") == OutOfRange
  {
    assert '"' !in "hi" by {
      assert "hi" == ['h', 'i'];
    }
    assert NatToString(21) == "21" by {
      assert NatToString(2) == "2";
    }
    var text := Render(None, "hi", "21");
    assert text == "\"hi\" 21";
    ParseRenderTooMany(None, "hi", 21);
  }

  lemma ExampleUnquoted()
    ensures ParseSpamArgs("hi 3") == Malformed
  {
    assert '"' !in "hi 3" by {
      assert "hi 3" == ['h', 'i', ' ', '3'];
    }
    NoQuoteIsMalformed("hi 3");
  }
}
