/** The flood detector of main.js (checkSpam): a sender floods a chat when
    the chat's history holds at least SpamThreshold of their messages whose
    timestamps lie less than SpamWindowMs before now. */
module SpamDetector {
  import opened Ledger

  /** SPAM_THRESHOLD_TIME_MS. */
  const SpamWindowMs: int := 5000
  /** SPAM_THRESHOLD_COUNT. */
  const SpamThreshold: nat := 5

  /** `history.filter(msg => msg.sender === senderJid)`. */
  function FromSender(h: seq<Entry>, sender: string): (r: seq<Entry>)
    ensures |r| <= |h|
    ensures forall x :: x in r <==> x in h && x.sender == sender
  {
    if h == [] then []
    else
      var rest := FromSender(h[..|h| - 1], sender);
      if h[|h| - 1].sender == sender then rest + [h[|h| - 1]] else rest
  }

  /** The sender filter keeps every matching entry as often as the history holds it, and no other. */
  lemma {:induction false} FromSenderCounts(h: seq<Entry>, sender: string)
    ensures forall x :: multiset(FromSender(h, sender))[x] == if x.sender == sender then multiset(h)[x] else 0
    decreases |h|
  {
    if h != [] {
      var init, y := h[..|h| - 1], h[|h| - 1];
      assert h == init + [y];
      FromSenderCounts(init, sender);
    }
  }

  /** The sender filter keeps order: filtering a concatenation concatenates the filtered parts. */
  lemma {:induction false} FromSenderAppend(a: seq<Entry>, b: seq<Entry>, sender: string)
    ensures FromSender(a + b, sender) == FromSender(a, sender) + FromSender(b, sender)
    decreases |b|
  {
    if b == [] {
      assert a + b == a;
    } else {
      var init, x := b[..|b| - 1], b[|b| - 1];
      assert (a + b)[..|a + b| - 1] == a + init;
      FromSenderAppend(a, init, sender);
    }
  }

  /** The entry's timestamp lies less than SpamWindowMs before `now`. */
  predicate InWindow(e: Entry, now: int) {
    now - e.timestamp < SpamWindowMs
  }

  /** `history.filter(msg => now - msg.timestamp < SPAM_THRESHOLD_TIME_MS)`. */
  function WithinWindow(h: seq<Entry>, now: int): (r: seq<Entry>)
    ensures |r| <= |h|
    ensures forall x :: x in r <==> x in h && InWindow(x, now)
  {
    if h == [] then []
    else
      var rest := WithinWindow(h[..|h| - 1], now);
      if InWindow(h[|h| - 1], now) then rest + [h[|h| - 1]] else rest
  }

  /** The window filter keeps every matching entry as often as the history holds it, and no other. */
  lemma {:induction false} WithinWindowCounts(h: seq<Entry>, now: int)
    ensures forall x :: multiset(WithinWindow(h, now))[x] == if InWindow(x, now) then multiset(h)[x] else 0
    decreases |h|
  {
    if h != [] {
      var init, y := h[..|h| - 1], h[|h| - 1];
      assert h == init + [y];
      WithinWindowCounts(init, now);
    }
  }

  /** The window filter keeps order: filtering a concatenation concatenates the filtered parts. */
  lemma {:induction false} WithinWindowAppend(a: seq<Entry>, b: seq<Entry>, now: int)
    ensures WithinWindow(a + b, now) == WithinWindow(a, now) + WithinWindow(b, now)
    decreases |b|
  {
    if b == [] {
      assert a + b == a;
    } else {
      var init, x := b[..|b| - 1], b[|b| - 1];
      assert (a + b)[..|a + b| - 1] == a + init && (a + b)[|a + b| - 1] == x;
      assert b[..|b| - 1] == init;
      WithinWindowAppend(a, init, now);
      if InWindow(x, now) {
        assert WithinWindow(b, now) == WithinWindow(init, now) + [x];
      } else {
        assert WithinWindow(b, now) == WithinWindow(init, now);
      }
    }
  }

  /** checkSpam(jid, senderJid) with `Date.now()` passed as `now`. */
  function CheckSpam(chats: map<string, seq<Entry>>, jid: string, sender: string, now: int): (spam: bool)
    ensures jid !in chats ==> !spam
  {
    if jid !in chats then false
    else |WithinWindow(FromSender(chats[jid], sender), now)| >= SpamThreshold
  }

  /** The entry was sent by `sender` within the window before `now`. */
  predicate IsRecentFrom(e: Entry, sender: string, now: int) {
    e.sender == sender && InWindow(e, now)
  }

  /** Reference definition: the positions of the history holding a recent message from `sender`. */
  function RecentIndices(h: seq<Entry>, sender: string, now: int): set<int> {
    set i | 0 <= i < |h| && IsRecentFrom(h[i], sender, now)
  }

  lemma {:induction false} RecentIndicesSnoc(h: seq<Entry>, x: Entry, sender: string, now: int)
    ensures RecentIndices(h + [x], sender, now)
         == RecentIndices(h, sender, now) + (if IsRecentFrom(x, sender, now) then {|h|} else {})
    ensures |h| !in RecentIndices(h, sender, now)
  {
    var s := h + [x];
    assert forall i :: 0 <= i < |h| ==> s[i] == h[i];
    assert s[|h|] == x;
  }

  /** The two filters of the source, one after the other, count exactly the recent
      messages from the sender. */
  lemma {:induction false} FilteredCountIsRecentCount(h: seq<Entry>, sender: string, now: int)
    ensures |WithinWindow(FromSender(h, sender), now)| == |RecentIndices(h, sender, now)|
    decreases |h|
  {
    if h == [] {
      assert RecentIndices(h, sender, now) == {};
    } else {
      var init, x := h[..|h| - 1], h[|h| - 1];
      assert h == init + [x];
      FilteredCountIsRecentCount(init, sender, now);
      RecentIndicesSnoc(init, x, sender, now);
      var f := FromSender(init, sender);
      if x.sender == sender {
        assert FromSender(h, sender) == f + [x];
        assert (f + [x])[..|f + [x]| - 1] == f;
      }
    }
  }

  /** checkSpam is true exactly when the chat has a history holding at least
      SpamThreshold recent messages from the sender: four is not enough, five is. */
  lemma SpamIffThreshold(chats: map<string, seq<Entry>>, jid: string, sender: string, now: int)
    ensures CheckSpam(chats, jid, sender, now)
        <==> jid in chats && |RecentIndices(chats[jid], sender, now)| >= SpamThreshold
  {
    if jid in chats {
      FilteredCountIsRecentCount(chats[jid], sender, now);
    }
  }

  /** Right after the pipeline records a message stamped `now`, that message
      counts itself: the sender is flagged iff at least SpamThreshold - 1 of
      their earlier recent messages survive in the MaxHistory - 1 newest entries. */
  lemma SpamRightAfterRecording(chats: map<string, seq<Entry>>, jid: string, e: Entry, now: int)
    requires |History(chats, jid)| <= MaxHistory
    requires e.timestamp == now
    ensures CheckSpam(chats[jid := Appended(History(chats, jid), e)], jid, e.sender, now)
        <==> |RecentIndices(LastN(History(chats, jid), MaxHistory - 1), e.sender, now)| >= SpamThreshold - 1
  {
    var h := History(chats, jid);
    var kept := LastN(h, MaxHistory - 1);
    assert Appended(h, e) == kept + [e] by {
      if |h| == MaxHistory {
        assert (h + [e])[1..] == h[1..] + [e];
      }
    }
    SpamIffThreshold(chats[jid := Appended(h, e)], jid, e.sender, now);
    RecentIndicesSnoc(kept, e, e.sender, now);
    assert IsRecentFrom(e, e.sender, now);
  }
}
