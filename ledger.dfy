/** The conversation history ledger of main.js: per chat, the last
    MaxHistory messages seen, oldest first (updateMessageHistory). */
module Ledger {

  /** MAX_MESSAGE_HISTORY. */
  const MaxHistory: nat := 20

  /** One remembered message: `{ sender, text, timestamp }`. */
  datatype Entry = Entry(sender: string, text: string, timestamp: int)

  /** A chat's history, the empty sequence for a chat never seen. */
  function History(chats: map<string, seq<Entry>>, jid: string): seq<Entry> {
    if jid in chats then chats[jid] else []
  }

  /** The last `n` elements of `s` (all of them when there are fewer). */
  function LastN(s: seq<Entry>, n: nat): (r: seq<Entry>)
    ensures |r| == if |s| <= n then |s| else n
  {
    if |s| <= n then s else s[|s| - n..]
  }

  /** The history after `push(e)` followed by one `shift()` when the length exceeds the capacity. */
  function Appended(h: seq<Entry>, e: Entry): (r: seq<Entry>)
    ensures |r| == if |h| + 1 > MaxHistory then |h| else |h| + 1
    ensures r[|r| - 1] == e
    ensures |h| <= MaxHistory ==> r == LastN(h + [e], MaxHistory)
  {
    var pushed := h + [e];
    if |pushed| > MaxHistory then pushed[1..] else pushed
  }

  /** The history after appending each of `es` in turn. */
  function AppendAll(h: seq<Entry>, es: seq<Entry>): seq<Entry>
    decreases |es|
  {
    if es == [] then h else AppendAll(Appended(h, es[0]), es[1..])
  }

  /** One append on a history within capacity: the new entry is last, the
      capacity holds, and the oldest entry is the only one that can go. */
  lemma AppendedWithinCapacity(h: seq<Entry>, e: Entry)
    requires |h| <= MaxHistory
    ensures |Appended(h, e)| <= MaxHistory
    ensures Appended(h, e)[|Appended(h, e)| - 1] == e
    ensures |h| == MaxHistory ==> Appended(h, e) == h[1..] + [e]
    ensures |h| < MaxHistory ==> Appended(h, e) == h + [e]
  {
  }

  lemma LastNOfLastN(a: seq<Entry>, b: seq<Entry>, n: nat)
    ensures LastN(LastN(a, n) + b, n) == LastN(a + b, n)
  {
    if |a| > n {
      var k := |a| - n;
      assert a + b == a[..k] + (a[k..] + b);
      var s := a[k..] + b;
      assert (a + b)[|a + b| - n..] == s[|s| - n..];
    }
  }

  /** Any run of appends keeps exactly the most recent MaxHistory messages, in arrival order. */
  lemma {:induction false} AppendAllKeepsWindow(h: seq<Entry>, es: seq<Entry>)
    requires |h| <= MaxHistory
    ensures AppendAll(h, es) == LastN(h + es, MaxHistory)
    decreases |es|
  {
    if es != [] {
      var h1 := Appended(h, es[0]);
      AppendAllKeepsWindow(h1, es[1..]);
      LastNOfLastN(h + [es[0]], es[1..], MaxHistory);
      assert h + [es[0]] + es[1..] == h + es;
    }
  }

  /** Appending capacity+1 messages to a new chat drops exactly the first one
      and keeps the rest in their original order. */
  lemma CapacityPlusOne(es: seq<Entry>)
    requires |es| == MaxHistory + 1
    ensures AppendAll([], es) == es[1..]
  {
    AppendAllKeepsWindow([], es);
    assert [] + es == es;
  }

  /** The process-wide `messageHistory` map. */
  class ChatLedger {
    var chats: map<string, seq<Entry>>

    ghost predicate Valid()
      reads this
    {
      forall jid :: jid in chats ==> |chats[jid]| <= MaxHistory
    }

    constructor ()
      ensures Valid() && chats == map[]
    {
      chats := map[];
    }

    /** updateMessageHistory(jid, e). */
    method Append(jid: string, e: Entry)
      requires Valid()
      modifies this
      ensures Valid()
      ensures chats == old(chats)[jid := Appended(History(old(chats), jid), e)]
      ensures |chats[jid]| <= MaxHistory && chats[jid][|chats[jid]| - 1] == e
      ensures forall j :: j != jid ==> History(chats, j) == History(old(chats), j)
    {
      var h := History(chats, jid);
      h := h + [e];
      if |h| > MaxHistory {
        h := h[1..];
      }
      chats := chats[jid := h];
    }
  }
}
