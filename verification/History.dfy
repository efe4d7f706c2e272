/** The part of a conversation that is sent upstream. */
module History {
  import opened Common
  import opened Conversations

  function Chars(msgs: seq<Message>): nat {
    if msgs == [] then 0 else |msgs[0].content| + Chars(msgs[1..])
  }

  /** The size of a stretch of history is the sum of its messages' sizes. */
  lemma {:induction false} CharsAdd(a: seq<Message>, b: seq<Message>)
    ensures Chars(a + b) == Chars(a) + Chars(b)
  {
    if a == [] {
      assert a + b == b;
    } else {
      assert (a + b)[1..] == a[1..] + b;
      CharsAdd(a[1..], b);
    }
  }

  lemma CharsOfOne(m: Message)
    ensures Chars([m]) == |m.content| && Chars([]) == 0
  {
    assert [m][1..] == [];
  }

  /** Where `history[-n:]` starts in Python: `-0` is 0, and a negative n drops from the front. */
  function TailStart(length: nat, n: int): (start: nat)
    ensures start <= length
  {
    if n > 0 then (if n < length then length - n else 0)
    else if -n < length then -n else length
  }

  function Suffix(history: seq<Message>, k: nat): seq<Message>
    requires k <= |history|
  {
    history[|history| - k..]
  }

  /**
   * `k` messages are the right window: all that the slice allows, or as many as the character budget
   * allows, the newest one being kept whatever its size.
   */
  predicate IsWindow(history: seq<Message>, maxMessages: int, maxChars: int, k: nat) {
    var allowed := |history| - TailStart(|history|, maxMessages);
    && k <= allowed
    && (allowed > 0 ==> k > 0)
    && (k > 1 ==> Chars(Suffix(history, k)) <= maxChars)
    && (k < allowed ==> Chars(Suffix(history, k + 1)) > maxChars)
  }

  method RecentWindow(history: seq<Message>, maxMessages: int, maxChars: int) returns (kept: seq<Message>)
    ensures |kept| <= |history| && kept == Suffix(history, |kept|)
    ensures IsWindow(history, maxMessages, maxChars, |kept|)
    ensures maxMessages >= 1 ==> |kept| <= maxMessages && (history != [] ==> kept != [])
  {
    var start := TailStart(|history|, maxMessages);
    var budget := maxChars;
    kept := [];
    var i := |history|;
    while i > start
      invariant start <= i <= |history|
      invariant kept == history[i..]
      invariant budget == maxChars - Chars(kept)
      invariant |kept| > 1 ==> budget >= 0
    {
      var message := history[i - 1];
      assert [message] + kept == history[i - 1..];
      assert ([message] + kept)[1..] == kept;
      if kept == [] || budget - |message.content| >= 0 {
        budget := budget - |message.content|;
        kept := [message] + kept;
      } else {
        return;
      }
      i := i - 1;
    }
  }

  lemma {:induction false} CharsGrow(history: seq<Message>, j: nat, k: nat)
    requires j <= k <= |history|
    ensures Chars(Suffix(history, j)) <= Chars(Suffix(history, k))
    decreases k
  {
    if j < k {
      assert Suffix(history, k)[1..] == Suffix(history, k - 1);
      CharsGrow(history, j, k - 1);
    }
  }

  /**
   * For a positive limit the window is the longest suffix within both bounds, or the newest message
   * alone when even that exceeds the budget; and it is unique.
   */
  lemma WindowIsLongest(history: seq<Message>, maxMessages: int, maxChars: int, k: nat, j: nat)
    requires maxMessages >= 1 && history != [] && k <= |history| && j <= |history|
    requires IsWindow(history, maxMessages, maxChars, k)
    ensures 1 <= k <= maxMessages
    ensures Chars(Suffix(history, k)) <= maxChars || (k == 1 && |history[|history| - 1].content| > maxChars)
    ensures j <= maxMessages && Chars(Suffix(history, j)) <= maxChars ==> j <= k
    ensures IsWindow(history, maxMessages, maxChars, j) ==> j == k
  {
    assert Suffix(history, 1) == [history[|history| - 1]];
    assert Suffix(history, 1)[1..] == [];
    if j > k {
      CharsGrow(history, k + 1, j);
    }
    if j < k {
      CharsGrow(history, j + 1, k);
    }
  }

  /** A limit of zero bounds nothing: `[-0:]` is the whole history, as for any limit that is not reached. */
  lemma ZeroLimitIsNoLimit(history: seq<Message>, maxChars: int, k: nat, n: nat)
    requires k <= |history| && n >= |history| && n >= 1
    ensures IsWindow(history, 0, maxChars, k) <==> IsWindow(history, n, maxChars, k)
  {
    assert TailStart(|history|, 0) == TailStart(|history|, n);
  }
}
