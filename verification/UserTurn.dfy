/**
 * `_record_user_turn`: the first transaction of a turn, with other transactions moving between its
 * insert and the query that reads the conversation back.
 */
module UserTurn {
  import opened Common
  import opened Events
  import opened Conversations
  import opened History

  function Target(existing: Option<ConvId>, minted: ConvId): ConvId {
    if existing.Some? then existing.value else minted
  }

  /** The transaction's steps up to its insert. */
  function Opening(t: TxId, existing: Option<ConvId>, minted: ConvId, content: string): seq<Label> {
    (if existing.Some? then [] else [CreateConversation(t, minted)])
    + LockAndAppend(t, Target(existing, minted), User, content)
  }

  /** After those steps and then `others`, the transaction's next query sees `later`. */
  ghost predicate SeesLater(s: State, t: TxId, c: ConvId, opening: seq<Label>, others: seq<Label>, later: map<ConvId, set<Message>>) {
    Run(s, opening).Some? ==>
      var now := Run(Run(s, opening).value, others);
      && now.Some? && Undisturbed(others, t, c)
      && (t in now.value.txs ==> Shows(later, now.value.txs[t].locks, now.value, t))
  }

  lemma FreshIsUnlocked(s: State, t: TxId, c: ConvId)
    requires Inv(s) && t in s.txs && c !in s.used
    ensures Next(s, CreateConversation(t, c)).Some? && LockFree(Next(s, CreateConversation(t, c)).value, c, {t})
    ensures Visible(Next(s, CreateConversation(t, c)).value, Next(s, CreateConversation(t, c)).value.txs[t], c) == []
  {
    forall u | u in s.txs ensures c !in s.txs[u].locks && c !in s.txs[u].writes {
      assert TxOk(s, s.txs[u]);
    }
  }

  lemma RunCons(s: State, l: Label, rest: seq<Label>)
    requires Next(s, l).Some?
    ensures Run(s, [l] + rest) == Run(Next(s, l).value, rest)
  {
    assert ([l] + rest)[1..] == rest;
  }

  /** Under its lock the transaction still sees what it saw when it inserted. */
  lemma LaterHolds(s: State, t: TxId, c: ConvId, others: seq<Label>, later: map<ConvId, set<Message>>)
    requires Inv(s) && t in s.txs && c in s.txs[t].locks
    requires Run(s, others).Some? && Undisturbed(others, t, c)
    requires t in Run(s, others).value.txs ==>
      Shows(later, Run(s, others).value.txs[t].locks, Run(s, others).value, t)
    ensures c in later && Numbered(later[c]) && InSeqOrder(Visible(s, s.txs[t], c), later[c])
  {
    var now := Run(s, others).value;
    RunKeepsHeldView(s, others, t, c);
    RunKeepsInv(s, others);
    assert TxOk(now, now.txs[t]);
    ShownRowsAreNumbered(later, now.txs[t].locks, now, t, c);
  }

  /** Up to the insert: find or create the conversation, append the message. */
  method Insert(
    repo: ConversationRepository, existing: Option<ConvId>, minted: ConvId, content: string, ghost s: State, ghost t: TxId)
    returns (r: Result<Message>, ghost inserted: State)
    requires Inv(s) && t in s.txs && Shows(repo.rows, repo.locks, s, t)
    requires existing.None? ==> minted !in s.used
    requires existing.Some? && existing.value in repo.rows ==> LockFree(s, existing.value, {t})
    modifies repo
    ensures r.Raised? <==> existing.Some? && existing.value !in old(repo.rows)
    ensures r.Ok? ==>
      var c := Target(existing, minted);
      && Run(s, Opening(t, existing, minted, content)) == Some(inserted) && Inv(inserted)
      && t in inserted.txs && c in inserted.txs[t].locks
      && Visible(inserted, inserted.txs[t], c) == Visible(s, s.txs[t], c) + [r.value]
      && (existing.None? ==> Visible(s, s.txs[t], c) == [])
      && r.value == Message(User, content, |Visible(s, s.txs[t], c)|)
  {
    inserted := s;
    if existing.Some? {
      if existing.value !in repo.rows {
        return Raised, s;
      }
      assert Opening(t, existing, minted, content) == LockAndAppend(t, existing.value, User, content);
      ShownRowsAreNumbered(repo.rows, repo.locks, s, t, existing.value);
    } else {
      FreshIsUnlocked(s, t, minted);
      NextKeepsInv(s, CreateConversation(t, minted));
      repo.Create(minted, s, t);
      inserted := Next(s, CreateConversation(t, minted)).value;
      RunCons(s, CreateConversation(t, minted), LockAndAppend(t, minted, User, content));
    }
    var c := Target(existing, minted);
    r := repo.AppendMessage(c, User, content, inserted, t);
    inserted := Run(inserted, LockAndAppend(t, c, User, content)).value;
  }

  /** The next statement takes a new snapshot, and reads the transcript back in order. */
  method ReadBack(
    repo: ConversationRepository, c: ConvId, later: map<ConvId, set<Message>>,
    ghost s: State, ghost t: TxId, ghost others: seq<Label>)
    returns (history: seq<Message>)
    requires Inv(s) && t in s.txs && c in s.txs[t].locks
    requires Run(s, others).Some? && Undisturbed(others, t, c)
    requires t in Run(s, others).value.txs ==>
      Shows(later, Run(s, others).value.txs[t].locks, Run(s, others).value, t)
    modifies repo
    ensures history == Visible(s, s.txs[t], c) && Dense(history)
  {
    LaterHolds(s, t, c, others, later);
    repo.rows := later;
    history := repo.Messages(c);
    OrderIsUnique(history, Visible(s, s.txs[t], c), later[c]);
  }

  /**
   * The message is recorded behind everything the conversation holds, and the window sent upstream is
   * cut from that transcript with the message as its last, whatever other transactions do between the
   * insert and the query.
   */
  method RecordUserTurn(
    repo: ConversationRepository, existing: Option<ConvId>, minted: ConvId, content: string,
    maxMessages: int, maxChars: int, later: map<ConvId, set<Message>>,
    ghost s: State, ghost t: TxId, ghost others: seq<Label>)
    returns (r: Result<(ConvId, Message, seq<Message>)>)
    requires Inv(s) && t in s.txs && Shows(repo.rows, repo.locks, s, t)
    requires existing.None? ==> minted !in s.used
    requires existing.Some? && existing.value in repo.rows ==> LockFree(s, existing.value, {t})
    requires SeesLater(s, t, Target(existing, minted), Opening(t, existing, minted, content), others, later)
    modifies repo
    ensures r.Raised? <==> existing.Some? && existing.value !in old(repo.rows)
    ensures r.Ok? ==>
      var (c, message, window) := r.value;
      var before := Visible(s, s.txs[t], c);
      var transcript := before + [message];
      && c == Target(existing, minted)
      && (existing.None? ==> before == [])
      && message == Message(User, content, |before|) && Dense(transcript)
      && Run(s, Opening(t, existing, minted, content)).Some?
      && |window| <= |transcript| && window == Suffix(transcript, |window|)
      && IsWindow(transcript, maxMessages, maxChars, |window|)
      && (maxMessages >= 1 ==> window != [] && window[|window| - 1] == message)
  {
    ghost var inserted;
    var appended;
    appended, inserted := Insert(repo, existing, minted, content, s, t);
    if appended.Raised? {
      return Raised;
    }
    var c := Target(existing, minted);
    var history := ReadBack(repo, c, later, inserted, t, others);
    var window := RecentWindow(history, maxMessages, maxChars);
    return Ok((c, appended.value, window));
  }
}
