/**
 * Message order under concurrency: transactions that lock a conversation, read its highest
 * `seq` and insert the next one, interleaved at statement boundaries.
 */
module Conversations {
  import opened Common
  import opened Events

  datatype Role = User | Assistant | System

  datatype Message = Message(role: Role, content: string, seqNo: int)

  /** SELECT max(seq); None on no rows. */
  function MaxSeq(msgs: seq<Message>): Option<int> {
    if msgs == [] then None
    else
      var rest := MaxSeq(msgs[..|msgs| - 1]);
      var last := msgs[|msgs| - 1].seqNo;
      if rest.Some? && rest.value > last then rest else Some(last)
  }

  /** coalesce(max(seq), -1) + 1. */
  function NextSeq(msgs: seq<Message>): int {
    (if MaxSeq(msgs).Some? then MaxSeq(msgs).value else -1) + 1
  }

  /** The `seq` values are exactly 0, 1, .., n-1, in this order. */
  predicate Dense(msgs: seq<Message>) {
    forall i :: 0 <= i < |msgs| ==> msgs[i].seqNo == i
  }

  lemma DenseMax(msgs: seq<Message>)
    requires Dense(msgs)
    ensures NextSeq(msgs) == |msgs|
  {
    if msgs != [] {
      DenseMax(msgs[..|msgs| - 1]);
    }
  }

  // ---- the rows of one conversation, which a table holds in no order ----

  /** The unique constraint on (conversation_id, seq). */
  predicate UniqueSeq(rows: set<Message>) {
    forall m, n :: m in rows && n in rows && m.seqNo == n.seqNo ==> m == n
  }

  /** The numbers in use are those below the number of rows. */
  predicate Numbered(rows: set<Message>) {
    UniqueSeq(rows) && forall m :: m in rows ==> 0 <= m.seqNo < |rows|
  }

  /** `msgs` lists just these rows, by ascending `seq`. */
  predicate InSeqOrder(msgs: seq<Message>, rows: set<Message>) {
    && (forall i, j :: 0 <= i < j < |msgs| ==> msgs[i].seqNo < msgs[j].seqNo)
    && (forall i :: 0 <= i < |msgs| ==> msgs[i] in rows)
    && (forall m :: m in rows ==> m in msgs)
  }

  /** coalesce(max(seq), -1) + 1, on rows. */
  predicate IsNextSeq(rows: set<Message>, next: int) {
    if rows == {} then next == 0
    else (exists m :: m in rows && m.seqNo + 1 == next) && (forall m :: m in rows ==> m.seqNo < next)
  }

  lemma NextSeqStep(rows: set<Message>, next: int, m: Message)
    requires IsNextSeq(rows, next) && m.seqNo >= 0
    ensures IsNextSeq(rows + {m}, if m.seqNo >= next then m.seqNo + 1 else next)
  {
    assert m in rows + {m};
    if rows != {} {
      var n :| n in rows && n.seqNo + 1 == next;
      assert n in rows + {m};
    }
  }

  lemma {:induction false} Pigeonhole(rows: set<Message>, n: nat)
    requires UniqueSeq(rows) && forall m :: m in rows ==> 0 <= m.seqNo < n
    ensures |rows| <= n
  {
    if n == 0 {
      assert rows == {};
    } else if exists m :: m in rows && m.seqNo == n - 1 {
      var m :| m in rows && m.seqNo == n - 1;
      Pigeonhole(rows - {m}, n - 1);
    } else {
      Pigeonhole(rows, n - 1);
    }
  }

  /** So the next number is the number of rows. */
  lemma NumberedNext(rows: set<Message>, next: int)
    requires Numbered(rows) && IsNextSeq(rows, next)
    ensures next == |rows|
  {
    if rows != {} {
      var m :| m in rows && m.seqNo + 1 == next;
      Pigeonhole(rows, next);
    }
  }

  lemma {:induction false} OrderedCount(msgs: seq<Message>, rows: set<Message>)
    requires InSeqOrder(msgs, rows)
    ensures |msgs| == |rows|
  {
    if msgs == [] {
      assert rows == {};
    } else {
      var last := msgs[|msgs| - 1];
      var init := msgs[..|msgs| - 1];
      forall m | m in rows - {last} ensures m in init {
        var i :| 0 <= i < |msgs| && msgs[i] == m;
        assert init[i] == m;
      }
      OrderedCount(init, rows - {last});
    }
  }

  lemma OrderedSnoc(msgs: seq<Message>, rows: set<Message>, m: Message)
    requires InSeqOrder(msgs, rows) && forall n :: n in rows ==> n.seqNo < m.seqNo
    ensures InSeqOrder(msgs + [m], rows + {m})
  {
    var longer := msgs + [m];
    assert longer[|msgs|] == m;
    forall n | n in rows ensures n in longer {
      var i :| 0 <= i < |msgs| && msgs[i] == n;
      assert longer[i] == n;
    }
  }

  lemma {:induction false} IncreasingGap(msgs: seq<Message>, i: nat, j: nat)
    requires forall k, l :: 0 <= k < l < |msgs| ==> msgs[k].seqNo < msgs[l].seqNo
    requires i <= j < |msgs|
    ensures msgs[j].seqNo - msgs[i].seqNo >= j - i
    decreases j
  {
    if i < j {
      IncreasingGap(msgs, i, j - 1);
    }
  }

  /** Read in `seq` order, numbered rows are numbered by position. */
  lemma OrderedIsDense(msgs: seq<Message>, rows: set<Message>)
    requires InSeqOrder(msgs, rows) && Numbered(rows)
    ensures |msgs| == |rows| && Dense(msgs)
  {
    OrderedCount(msgs, rows);
    forall i | 0 <= i < |msgs| ensures msgs[i].seqNo == i {
      IncreasingGap(msgs, 0, i);
      IncreasingGap(msgs, i, |msgs| - 1);
    }
  }

  function RowsOf(msgs: seq<Message>): set<Message> {
    set m | m in msgs
  }

  /** The transaction steps below number as the query on rows does. */
  lemma {:induction false} NextSeqIsNext(msgs: seq<Message>)
    ensures IsNextSeq(RowsOf(msgs), NextSeq(msgs))
  {
    if msgs != [] {
      var init, last := msgs[..|msgs| - 1], msgs[|msgs| - 1];
      NextSeqIsNext(init);
      assert msgs[|msgs| - 1] in RowsOf(msgs);
      assert forall m :: m in msgs ==> m in init || m == last;
      assert forall m :: m in init ==> m in msgs;
      if init == [] {
        assert MaxSeq(init).None?;
      } else {
        assert init[0] in RowsOf(init);
        var m :| m in RowsOf(init) && m.seqNo + 1 == NextSeq(init);
        assert m in msgs;
      }
    }
  }

  // ---- many transactions at once ----

  type TxId = nat

  /** `mine`: conversations this transaction created; `writes`: its inserted, uncommitted messages. */
  datatype Tx = Tx(mine: set<ConvId>, locks: set<ConvId>, writes: map<ConvId, seq<Message>>)

  datatype State = State(committed: map<ConvId, seq<Message>>, txs: map<TxId, Tx>, used: set<ConvId>)

  datatype Label =
    | Begin(t: TxId)
    | CreateConversation(t: TxId, c: ConvId)
    | Lock(t: TxId, c: ConvId)                  // SELECT .. FOR UPDATE, waits for other holders
    | Append(t: TxId, c: ConvId, role: Role, content: string)
    | CommitTx(t: TxId)
    | Rollback(t: TxId)                         // an exception, including a failed append
    | DeleteConversation(c: ConvId)             // its own transaction; waits for lock holders

  function Written(x: Tx, c: ConvId): seq<Message> {
    if c in x.writes then x.writes[c] else []
  }

  /** READ COMMITTED: what others have committed, plus its own writes. */
  function Visible(s: State, x: Tx, c: ConvId): seq<Message> {
    (if c in s.committed then s.committed[c] else []) + Written(x, c)
  }

  predicate LockFree(s: State, c: ConvId, except: set<TxId>) {
    forall u :: u in s.txs && u !in except ==> c !in s.txs[u].locks
  }

  function Merged(s: State, x: Tx): map<ConvId, seq<Message>> {
    s.committed + map c | c in x.mine + x.writes.Keys :: Visible(s, x, c)
  }

  function Next(s: State, l: Label): Option<State> {
    match l
    case Begin(t) =>
      if t in s.txs then None else Some(s.(txs := s.txs[t := Tx({}, {}, map[])]))
    case CreateConversation(t, c) =>
      if t !in s.txs || c in s.used then None
      else Some(s.(txs := s.txs[t := s.txs[t].(mine := s.txs[t].mine + {c})], used := s.used + {c}))
    case Lock(t, c) =>
      if t !in s.txs || !LockFree(s, c, {t}) || (c !in s.committed && c !in s.txs[t].mine) then None
      else Some(s.(txs := s.txs[t := s.txs[t].(locks := s.txs[t].locks + {c})]))
    case Append(t, c, role, content) =>
      if t !in s.txs || c !in s.txs[t].locks then None
      else
        var x := s.txs[t];
        var message := Message(role, content, NextSeq(Visible(s, x, c)));
        Some(s.(txs := s.txs[t := x.(writes := x.writes[c := Written(x, c) + [message]])]))
    case CommitTx(t) =>
      if t !in s.txs then None
      else Some(s.(committed := Merged(s, s.txs[t]), txs := s.txs - {t}))
    case Rollback(t) =>
      if t !in s.txs then None else Some(s.(txs := s.txs - {t}))
    case DeleteConversation(c) =>
      if c !in s.committed || !LockFree(s, c, {}) then None else Some(s.(committed := s.committed - {c}))
  }

  function Run(s: State, labels: seq<Label>): Option<State>
    decreases |labels|
  {
    if labels == [] then Some(s)
    else
      var next := Next(s, labels[0]);
      if next.None? then None else Run(next.value, labels[1..])
  }

  function Init(): State {
    State(map[], map[], {})
  }

  predicate TxOk(s: State, x: Tx) {
    && (forall c :: c in x.mine ==> c in s.used && c !in s.committed)
    && (forall c :: c in x.locks ==> c in s.committed || c in x.mine)
    && (forall c :: c in x.writes ==> c in x.locks)
    && (forall c :: c in x.writes ==> Dense(Visible(s, x, c)))
  }

  predicate Apart(x: Tx, y: Tx) {
    x.mine !! y.mine && x.locks !! y.locks
  }

  predicate Inv(s: State) {
    && (forall c :: c in s.committed ==> Dense(s.committed[c]) && c in s.used)
    && (forall t :: t in s.txs ==> TxOk(s, s.txs[t]))
    && (forall t, u :: t in s.txs && u in s.txs && t != u ==> Apart(s.txs[t], s.txs[u]))
  }

  /** Committing one transaction leaves the others' view of their own conversations alone. */
  lemma CommitKeepsOthers(s: State, t: TxId, u: TxId)
    requires Inv(s) && t in s.txs && u in s.txs && t != u
    ensures TxOk(s.(committed := Merged(s, s.txs[t]), txs := s.txs - {t}), s.txs[u])
  {
    var n := s.(committed := Merged(s, s.txs[t]), txs := s.txs - {t});
    var x, y := s.txs[t], s.txs[u];
    assert Apart(x, y) && TxOk(s, x) && TxOk(s, y);
    forall c | c in y.writes ensures Visible(n, y, c) == Visible(s, y, c) {
      assert c !in x.writes;
    }
    forall c | c in y.mine ensures c !in n.committed {
      assert c !in x.writes;
    }
  }

  lemma AppendKeepsTx(s: State, t: TxId, c: ConvId, role: Role, content: string)
    requires Inv(s) && Next(s, Append(t, c, role, content)).Some?
    ensures var n := Next(s, Append(t, c, role, content)).value; TxOk(n, n.txs[t])
  {
    var n := Next(s, Append(t, c, role, content)).value;
    var x, y := s.txs[t], n.txs[t];
    assert TxOk(s, x);
    AppendIsDense(s, x, c);
    forall d | d in y.writes ensures Dense(Visible(n, y, d)) {
      if d == c {
        assert Visible(n, y, c) == Visible(s, x, c) + [Message(role, content, |Visible(s, x, c)|)];
      } else {
        assert Visible(n, y, d) == Visible(s, x, d);
      }
    }
  }

  /** A step that commits nothing leaves the other transactions as they were. */
  lemma TxPersists(s: State, n: State, x: Tx)
    requires TxOk(s, x) && n.committed == s.committed && s.used <= n.used
    ensures TxOk(n, x)
  {
    assert forall c :: Visible(n, x, c) == Visible(s, x, c);
  }

  /** Replacing one transaction's record, others apart from it. */
  lemma ReplaceTx(s: State, n: State, t: TxId, y: Tx)
    requires Inv(s) && n.committed == s.committed && s.used <= n.used && n.txs == s.txs[t := y]
    requires TxOk(n, y)
    requires forall u :: u in s.txs && u != t ==> Apart(y, s.txs[u])
    ensures Inv(n)
  {
    forall u | u in n.txs ensures TxOk(n, n.txs[u]) {
      if u != t {
        TxPersists(s, n, s.txs[u]);
      }
    }
    forall u, v | u in n.txs && v in n.txs && u != v ensures Apart(n.txs[u], n.txs[v]) {
      if u != t && v != t {
        assert Apart(s.txs[u], s.txs[v]);
      }
    }
  }

  lemma CommitKeepsInv(s: State, t: TxId)
    requires Inv(s) && t in s.txs
    ensures Inv(Next(s, CommitTx(t)).value)
  {
    var n := Next(s, CommitTx(t)).value;
    assert TxOk(s, s.txs[t]);
    forall u | u in n.txs ensures TxOk(n, n.txs[u]) {
      CommitKeepsOthers(s, t, u);
    }
    forall c | c in n.committed ensures Dense(n.committed[c]) && c in n.used {
      if c in s.txs[t].mine + s.txs[t].writes.Keys {
        assert n.committed[c] == Visible(s, s.txs[t], c);
      }
    }
    forall u, v | u in n.txs && v in n.txs && u != v ensures Apart(n.txs[u], n.txs[v]) {
      assert Apart(s.txs[u], s.txs[v]);
    }
  }

  lemma DeleteKeepsInv(s: State, c: ConvId)
    requires Inv(s) && Next(s, DeleteConversation(c)).Some?
    ensures Inv(Next(s, DeleteConversation(c)).value)
  {
    var n := Next(s, DeleteConversation(c)).value;
    forall u | u in n.txs ensures TxOk(n, n.txs[u]) {
      var x := s.txs[u];
      assert TxOk(s, x) && c !in x.locks;
      assert forall d :: d in x.writes ==> Visible(n, x, d) == Visible(s, x, d);
    }
  }

  /** Locking, creating and beginning change one transaction's record and nothing it wrote. */
  lemma RecordKeepsInv(s: State, l: Label)
    requires Inv(s) && Next(s, l).Some? && (l.Begin? || l.CreateConversation? || l.Lock?)
    ensures Inv(Next(s, l).value)
  {
    var n := Next(s, l).value;
    var y := n.txs[l.t];
    if l.t in s.txs {
      var x := s.txs[l.t];
      TxPersists(s, n, x);
      assert forall c :: Visible(n, y, c) == Visible(n, x, c);
    }
    forall u | u in s.txs && u != l.t ensures Apart(y, s.txs[u]) {
      assert TxOk(s, s.txs[u]);
      assert l.t in s.txs ==> Apart(s.txs[l.t], s.txs[u]);
    }
    ReplaceTx(s, n, l.t, y);
  }

  lemma AppendKeepsInv(s: State, l: Label)
    requires Inv(s) && Next(s, l).Some? && l.Append?
    ensures Inv(Next(s, l).value)
  {
    var n := Next(s, l).value;
    AppendKeepsTx(s, l.t, l.c, l.role, l.content);
    forall u | u in s.txs && u != l.t ensures Apart(n.txs[l.t], s.txs[u]) {
      assert Apart(s.txs[l.t], s.txs[u]);
    }
    ReplaceTx(s, n, l.t, n.txs[l.t]);
  }

  lemma RollbackKeepsInv(s: State, t: TxId)
    requires Inv(s) && t in s.txs
    ensures Inv(Next(s, Rollback(t)).value)
  {
    var n := Next(s, Rollback(t)).value;
    forall u | u in n.txs ensures TxOk(n, n.txs[u]) {
      TxPersists(s, n, s.txs[u]);
    }
    forall u, v | u in n.txs && v in n.txs && u != v ensures Apart(n.txs[u], n.txs[v]) {
      assert Apart(s.txs[u], s.txs[v]);
    }
  }

  lemma NextKeepsInv(s: State, l: Label)
    requires Inv(s) && Next(s, l).Some?
    ensures Inv(Next(s, l).value)
  {
    match l
    case Append(_, _, _, _) => AppendKeepsInv(s, l);
    case CommitTx(t) => CommitKeepsInv(s, t);
    case Rollback(t) => RollbackKeepsInv(s, t);
    case DeleteConversation(c) => DeleteKeepsInv(s, c);
    case _ => RecordKeepsInv(s, l);
  }

  lemma AppendIsDense(s: State, x: Tx, c: ConvId)
    requires Inv(s) && TxOk(s, x) && c in x.locks
    ensures Dense(Visible(s, x, c)) && NextSeq(Visible(s, x, c)) == |Visible(s, x, c)|
  {
    if c !in x.writes {
      assert Visible(s, x, c) == if c in s.committed then s.committed[c] else [];
    }
    DenseMax(Visible(s, x, c));
  }

  lemma {:induction false} RunKeepsInv(s: State, labels: seq<Label>)
    requires Inv(s) && Run(s, labels).Some?
    ensures Inv(Run(s, labels).value)
    decreases |labels|
  {
    if labels != [] {
      NextKeepsInv(s, labels[0]);
      RunKeepsInv(Next(s, labels[0]).value, labels[1..]);
    }
  }

  /**
   * Under any interleaving of appends, commits, rollbacks and deletions, the committed `seq` values
   * of every conversation are exactly 0..n-1 in commit order, so the unique constraint never fires.
   */
  lemma SequenceNumbersHaveNoGaps(labels: seq<Label>, c: ConvId, i: nat, j: nat)
    requires Run(Init(), labels).Some? && c in Run(Init(), labels).value.committed
    requires i < |Run(Init(), labels).value.committed[c]| && j < |Run(Init(), labels).value.committed[c]|
    ensures var msgs := Run(Init(), labels).value.committed[c];
      msgs[i].seqNo == i && (msgs[i].seqNo == msgs[j].seqNo ==> i == j)
  {
    RunKeepsInv(Init(), labels);
  }

  /**
   * Commit order: what was committed stays in front and the transaction's own messages follow; the
   * conversations it created appear, with exactly what it wrote there; and nothing else changes.
   */
  lemma CommitAppends(labels: seq<Label>, t: TxId, c: ConvId)
    requires Run(Init(), labels).Some? && t in Run(Init(), labels).value.txs
    ensures var s := Run(Init(), labels).value;
      var n := Next(s, CommitTx(t)).value;
      && (c in n.committed <==> c in s.committed || c in s.txs[t].mine)
      && (c in s.committed ==> n.committed[c] == s.committed[c] + Written(s.txs[t], c))
      && (c in s.txs[t].mine ==> c !in s.committed && n.committed[c] == Written(s.txs[t], c))
      && t !in n.txs
  {
    RunKeepsInv(Init(), labels);
    assert TxOk(Run(Init(), labels).value, Run(Init(), labels).value.txs[t]);
  }

  /** Before its commit a transaction changes nothing that others can see, and rolled back it never does. */
  lemma OnlyCommitsShow(s: State, l: Label, c: ConvId)
    requires Next(s, l).Some? && !l.CommitTx?
    ensures var n := Next(s, l).value;
      && (l != DeleteConversation(c) ==> (c in n.committed <==> c in s.committed))
      && (l == DeleteConversation(c) ==> c !in n.committed)
      && (c in n.committed ==> n.committed[c] == s.committed[c])
      && (l.Rollback? ==> l.t !in n.txs)
  {
  }

  lemma NextOnlyAppends(s: State, l: Label, c: ConvId)
    requires Inv(s) && Next(s, l).Some? && c in s.committed && l != DeleteConversation(c)
    ensures c in Next(s, l).value.committed && s.committed[c] <= Next(s, l).value.committed[c]
  {
    if l.CommitTx? {
      assert TxOk(s, s.txs[l.t]);
    }
  }

  /**
   * A transcript is only ever extended: whatever happens later, short of deleting the conversation,
   * the messages committed so far stay where they are, so `seq` order is commit order.
   */
  lemma {:induction false} TranscriptsOnlyGrow(s: State, labels: seq<Label>, c: ConvId)
    requires Inv(s) && Run(s, labels).Some? && c in s.committed
    requires forall k :: 0 <= k < |labels| ==> labels[k] != DeleteConversation(c)
    ensures c in Run(s, labels).value.committed && s.committed[c] <= Run(s, labels).value.committed[c]
    decreases |labels|
  {
    if labels != [] {
      NextOnlyAppends(s, labels[0], c);
      NextKeepsInv(s, labels[0]);
      TranscriptsOnlyGrow(Next(s, labels[0]).value, labels[1..], c);
    }
  }

  /** A step of `t` that changes or ends what it sees of `c`. */
  predicate Disturbs(l: Label, t: TxId, c: ConvId) {
    || (l.CommitTx? && l.t == t)
    || (l.Rollback? && l.t == t)
    || (l.Append? && l.t == t && l.c == c)
  }

  predicate Undisturbed(labels: seq<Label>, t: TxId, c: ConvId) {
    forall k :: 0 <= k < |labels| ==> !Disturbs(labels[k], t, c)
  }

  lemma CommitKeepsHeldView(s: State, t: TxId, c: ConvId, u: TxId)
    requires Inv(s) && t in s.txs && c in s.txs[t].locks && u in s.txs && u != t
    ensures var n := Next(s, CommitTx(u)).value;
      t in n.txs && n.txs[t] == s.txs[t] && Visible(n, n.txs[t], c) == Visible(s, s.txs[t], c)
  {
    var x, y := s.txs[u], s.txs[t];
    assert Apart(x, y) && TxOk(s, x) && TxOk(s, y);
    assert c !in x.writes;
    assert c in x.mine ==> c !in s.committed && c in y.mine;
  }

  /** Under the row lock, nothing anybody else does changes what the holder sees. */
  lemma NextKeepsHeldView(s: State, l: Label, t: TxId, c: ConvId)
    requires Inv(s) && t in s.txs && c in s.txs[t].locks && Next(s, l).Some? && !Disturbs(l, t, c)
    ensures var n := Next(s, l).value;
      t in n.txs && c in n.txs[t].locks && Visible(n, n.txs[t], c) == Visible(s, s.txs[t], c)
  {
    if l.CommitTx? {
      CommitKeepsHeldView(s, t, c, l.t);
    }
  }

  lemma {:induction false} RunKeepsHeldView(s: State, labels: seq<Label>, t: TxId, c: ConvId)
    requires Inv(s) && t in s.txs && c in s.txs[t].locks && Run(s, labels).Some? && Undisturbed(labels, t, c)
    ensures var n := Run(s, labels).value;
      t in n.txs && c in n.txs[t].locks && Visible(n, n.txs[t], c) == Visible(s, s.txs[t], c)
    decreases |labels|
  {
    if labels != [] {
      assert !Disturbs(labels[0], t, c);
      NextKeepsHeldView(s, labels[0], t, c);
      NextKeepsInv(s, labels[0]);
      RunKeepsHeldView(Next(s, labels[0]).value, labels[1..], t, c);
    }
  }

  lemma HistoryStaysOwn(s: State, t: TxId, c: ConvId, role: Role, content: string, more: seq<Label>)
    requires Inv(s) && Next(s, Append(t, c, role, content)).Some?
    requires Run(Next(s, Append(t, c, role, content)).value, more).Some? && Undisturbed(more, t, c)
    ensures var later := Run(Next(s, Append(t, c, role, content)).value, more).value;
      && t in later.txs
      && var history := Visible(later, later.txs[t], c);
      && history == Visible(s, s.txs[t], c) + [Message(role, content, |history| - 1)]
      && Dense(history)
      && (forall u :: u in later.txs && u != t ==> c !in later.txs[u].writes)
  {
    var appended := Next(s, Append(t, c, role, content)).value;
    AppendShows(s, t, c, role, content);
    NextKeepsInv(s, Append(t, c, role, content));
    RunKeepsHeldView(appended, more, t, c);
    RunKeepsInv(appended, more);
    NobodyElseWrites(Run(appended, more).value, t, c);
  }

  /**
   * What a turn reads back ends with its own message. However long after the insert it reads, and
   * whatever others append, commit, roll back or try to delete meanwhile: as long as its transaction
   * is open and inserts nothing more there, it sees what it saw when it appended, numbered without
   * gaps, and its message last; and nobody else has an uncommitted message in that conversation.
   */
  lemma OwnMessageIsLast(labels: seq<Label>, t: TxId, c: ConvId, role: Role, content: string, more: seq<Label>)
    requires Run(Init(), labels).Some?
    requires Next(Run(Init(), labels).value, Append(t, c, role, content)).Some?
    requires Run(Next(Run(Init(), labels).value, Append(t, c, role, content)).value, more).Some?
    requires Undisturbed(more, t, c)
    ensures var s := Run(Init(), labels).value;
      var later := Run(Next(s, Append(t, c, role, content)).value, more).value;
      && t in later.txs
      && var history := Visible(later, later.txs[t], c);
      && history == Visible(s, s.txs[t], c) + [Message(role, content, |history| - 1)]
      && Dense(history)
      && (forall u :: u in later.txs && u != t ==> c !in later.txs[u].writes)
  {
    RunKeepsInv(Init(), labels);
    HistoryStaysOwn(Run(Init(), labels).value, t, c, role, content, more);
  }

  lemma AppendShows(s: State, t: TxId, c: ConvId, role: Role, content: string)
    requires Inv(s) && Next(s, Append(t, c, role, content)).Some?
    ensures var s' := Next(s, Append(t, c, role, content)).value;
      var history := Visible(s', s'.txs[t], c);
      && history == Visible(s, s.txs[t], c) + [Message(role, content, |history| - 1)]
      && Dense(history)
  {
    var x := s.txs[t];
    assert TxOk(s, x);
    AppendIsDense(s, x, c);
    var s' := Next(s, Append(t, c, role, content)).value;
    assert Visible(s', s'.txs[t], c) == Visible(s, x, c) + [Message(role, content, |Visible(s, x, c)|)];
  }

  lemma NobodyElseWrites(s: State, t: TxId, c: ConvId)
    requires Inv(s) && t in s.txs && c in s.txs[t].locks
    ensures forall u :: u in s.txs && u != t ==> c !in s.txs[u].writes
  {
    forall u | u in s.txs && u != t ensures c !in s.txs[u].writes {
      assert Apart(s.txs[t], s.txs[u]) && TxOk(s, s.txs[u]);
      assert c !in s.txs[u].locks;
    }
  }

  // ---- the repository's methods are runs of the transaction system ----

  function LockAndAppend(t: TxId, c: ConvId, role: Role, content: string): seq<Label> {
    [Lock(t, c), Append(t, c, role, content)]
  }

  /** A session's rows and locks are those of its transaction. */
  predicate Shows(rows: map<ConvId, set<Message>>, locks: set<ConvId>, s: State, t: TxId)
    requires t in s.txs
  {
    && locks == s.txs[t].locks
    && rows.Keys == s.committed.Keys + s.txs[t].mine
    && (forall c :: c in rows ==> rows[c] == RowsOf(Visible(s, s.txs[t], c)))
  }

  /** A dense transcript is its own rows in order. */
  lemma DenseIsNumbered(msgs: seq<Message>)
    requires Dense(msgs)
    ensures InSeqOrder(msgs, RowsOf(msgs)) && Numbered(RowsOf(msgs)) && |RowsOf(msgs)| == |msgs|
  {
    forall m | m in RowsOf(msgs) ensures m in msgs && 0 <= m.seqNo < |msgs| && m == msgs[m.seqNo] {
      var i :| 0 <= i < |msgs| && msgs[i] == m;
    }
    OrderedCount(msgs, RowsOf(msgs));
  }

  /** And there is only one way to list numbered rows in order. */
  lemma OrderIsUnique(msgs: seq<Message>, other: seq<Message>, rows: set<Message>)
    requires InSeqOrder(msgs, rows) && InSeqOrder(other, rows) && Numbered(rows)
    ensures msgs == other
  {
    OrderedIsDense(msgs, rows);
    OrderedIsDense(other, rows);
    forall i | 0 <= i < |msgs| ensures msgs[i] == other[i] {
      assert msgs[i] in rows && other[i] in rows;
    }
  }

  lemma VisibleIsDense(s: State, t: TxId, c: ConvId)
    requires Inv(s) && t in s.txs
    ensures Dense(Visible(s, s.txs[t], c))
  {
    assert TxOk(s, s.txs[t]);
    if c !in s.txs[t].writes {
      assert Visible(s, s.txs[t], c) == if c in s.committed then s.committed[c] else [];
    }
  }

  lemma ShownRowsAreNumbered(rows: map<ConvId, set<Message>>, locks: set<ConvId>, s: State, t: TxId, c: ConvId)
    requires Inv(s) && t in s.txs && Shows(rows, locks, s, t) && c in rows
    ensures Numbered(rows[c]) && |rows[c]| == |Visible(s, s.txs[t], c)|
    ensures InSeqOrder(Visible(s, s.txs[t], c), rows[c])
  {
    VisibleIsDense(s, t, c);
    DenseIsNumbered(Visible(s, s.txs[t], c));
  }

  lemma LockShows(rows: map<ConvId, set<Message>>, locks: set<ConvId>, s: State, t: TxId, c: ConvId)
    requires Inv(s) && t in s.txs && Shows(rows, locks, s, t) && c in rows && LockFree(s, c, {t})
    ensures var n := Next(s, Lock(t, c));
      && n.Some? && t in n.value.txs && c in n.value.txs[t].locks && Shows(rows, locks + {c}, n.value, t)
      && Visible(n.value, n.value.txs[t], c) == Visible(s, s.txs[t], c)
  {
    var n := Next(s, Lock(t, c)).value;
    assert forall d :: Visible(n, n.txs[t], d) == Visible(s, s.txs[t], d);
  }

  lemma RowsSnoc(msgs: seq<Message>, m: Message)
    ensures RowsOf(msgs + [m]) == RowsOf(msgs) + {m}
  {
    assert (msgs + [m])[|msgs|] == m;
  }

  /** The number that the steps give is the one that the query on the rows gives. */
  lemma SameNextSeq(rows: set<Message>, msgs: seq<Message>)
    requires rows == RowsOf(msgs) && Numbered(rows)
    ensures NextSeq(msgs) == |rows|
  {
    NextSeqIsNext(msgs);
    NumberedNext(rows, NextSeq(msgs));
  }

  lemma InsertChangesOneView(s: State, t: TxId, c: ConvId, m: Message)
    requires t in s.txs && c in s.txs[t].locks && m.seqNo == NextSeq(Visible(s, s.txs[t], c))
    ensures var n := Next(s, Append(t, c, m.role, m.content));
      && n.Some? && t in n.value.txs && n.value.committed == s.committed
      && n.value.txs[t].mine == s.txs[t].mine && n.value.txs[t].locks == s.txs[t].locks
      && Visible(n.value, n.value.txs[t], c) == Visible(s, s.txs[t], c) + [m]
      && (forall d :: d != c ==> Visible(n.value, n.value.txs[t], d) == Visible(s, s.txs[t], d))
  {
  }

  lemma InsertShows(rows: map<ConvId, set<Message>>, locks: set<ConvId>, s: State, t: TxId, c: ConvId, m: Message)
    requires Inv(s) && t in s.txs && Shows(rows, locks, s, t) && c in rows && c in locks && m.seqNo == |rows[c]|
    ensures var n := Next(s, Append(t, c, m.role, m.content));
      && n.Some? && t in n.value.txs && Shows(rows[c := rows[c] + {m}], locks, n.value, t)
      && Visible(n.value, n.value.txs[t], c) == Visible(s, s.txs[t], c) + [m]
  {
    var before := Visible(s, s.txs[t], c);
    ShownRowsAreNumbered(rows, locks, s, t, c);
    SameNextSeq(rows[c], before);
    InsertChangesOneView(s, t, c, m);
    RowsSnoc(before, m);
    OneViewShows(rows, locks, s, Next(s, Append(t, c, m.role, m.content)).value, t, c, m);
  }

  lemma OneViewShows(rows: map<ConvId, set<Message>>, locks: set<ConvId>, s: State, n: State, t: TxId, c: ConvId, m: Message)
    requires t in s.txs && Shows(rows, locks, s, t) && c in rows && t in n.txs
    requires n.committed.Keys == s.committed.Keys && n.txs[t].mine == s.txs[t].mine && n.txs[t].locks == s.txs[t].locks
    requires RowsOf(Visible(n, n.txs[t], c)) == rows[c] + {m}
    requires forall d :: d != c ==> Visible(n, n.txs[t], d) == Visible(s, s.txs[t], d)
    ensures Shows(rows[c := rows[c] + {m}], locks, n, t)
  {
    var wider := rows[c := rows[c] + {m}];
    assert wider.Keys == rows.Keys;
    forall d | d in wider ensures wider[d] == RowsOf(Visible(n, n.txs[t], d)) {
      if d != c {
        assert Visible(n, n.txs[t], d) == Visible(s, s.txs[t], d);
      }
    }
  }

  lemma RunOfTwo(s: State, a: Label, b: Label)
    requires Next(s, a).Some? && Next(Next(s, a).value, b).Some?
    ensures Run(s, [a, b]) == Next(Next(s, a).value, b)
  {
    var n := Next(s, a).value;
    assert [a, b][1..] == [b] && [b][1..] == [];
    assert Run(n, [b]) == Run(Next(n, b).value, []);
  }

  lemma AppendRefines(rows: map<ConvId, set<Message>>, locks: set<ConvId>, s: State, t: TxId, c: ConvId, m: Message)
    requires Inv(s) && t in s.txs && Shows(rows, locks, s, t) && c in rows && LockFree(s, c, {t})
    requires m.seqNo == |rows[c]|
    ensures m !in rows[c]
    ensures var s' := Run(s, LockAndAppend(t, c, m.role, m.content));
      && s'.Some? && Inv(s'.value) && t in s'.value.txs
      && Shows(rows[c := rows[c] + {m}], locks + {c}, s'.value, t)
      && Visible(s'.value, s'.value.txs[t], c) == Visible(s, s.txs[t], c) + [m]
  {
    ShownRowsAreNumbered(rows, locks, s, t, c);
    LockShows(rows, locks, s, t, c);
    NextKeepsInv(s, Lock(t, c));
    var held := Next(s, Lock(t, c)).value;
    InsertShows(rows, locks + {c}, held, t, c, m);
    NextKeepsInv(held, Append(t, c, m.role, m.content));
    RunOfTwo(s, Lock(t, c), Append(t, c, m.role, m.content));
  }

  lemma CreateRefines(rows: map<ConvId, set<Message>>, locks: set<ConvId>, s: State, t: TxId, c: ConvId)
    requires Inv(s) && t in s.txs && Shows(rows, locks, s, t) && c !in s.used
    ensures var n := Next(s, CreateConversation(t, c));
      n.Some? && t in n.value.txs && Shows(rows[c := {}], locks, n.value, t)
  {
    var n := Next(s, CreateConversation(t, c)).value;
    assert TxOk(s, s.txs[t]);
    assert c !in s.committed && c !in s.txs[t].writes;
    assert forall d :: Visible(n, n.txs[t], d) == Visible(s, s.txs[t], d);
  }

  /** A row table as one session sees it, and the conversation rows it has locked. */
  class ConversationRepository {
    var rows: map<ConvId, set<Message>>
    var locks: set<ConvId>

    constructor (visible: map<ConvId, set<Message>>)
      ensures rows == visible && locks == {}
    {
      rows, locks := visible, {};
    }

    method Create(c: ConvId, ghost s: State, ghost t: TxId)
      requires t in s.txs && Shows(rows, locks, s, t) && c !in s.used && Inv(s)
      modifies this
      ensures rows == old(rows)[c := {}] && locks == old(locks)
      ensures var s' := Next(s, CreateConversation(t, c));
        s'.Some? && t in s'.value.txs && Shows(rows, locks, s'.value, t)
    {
      CreateRefines(rows, locks, s, t, c);
      rows := rows[c := {}];
    }

    /** SELECT coalesce(max(seq), -1) + 1. */
    method NextSeqOf(c: ConvId) returns (next: int)
      requires c in rows && forall m :: m in rows[c] ==> m.seqNo >= 0
      ensures IsNextSeq(rows[c], next)
    {
      next := 0;
      var todo := rows[c];
      ghost var done := {};
      while todo != {}
        invariant done + todo == rows[c] && IsNextSeq(done, next)
        decreases |todo|
      {
        var m :| m in todo;
        NextSeqStep(done, next, m);
        if m.seqNo >= next {
          next := m.seqNo + 1;
        }
        todo, done := todo - {m}, done + {m};
      }
    }

    /**
     * Lock, read the maximum, insert. The insert violates the foreign key when there is no such
     * conversation. For the transaction `t` whose session this is, that is the run Lock, Append.
     */
    method AppendMessage(c: ConvId, role: Role, content: string, ghost s: State, ghost t: TxId) returns (r: Result<Message>)
      requires Inv(s) && t in s.txs && Shows(rows, locks, s, t)
      requires c in rows ==> LockFree(s, c, {t})
      modifies this
      ensures r.Raised? <==> c !in old(rows)
      ensures r.Raised? ==> rows == old(rows) && locks == old(locks)
      ensures r.Ok? ==> r.value == Message(role, content, |old(rows)[c]|) && r.value !in old(rows)[c]
                        && rows == old(rows)[c := old(rows)[c] + {r.value}] && locks == old(locks) + {c}
      ensures r.Ok? ==> var s' := Run(s, LockAndAppend(t, c, role, content));
        && s'.Some? && Inv(s'.value) && t in s'.value.txs && Shows(rows, locks, s'.value, t)
        && Visible(s'.value, s'.value.txs[t], c) == Visible(s, s.txs[t], c) + [r.value]
    {
      if c !in rows {
        return Raised;
      }
      ShownRowsAreNumbered(rows, locks, s, t, c);
      locks := locks + {c};
      var nextSeq := NextSeqOf(c);
      NumberedNext(rows[c], nextSeq);
      var message := Message(role, content, nextSeq);
      AppendRefines(old(rows), old(locks), s, t, c, message);
      rows := rows[c := rows[c] + {message}];
      return Ok(message);
    }

    /** The rows of one conversation, ORDER BY seq ASC; none for an unknown one. */
    method Messages(c: ConvId) returns (msgs: seq<Message>)
      requires c in rows ==> UniqueSeq(rows[c])
      ensures InSeqOrder(msgs, if c in rows then rows[c] else {})
      ensures c in rows && Numbered(rows[c]) ==> |msgs| == |rows[c]| && Dense(msgs)
    {
      msgs := [];
      if c in rows {
        msgs := Sorted(rows[c]);
        if Numbered(rows[c]) {
          OrderedIsDense(msgs, rows[c]);
        }
      }
    }

    static method Sorted(rows: set<Message>) returns (msgs: seq<Message>)
      requires UniqueSeq(rows)
      ensures InSeqOrder(msgs, rows)
    {
      msgs := [];
      var todo := rows;
      while todo != {}
        invariant todo <= rows && InSeqOrder(msgs, rows - todo)
        invariant forall m, n :: m in rows - todo && n in todo ==> m.seqNo < n.seqNo
        decreases |todo|
      {
        var m := First(todo);
        assert rows - (todo - {m}) == (rows - todo) + {m};
        OrderedSnoc(msgs, rows - todo, m);
        msgs := msgs + [m];
        todo := todo - {m};
      }
      assert rows - todo == rows;
    }

    /** The row with the least `seq`. */
    static method First(rows: set<Message>) returns (first: Message)
      requires rows != {} && UniqueSeq(rows)
      ensures first in rows && forall m :: m in rows && m != first ==> first.seqNo < m.seqNo
    {
      first :| first in rows;
      var todo := rows - {first};
      while todo != {}
        invariant todo <= rows && first in rows - todo
        invariant forall m :: m in rows - todo && m != first ==> first.seqNo < m.seqNo
        decreases |todo|
      {
        var m :| m in todo;
        if m.seqNo < first.seqNo {
          first := m;
        }
        todo := todo - {m};
      }
    }

    /** The message cascade of deleting a conversation; a missing one is a NotFoundError. */
    method Delete(c: ConvId) returns (r: Result<()>)
      modifies this
      ensures r.Ok? <==> c in old(rows)
      ensures rows == old(rows) - {c}
    {
      if c !in rows {
        return Raised;
      }
      rows := rows - {c};
      return Ok(());
    }
  }
}
