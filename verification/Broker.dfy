/**
 * The stream, its consumer group and the dead-letter stream, as far as the ingestion code
 * relies on them. A delivery id is the entry's position in the order of publication.
 */
module Broker {
  import opened Common
  import opened Events

  /** What `fields.get("data")` holds once `json.loads` has had a go at it. */
  datatype Wire = NoField | BadJson | JsonNull | NonObject | Object(payload: Payload)

  /** `_decode` returns None: absent field, undecodable text, or the JSON literal `null`. */
  predicate Malformed(w: Wire) {
    w.NoField? || w.BadJson? || w.JsonNull?
  }

  datatype Reason = MalformedJson | MissingOrInvalidId | SchemaValidationFailed

  datatype DeadLetter = DeadLetter(content: Wire, reason: Reason)

  /** `cursor` is the first position the group has not been offered yet. */
  datatype Group = NoGroup | Group(cursor: nat, pending: set<nat>, acked: set<nat>)

  /**
   * `entries` is the publication history; those below `first` have been trimmed away. `acks` is
   * every delivery id XACK was ever called with, `letters` the untrimmed dead-letter history.
   */
  datatype Redis = Redis(
    entries: seq<Wire>, first: nat, group: Group, acks: set<nat>, letters: seq<DeadLetter>)

  function Max(a: nat, b: nat): nat {
    if a < b then b else a
  }

  /** XADD with MAXLEN ~: the newest `maxlen` entries are never trimmed. */
  predicate TrimAllowed(r: Redis, maxlen: nat, first: nat) {
    r.first <= first && (first == r.first || first + maxlen <= |r.entries| + 1)
  }

  function XAdd(r: Redis, w: Wire, first: nat): Redis {
    r.(entries := r.entries + [w], first := first)
  }

  /** A publish keeps the newest `maxlen` entries that were there, its own among them, and adds just one. */
  lemma PublishKeepsTheNewest(r: Redis, w: Wire, maxlen: nat, first: nat, d: nat)
    requires r.first <= |r.entries| && TrimAllowed(r, maxlen, first)
    ensures var n := XAdd(r, w, first);
      && n.entries == r.entries + [w] && n.group == r.group && n.letters == r.letters && n.acks == r.acks
      && r.first <= n.first
      && (r.first <= d && |n.entries| - maxlen <= d < |n.entries| ==> n.first <= d)
  {
  }

  /** Losing the stream loses its group with it; losing the group alone loses no entry. */
  lemma WhatLossesTake(r: Redis)
    ensures DropStream(r).first == |r.entries| && DropStream(r).group == NoGroup
    ensures DropGroup(r).first == r.first && DropGroup(r).group == NoGroup
    ensures DropStream(r).entries == DropGroup(r).entries == r.entries
    ensures DropStream(r).letters == DropGroup(r).letters == r.letters
  {
  }

  /** XGROUP CREATE at id 0; BUSYGROUP leaves an existing group alone. */
  function EnsureGroup(r: Redis): Redis {
    if r.group.NoGroup? then r.(group := Group(0, {}, {})) else r
  }

  /** The stream's key is deleted, and its consumer group with it. */
  function DropStream(r: Redis): Redis {
    r.(first := |r.entries|, group := NoGroup)
  }

  function DropGroup(r: Redis): Redis {
    r.(group := NoGroup)
  }

  /** Where XREADGROUP ">" starts. */
  function ReadFrom(r: Redis): nat
    requires r.group.Group?
  {
    Max(r.group.cursor, r.first)
  }

  function Positions(from: nat, n: nat): (ids: seq<nat>)
    ensures |ids| == n
    ensures forall k :: 0 <= k < n ==> ids[k] == from + k
  {
    seq(n, k requires 0 <= k => from + k)
  }

  /** XREADGROUP ">" handing out `n` entries: the cursor passes them and they become pending. */
  function Read(r: Redis, n: nat): Redis
    requires r.group.Group?
  {
    var from := ReadFrom(r);
    r.(group := r.group.(cursor := from + n, pending := r.group.pending + set d | d in Positions(from, n)))
  }

  function XAck(r: Redis, d: nat): Redis {
    var acked := r.(acks := r.acks + {d});
    if r.group.Group? && d in r.group.pending
    then acked.(group := r.group.(pending := r.group.pending - {d}, acked := r.group.acked + {d}))
    else acked
  }

  function AddLetter(r: Redis, w: Wire, reason: Reason): Redis {
    r.(letters := r.letters + [DeadLetter(w, reason)])
  }
}
