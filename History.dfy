/**
 * The per-session message history registry: an append-only message buffer per
 * conversation, and a process-wide table of those buffers keyed by session id.
 */
module History {
  import opened Types

  /** A conversation's message buffer; the list is extended in place and cleared by reassignment. */
  class InMemoryHistory {
    var messages: seq<Message>

    /** An absent or empty initial list both give an empty history. */
    constructor (initial: Option<seq<Message>>)
      ensures initial.None? ==> messages == []
      ensures initial.Some? ==> messages == initial.value
    {
      messages := if initial.Some? then initial.value else [];
    }

    /** Appends `ms` in order after the messages already held. */
    method AddMessages(ms: seq<Message>)
      modifies this
      ensures messages == old(messages) + ms
      ensures |messages| == |old(messages)| + |ms|
      ensures messages[..|old(messages)|] == old(messages)
    {
      messages := messages + ms;
    }

    method Clear()
      modifies this
      ensures messages == []
    {
      messages := [];
    }
  }

  /**
   * The registry's abstract value after a get-or-create of `id`: an entry for `id`
   * exists, holding what it held before or nothing, and no other entry changes.
   */
  function Touched(m: map<string, seq<Message>>, id: string): (r: map<string, seq<Message>>)
    ensures id in r && r[id] == (if id in m then m[id] else [])
    ensures r.Keys == m.Keys + {id}
    ensures forall k :: k in m ==> r[k] == m[k]
  {
    if id in m then m else m[id := []]
  }

  /** Get-or-create is idempotent on the registry's abstract value. */
  lemma TouchedIdempotent(m: map<string, seq<Message>>, id: string)
    ensures Touched(Touched(m, id), id) == Touched(m, id)
  {
  }

  /** The process-wide table of histories, keyed by session id. */
  class SessionStore {
    var store: map<string, InMemoryHistory>

    /** Every session owns its own history object: no two ids share a buffer. */
    ghost predicate Valid()
      reads this
    {
      forall a, b :: a in store && b in store && a != b ==> store[a] != store[b]
    }

    /** The messages each session currently holds. */
    ghost function Contents(): map<string, seq<Message>>
      reads this, store.Values
    {
      map id | id in store :: store[id].messages
    }

    constructor ()
      ensures Valid() && store == map[] && Contents() == map[]
    {
      store := map[];
    }

    /** Returns the history of `id`, creating an empty one first when `id` has none. */
    method GetSessionHistory(id: string) returns (h: InMemoryHistory)
      requires Valid()
      modifies this
      ensures Valid()
      ensures id in store && h == store[id]
      ensures id in old(store) ==> store == old(store) && h == old(store)[id]
      ensures id !in old(store) ==> fresh(h) && h.messages == [] && store == old(store)[id := h]
      ensures forall k :: k in old(store) ==> k in store && store[k] == old(store)[k]
      ensures Contents() == Touched(old(Contents()), id)
    {
      if id !in store {
        var created := new InMemoryHistory(None);
        store := store[id := created];
      }
      h := store[id];
    }

    /**
     * Looks up the history of `id` as above and appends `ms` to it: that session
     * grows by exactly `ms`, and every other session keeps its messages.
     */
    method AppendToSession(id: string, ms: seq<Message>)
      requires Valid()
      modifies this, store.Values
      ensures Valid()
      ensures store.Keys == old(store.Keys) + {id}
      ensures Contents() == old(Contents())[id := Touched(old(Contents()), id)[id] + ms]
    {
      ghost var before := Contents();
      var h := GetSessionHistory(id);
      assert Contents() == Touched(before, id);
      ghost var mid := Contents();
      h.AddMessages(ms);
      assert forall k :: k in store && k != id ==> store[k] != h;
      assert Contents() == mid[id := mid[id] + ms];
    }
  }
}
