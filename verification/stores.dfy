/**
 * The in-memory job queue and status store the worker is driven with: a
 * stack of `{id, data}` entries, and a map from job id to status beside a map
 * from link id to the ids of the jobs run for it. Ids come from a counter
 * standing for the `Date` timestamps the JavaScript mocks use.
 */
module Stores {
  import opened Results

  datatype Entry<D> = Entry(id: nat, data: D)

  class WebhookQueue<D> {
    var queue: seq<Entry<D>>
    var clock: nat

    /** Every queued id was handed out before `clock`, so the next id is fresh. */
    ghost predicate Valid()
      reads this
    {
      forall k :: 0 <= k < |queue| ==> queue[k].id < clock
    }

    constructor ()
      ensures Valid() && queue == []
    {
      queue := [];
      clock := 0;
    }

    method Reset()
      requires Valid()
      modifies this
      ensures Valid() && queue == []
    {
      queue := [];
    }

    /** Appends an entry under a fresh id and returns that id. */
    method Push(data: D) returns (id: nat)
      requires Valid()
      modifies this
      ensures Valid()
      ensures queue == old(queue) + [Entry(id, data)]
      ensures forall k :: 0 <= k < |old(queue)| ==> old(queue)[k].id != id
    {
      id := clock;
      queue := queue + [Entry(id, data)];
      clock := clock + 1;
    }

    /** Removes and returns the most recently pushed entry; on an empty queue returns None. */
    method Pop() returns (popped: Option<Entry<D>>)
      requires Valid()
      modifies this
      ensures Valid()
      ensures old(queue) == [] ==> popped == None && queue == []
      ensures old(queue) != [] ==>
                popped == Some(old(queue)[|old(queue)| - 1]) && queue == old(queue)[..|old(queue)| - 1]
    {
      if queue == [] {
        popped := None;
      } else {
        popped := Some(queue[|queue| - 1]);
        queue := queue[..|queue| - 1];
      }
    }
  }

  /** Last in, first out: a pop right after a push returns that entry and leaves the queue as it was. */
  method PushThenPop<D>(q: WebhookQueue<D>, data: D) returns (id: nat, popped: Option<Entry<D>>)
    requires q.Valid()
    modifies q
    ensures q.Valid()
    ensures popped == Some(Entry(id, data)) && q.queue == old(q.queue)
  {
    id := q.Push(data);
    popped := q.Pop();
  }

  /** A status as stored: the value set, beside the id `set` returned. */
  datatype Stored<S> = Stored(status: S, id: nat)

  /** The ids of the jobs attached to `linkId` so far, oldest first. */
  function History(links: map<nat, seq<nat>>, linkId: nat): seq<nat> {
    if linkId in links then links[linkId] else []
  }

  class WebhookStatusStore<S> {
    var keys: map<nat, Stored<S>>
    var links: map<nat, seq<nat>>
    var clock: nat

    constructor ()
      ensures keys == map[] && links == map[]
    {
      keys := map[];
      links := map[];
      clock := 0;
    }

    method Reset()
      modifies this
      ensures keys == map[] && links == map[]
    {
      keys := map[];
      links := map[];
    }

    /** Replaces the status of `jobId` only. */
    method Set(jobId: nat, status: S) returns (id: nat)
      modifies this
      ensures keys == old(keys)[jobId := Stored(status, id)]
      ensures links == old(links)
    {
      id := clock;
      keys := keys[jobId := Stored(status, id)];
      clock := clock + 1;
    }

    /** The status stored for `jobId`; None where `MockWebhookStatusStore.get` throws because nothing is stored. */
    method Get(jobId: nat) returns (status: Option<S>)
      ensures status.Some? <==> jobId in keys
      ensures status.Some? ==> status.value == keys[jobId].status
    {
      if jobId in keys {
        status := Some(keys[jobId].status);
      } else {
        status := None;
      }
    }

    /** Appends `jobId` to the history of `linkId`, starting one if there is none; nothing else changes. */
    method AttachToLink(linkId: nat, jobId: nat)
      modifies this
      ensures links == old(links)[linkId := History(old(links), linkId) + [jobId]]
      ensures keys == old(keys)
    {
      links := links[linkId := History(links, linkId) + [jobId]];
    }
  }

  /** A later `get` returns what `set` stored, whatever was stored before. */
  method SetThenGet<S>(store: WebhookStatusStore<S>, jobId: nat, status: S) returns (got: Option<S>)
    modifies store
    ensures got == Some(status)
    ensures forall k :: k in old(store.keys) && k != jobId ==> k in store.keys && store.keys[k] == old(store.keys)[k]
    ensures store.links == old(store.links)
  {
    var _ := store.Set(jobId, status);
    got := store.Get(jobId);
  }
}
