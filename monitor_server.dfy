/** The monitor's server loop: it keeps the merged state of every update the
    watcher relays, greets each new web-socket client with that whole state
    and passes every later update on to all connected clients. Connections
    are numbered; what is written to them is kept, in order, as messages. */
module MonitorServe {
  import opened MonitorWatch

  /** One JSON message written to one client connection. */
  datatype Message = Message(client: nat, body: Update)

  /** The connections messages went to, in order. */
  function Recipients(ws: seq<Message>): (r: seq<nat>)
    ensures |r| == |ws|
  {
    seq(|ws|, i requires 0 <= i < |ws| => ws[i].client)
  }

  /** Writing one more message adds its connection to the recipients. */
  lemma RecipientsStep(ws: seq<Message>, n: nat, m: Message)
    requires n <= |ws|
    ensures multiset(Recipients((ws + [m])[n..])) == multiset(Recipients(ws[n..])) + multiset{m.client}
  {
    assert (ws + [m])[n..] == ws[n..] + [m];
    assert Recipients(ws[n..] + [m]) == Recipients(ws[n..]) + [m.client];
  }

  /** `written` is `before` followed by the update, written once to each
      connection in `done`. */
  ghost predicate BroadcastSoFar(before: seq<Message>, written: seq<Message>, update: Update, done: set<nat>)
  {
    |before| <= |written| && written[..|before|] == before &&
    (forall i :: |before| <= i < |written| ==> written[i].body == update) &&
    multiset(Recipients(written[|before|..])) == multiset(done)
  }

  /** Writing the update to one more connection extends the broadcast. */
  lemma BroadcastStep(before: seq<Message>, written: seq<Message>, update: Update, done: set<nat>, c: nat)
    requires BroadcastSoFar(before, written, update, done) && c !in done
    ensures BroadcastSoFar(before, written + [Message(c, update)], update, done + {c})
  {
    RecipientsStep(written, |before|, Message(c, update));
    assert multiset(done + {c}) == multiset(done) + multiset{c};
  }

  class Server {
    /** The merged state, by update key. */
    var state: Update
    /** The connected clients. */
    var clients: set<nat>
    /** Every message written so far, oldest first. */
    var written: seq<Message>
    /** Every update received so far, oldest first. */
    ghost var received: seq<Update>

    /** The state is what merging the received updates in order gives. */
    ghost predicate Valid()
      reads this
    {
      state == Replay(map[], received)
    }

    constructor ()
      ensures Valid()
      ensures state == map[] && clients == {} && written == [] && received == []
    {
      state, clients, written := map[], {}, [];
      received := [];
    }

    /** A new connection: it is first written the whole state, then joins
        the clients. */
    method AddClient(c: nat)
      modifies this
      ensures written == old(written) + [Message(c, state)]
      ensures clients == old(clients) + {c}
      ensures state == old(state) && received == old(received)
    {
      written := written + [Message(c, state)];
      clients := clients + {c};
    }

    /** A closed connection leaves the clients; nothing else changes. */
    method RemoveClient(c: nat)
      modifies this
      ensures clients == old(clients) - {c}
      ensures state == old(state) && written == old(written) && received == old(received)
    {
      clients := clients - {c};
    }

    /** The merge loop: each key of the update replaces the one held, in
        whatever order the keys come; every other key keeps its value. */
    method Merge(update: Update)
      modifies this
      ensures state == old(state) + update
      ensures clients == old(clients) && written == old(written) && received == old(received)
    {
      var todo := update.Keys;
      while todo != {}
        invariant todo <= update.Keys
        invariant state.Keys == old(state).Keys + (update.Keys - todo)
        invariant forall k :: k in state ==> state[k] == if k in update && k !in todo then update[k] else old(state)[k]
        invariant clients == old(clients) && written == old(written) && received == old(received)
        decreases todo
      {
        var k :| k in todo;
        state := state[k := update[k]];
        todo := todo - {k};
      }
    }

    /** broadcast: writes the update itself, not the whole state, once to
        every connected client. */
    method Broadcast(update: Update)
      modifies this
      ensures state == old(state) && clients == old(clients) && received == old(received)
      ensures |old(written)| <= |written| && written[..|old(written)|] == old(written)
      ensures forall i :: |old(written)| <= i < |written| ==> written[i].body == update
      ensures multiset(Recipients(written[|old(written)|..])) == multiset(clients)
    {
      var pending := clients;
      ghost var done: set<nat> := {};
      ghost var before := written;
      while pending != {}
        invariant pending !! done && pending + done == clients
        invariant BroadcastSoFar(before, written, update, done)
        invariant state == old(state) && clients == old(clients) && received == old(received)
        decreases pending
      {
        var c :| c in pending;
        BroadcastStep(before, written, update, done, c);
        written := written + [Message(c, update)];
        pending := pending - {c};
        done := done + {c};
      }
    }

    /** An update from the watcher: merged into the state, then broadcast. */
    method Receive(update: Update)
      requires Valid()
      modifies this
      ensures Valid()
      ensures received == old(received) + [update]
      ensures state == old(state) + update && clients == old(clients)
      ensures |old(written)| <= |written| && written[..|old(written)|] == old(written)
      ensures forall i :: |old(written)| <= i < |written| ==> written[i].body == update
      ensures multiset(Recipients(written[|old(written)|..])) == multiset(clients)
    {
      Merge(update);
      ReplayAppend(map[], received, update);
      received := received + [update];
      Broadcast(update);
    }

    /** Receives the updates one after another. */
    method ReceiveAll(updates: seq<Update>)
      requires Valid()
      modifies this
      ensures Valid() && received == old(received) + updates && clients == old(clients)
    {
      var i := 0;
      while i < |updates|
        invariant i <= |updates| && Valid()
        invariant received == old(received) + updates[..i] && clients == old(clients)
      {
        assert updates[..i + 1] == updates[..i] + [updates[i]];
        Receive(updates[i]);
        i := i + 1;
      }
      assert updates[..i] == updates;
    }
  }

  /** A sequence is its first `n` elements followed by the rest. */
  lemma TakeDrop<T>(xs: seq<T>, n: nat)
    requires n <= |xs|
    ensures xs[..n] + xs[n..] == xs
  {
  }

  /** The update channel: passes on, in order, every update the watcher has
      relayed and the server has not yet received. Afterwards the server's
      state shows the watcher's four tables. `n` is how many updates the
      server has received so far. */
  method Forward(w: Watcher, s: Server, n: nat)
    requires w.Valid() && s.Valid()
    requires n == |s.received| <= |w.sent| && s.received == w.sent[..n]
    modifies s
    ensures s.Valid() && s.received == w.sent && s.clients == old(s.clients)
    ensures Mirrors(s.state, w.transcoders, w.fanouts, w.streams, w.streamTranscoders)
  {
    s.ReceiveAll(w.sent[n..]);
    TakeDrop(w.sent, n);
    assert s.state == Replay(map[], w.sent);
  }
}
