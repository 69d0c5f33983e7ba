/** The keep channels of the upload service: a file stays on disk while the
    channel its registry entry holds is open. Only making and closing a
    channel are observable, so the channels an HLS parser makes are numbered
    in the order it made them, and the parser's table records which of them
    are closed; the file registry names a channel by table and number. */
module Keeps {

  type Keep = nat

  class Channels {
    /** Channels made so far: 0 .. made-1. */
    var made: nat
    var closed: set<Keep>

    constructor ()
      ensures made == 0 && closed == {} && Valid()
    {
      made := 0;
      closed := {};
    }

    /** Only channels that were made can be closed. */
    ghost predicate Valid()
      reads this
    {
      forall k :: k in closed ==> k < made
    }

    predicate Open(k: Keep)
      reads this
    {
      k < made && k !in closed
    }

    /** make(chan struct{}): a channel distinct from every earlier one. */
    method Make() returns (k: Keep)
      requires Valid()
      modifies this
      ensures k == old(made) && made == old(made) + 1 && closed == old(closed)
      ensures Open(k) && Valid()
    {
      k := made;
      made := made + 1;
    }

    /** close(ch): closing a closed channel panics, hence the precondition. */
    method Close(k: Keep)
      requires Valid() && Open(k)
      modifies this
      ensures made == old(made) && closed == old(closed) + {k}
      ensures !Open(k) && Valid()
    {
      closed := closed + {k};
    }
  }

  /** A channel as another component holds it: the table of the parser that
      made it, and its number there. */
  datatype Handle = Handle(table: Channels, id: Keep)

  /** Receiving from the channel would not block. */
  predicate Closed(h: Handle)
    reads h.table
  {
    h.id in h.table.closed
  }
}
