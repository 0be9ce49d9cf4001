/** The client's table of ack callbacks: what its critical sections do to `ackCounter` and `ackCallbacks`. */
module AckTable {
  import opened Options
  import opened GoInt

  /**
   What the table holds for the emit call number `emit`: its user callback itself, or, for a timed emit, the
   closure that puts the ack's payload on the channel `done`.
   */
  datatype Entry = Direct(emit: nat) | ToDone(emit: nat)

  datatype Table = Table(counter: Int64, callbacks: map<int, Entry>)

  /**
   Takes the next id, which wraps around.  A timed emit always leaves an entry, another one only if it has a
   callback.
   */
  function Register(t: Table, emit: nat, timed: bool, userAck: bool): (Table, int) {
    var id := Wrap(t.counter + 1);
    var entry := if timed then ToDone(emit) else Direct(emit);
    (Table(id, if timed || userAck then t.callbacks[id := entry] else t.callbacks), id)
  }

  /** What an arriving ACK does: it removes the entry of its id, and finds what was there. */
  function Take(t: Table, id: int): (Table, Option<Entry>) {
    (t.(callbacks := t.callbacks - {id}), if id in t.callbacks then Some(t.callbacks[id]) else None)
  }

  /** An id is taken at most once, and taking it touches no other. */
  lemma TakenOnce(t: Table, id: int, other: int)
    ensures Take(Take(t, id).0, id).1 == None
    ensures other != id ==> Take(Take(t, id).0, other).1 == Take(t, other).1
    ensures id !in t.callbacks ==> Take(t, id) == (t, None)
    ensures id in t.callbacks ==> Take(t, id).1 == Some(t.callbacks[id])
    ensures Take(t, id).0.counter == t.counter && Take(t, id).0.callbacks.Keys == t.callbacks.Keys - {id}
  {
    if id !in t.callbacks {
      assert t.callbacks - {id} == t.callbacks;
    }
  }
}
