/**
 Correlating Chromium's replies with the calls that await them.  Callers allocate an id, register a
 one-shot slot under it, enqueue the command and wait; one reader task delivers replies by id.  A
 caller's slot is named by the index of the call.
*/
module CdpClient {
  import opened Basics

  const ID_LIMIT: nat := 0x1_0000_0000_0000_0000

  datatype Reply = Reply(result: Bytes, error: Option<Bytes>)

  /** The receiving end of a one-shot channel; it closes when the sender is dropped unused. */
  datatype Slot = Empty | Delivered(reply: Reply) | Closed

  datatype Client = Client(nextId: nat, pending: map<nat, nat>, slots: seq<Slot>)

  const FRESH := Client(0, map[], [])

  /** A call begins with a slot of its own, not yet registered anywhere. */
  function OpenSlot(k: Client): Client {
    k.(slots := k.slots + [Empty])
  }

  function Allocate(k: Client): (Client, nat) {
    (k.(nextId := (k.nextId + 1) % ID_LIMIT), k.nextId)
  }

  /** Inserting under an id already present drops that entry's sender. */
  function Register(k: Client, id: nat, c: nat): Client {
    if id in k.pending && k.pending[id] < |k.slots| && k.slots[k.pending[id]].Empty? then
      k.(slots := k.slots[k.pending[id] := Closed], pending := k.pending[id := c])
    else
      k.(pending := k.pending[id := c])
  }

  function Unregister(k: Client, id: nat): Client {
    k.(pending := k.pending - {id})
  }

  /** The reader: a known id is taken out of the map and its slot filled; other replies are dropped. */
  function Deliver(k: Client, id: nat, reply: Reply): Client {
    if id !in k.pending then k
    else
      var c := k.pending[id];
      Unregister(if c < |k.slots| && k.slots[c].Empty? then k.(slots := k.slots[c := Delivered(reply)]) else k, id)
  }

  class CdpClient {
    var nextId: nat
    var pending: map<nat, nat>
    var slots: seq<Slot>

    ghost function View(): Client
      reads this
    {
      Client(nextId, pending, slots)
    }

    constructor ()
      ensures View() == FRESH
    {
      nextId, pending, slots := 0, map[], [];
    }

    method NewSlot() returns (c: nat)
      modifies this`slots
      ensures View() == OpenSlot(old(View())) && c == old(|slots|)
    {
      c := |slots|;
      slots := slots + [Empty];
    }

    method NextId() returns (id: nat)
      modifies this`nextId
      ensures (View(), id) == Allocate(old(View()))
    {
      id := nextId;
      nextId := (id + 1) % ID_LIMIT;
    }

    method InsertPending(id: nat, c: nat)
      modifies this`pending, this`slots
      ensures View() == Register(old(View()), id, c)
    {
      if id in pending && pending[id] < |slots| && slots[pending[id]].Empty? {
        slots := slots[pending[id] := Closed];
      }
      pending := pending[id := c];
    }

    method RemovePending(id: nat)
      modifies this`pending
      ensures View() == Unregister(old(View()), id)
    {
      pending := pending - {id};
    }

    method ReadReply(id: nat, reply: Reply)
      modifies this`pending, this`slots
      ensures View() == Deliver(old(View()), id, reply)
    {
      if id in pending {
        var c := pending[id];
        pending := pending - {id};
        if c < |slots| && slots[c].Empty? {
          slots := slots[c := Delivered(reply)];
        }
      }
    }
  }
}
