/** A byte stream that is read from the front and written at the end, until it takes no more. */
module Io {
  import opened Prelude

  /** What a writer with this much room takes of some bytes. */
  function Taken(bytes: Bytes, room: Option<nat>): Bytes {
    if room.Some? && room.value < |bytes| then bytes[..room.value] else bytes
  }

  predicate Fits(bytes: Bytes, room: Option<nat>) { room.None? || |bytes| <= room.value }

  function RoomAfter(bytes: Bytes, room: Option<nat>): Option<nat> {
    if room.None? then None else if |bytes| <= room.value then Some(room.value - |bytes|) else Some(0)
  }

  /** Writing two pieces one after the other, the second only if the first fits, is writing both. */
  lemma TakenInTwo(a: Bytes, b: Bytes, room: Option<nat>)
    ensures Fits(a + b, room) <==> Fits(a, room) && Fits(b, RoomAfter(a, room))
    ensures Taken(a + b, room) == if Fits(a, room) then a + Taken(b, RoomAfter(a, room)) else Taken(a, room)
  {
  }

  class Stream {
    var data: Bytes
    var position: nat
    var room: Option<nat>   // how many more bytes can be written, if there is a limit

    ghost predicate Valid()
      reads this
    {
      position <= |data|
    }

    ghost function Unread(): Bytes
      requires Valid()
      reads this
    {
      data[position..]
    }

    constructor (data: Bytes, room: Option<nat>)
      ensures Valid() && Unread() == data && this.data == data && this.room == room
    {
      this.data, this.position, this.room := data, 0, room;
    }

    /** Fill the first `n` places of a buffer, or fail at the end of the stream having consumed what there was. */
    method ReadExact(buffer: array<Byte>, n: nat) returns (ok: bool)
      requires Valid() && n <= buffer.Length
      modifies this`position, buffer
      ensures Valid() && data == old(data)
      ensures ok <==> n <= |old(Unread())|
      ensures ok ==> buffer[..n] == old(Unread())[..n] && Unread() == old(Unread())[n..]
      ensures !ok ==> Unread() == []
    {
      var filled := 0;
      while filled < n && position < |data|
        invariant filled <= n && position == old(position) + filled <= |data|
        invariant buffer[..filled] == data[old(position)..position]
      {
        buffer[filled] := data[position];
        filled, position := filled + 1, position + 1;
      }
      ok := filled == n;
    }

    method WriteAll(bytes: Bytes) returns (ok: bool)
      requires Valid()
      modifies this`data, this`room
      ensures Valid() && (ok <==> Fits(bytes, old(room))) && room == RoomAfter(bytes, old(room))
      ensures data == old(data) + Taken(bytes, old(room)) && Unread() == old(Unread()) + Taken(bytes, old(room))
    {
      ok := room.None? || |bytes| <= room.value;
      data := data + Taken(bytes, room);
      room := RoomAfter(bytes, room);
    }
  }
}
