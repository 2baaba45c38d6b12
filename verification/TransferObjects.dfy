/**
 * The objects of a transfer engine, shared between its maps, its history, its coroutines and the channel's
 * listeners.
 */
module TransferObjects {
  import opened Common
  import opened TransferSpec
  import S = SendCalls

  ghost function WithMoreBytes(r: Record, count: nat): Record { r.(bytes := r.bytes + count) }

  ghost function WithAck(r: Record, bytes: int): Record { r.(ackedBytes := bytes) }

  /** One transfer as the history shows it. `serial` stands for the object's identity. */
  class TransferRecord {
    const serial: nat
    const id: Id
    const direction: Direction
    const name: string
    const mime: string
    const size: int
    var bytes: nat
    var status: Status
    var reason: Option<Reason>
    var ackedBytes: int

    constructor (serial: nat, id: Id, direction: Direction, name: string, mime: string, size: int)
      ensures this.serial == serial && this.id == id
      ensures Value() == Initial() == Record(serial, id, direction, name, mime, size, 0, Pending, None, 0)
    {
      this.serial, this.id, this.direction, this.name, this.mime, this.size := serial, id, direction, name, mime, size;
      bytes, status, reason, ackedBytes := 0, Pending, None, 0;
    }

    ghost function Value(): Record
      reads this
    {
      Record(serial, id, direction, name, mime, size, bytes, status, reason, ackedBytes)
    }

    method AddBytes(count: nat)
      modifies this`bytes
      ensures Value() == WithMoreBytes(old(Value()), count)
    {
      bytes := bytes + count;
    }

    method SetAcked(acked: int)
      modifies this`ackedBytes
      ensures Value() == WithAck(old(Value()), acked)
    {
      ackedBytes := acked;
    }

    ghost function Initial(): Record { Record(serial, id, direction, name, mime, size, 0, Pending, None, 0) }
  }

  /** The closure awaitDrain subscribes three times over; it has settled once it is subscribed no more. */
  class Waiter {
    const state: OutgoingState

    constructor (state: OutgoingState)
      ensures this.state == state
    {
      this.state := state;
    }
  }

  /**
   * One call of sendFile: the state object, and where its coroutine stands. `settleAccept` says whether there is a
   * function to resolve the accept wait with.
   */
  class OutgoingState {
    const record: TransferRecord
    const file: File
    var aborted: bool
    var settleAccept: bool
    var drainWaiters: set<Waiter>
    var at: Phase
    var unread: seq<byte>
    var returned: bool

    constructor (record: TransferRecord, file: File)
      ensures this.record == record && this.file == file && unread == file.content && at == Answered(false)
      ensures !aborted && !settleAccept && drainWaiters == {} && !returned
    {
      this.record, this.file := record, file;
      aborted, settleAccept, drainWaiters := false, false, {};
      at, unread, returned := Answered(false), file.content, false;
    }

    ghost predicate Parked()
      reads this
    {
      at.Draining? && at.parked
    }

    /** What resolves the await it stands at is in place, and nothing else is. */
    ghost predicate WaitsRight()
      reads this
    {
      && (settleAccept <==> at.Waiting?)
      && (drainWaiters != {} <==> Parked())
    }
  }

  class IncomingState {
    const record: TransferRecord
    var chunks: seq<seq<byte>>
    var received: nat
    var acked: nat
    var accepted: bool

    constructor (record: TransferRecord)
      ensures this.record == record && chunks == [] && received == 0 && acked == 0 && !accepted
    {
      this.record := record;
      chunks, received, acked, accepted := [], 0, 0, false;
    }

    ghost function Value(): Incoming
      reads this, record
    {
      Incoming(record.Value(), chunks, received, acked, accepted)
    }
  }
}
