/** The call history tables: one row per call, one per call and participant, and the statements that change them. */
module CallLog {
  import opened Media

  datatype Row = Row(room: RoomId, initiator: UserId, conference: bool, ended: bool)

  /** `joined`, `left` and `ended` stand for the timestamps being set. */
  datatype Part = Part(joined: bool, left: bool, missed: bool)

  datatype Cell = Cell(call: nat, user: UserId)

  datatype Log = Log(next: nat, rows: map<nat, Row>, parts: map<Cell, Part>)

  /** Row ids start at one: zero means "no row". */
  const EMPTY := Log(1, map[], map[])

  /** The new row has id `l.next`. */
  function CreateCall(l: Log, room: RoomId, initiator: UserId, conference: bool): Log {
    l.(next := l.next + 1, rows := l.rows[l.next := Row(room, initiator, conference, false)])
  }

  function AddParticipant(l: Log, id: nat, u: UserId, joined: bool): Log {
    var cell := Cell(id, u);
    if cell !in l.parts then l.(parts := l.parts[cell := Part(joined, false, !joined)])
    else if joined then l.(parts := l.parts[cell := Part(true, false, false)])
    else l
  }

  function ParticipantLeft(l: Log, id: nat, u: UserId): Log {
    var cell := Cell(id, u);
    if cell in l.parts && !l.parts[cell].left then l.(parts := l.parts[cell := l.parts[cell].(left := true)]) else l
  }

  function MarkMissed(l: Log, id: nat, u: UserId): Log {
    var cell := Cell(id, u);
    if cell in l.parts && !l.parts[cell].joined then l.(parts := l.parts[cell := l.parts[cell].(missed := true)]) else l
  }

  function EndCall(l: Log, id: nat): Log {
    if id in l.rows && !l.rows[id].ended then l.(rows := l.rows[id := l.rows[id].(ended := true)]) else l
  }

  /** Is `u` joined and not left in call `id`? */
  predicate Present(l: Log, id: nat, u: UserId) {
    Cell(id, u) in l.parts && l.parts[Cell(id, u)].joined && !l.parts[Cell(id, u)].left
  }

  /** Is `u` marked as having left call `id`? */
  predicate Gone(l: Log, id: nat, u: UserId) {
    Cell(id, u) in l.parts && l.parts[Cell(id, u)].left
  }

  /** Is `u` marked as having missed call `id`? */
  predicate Missed(l: Log, id: nat, u: UserId) {
    Cell(id, u) in l.parts && l.parts[Cell(id, u)].missed
  }

  predicate OpenRow(l: Log, id: nat) {
    id in l.rows && !l.rows[id].ended
  }

  /** Ids are handed out in order and every participant row belongs to a call. */
  ghost predicate Valid(l: Log) {
    && l.next >= 1
    && (forall id :: id in l.rows ==> 1 <= id < l.next)
    && (forall c :: c in l.parts ==> c.call in l.rows)
  }

  /** The tables behind the statements. */
  class Tables {
    var next: nat
    var rows: map<nat, Row>
    var parts: map<Cell, Part>

    constructor ()
      ensures Contents() == EMPTY
    {
      next, rows, parts := 1, map[], map[];
    }

    ghost function Contents(): Log
      reads this
    {
      Log(next, rows, parts)
    }

    method Create(room: RoomId, initiator: UserId, conference: bool) returns (id: nat)
      modifies this
      ensures id == old(next) && Contents() == CreateCall(old(Contents()), room, initiator, conference)
    {
      id := next;
      rows := rows[id := Row(room, initiator, conference, false)];
      next := next + 1;
    }

    /** Insert a participant, or on conflict let a join override what was there. */
    method Add(id: nat, u: UserId, joined: bool)
      modifies this`parts
      ensures Contents() == AddParticipant(old(Contents()), id, u, joined)
    {
      var cell := Cell(id, u);
      if cell in parts {
        var p := parts[cell];
        parts := parts[cell := Part(joined || p.joined, !joined && p.left, !joined && p.missed)];
      } else {
        parts := parts[cell := Part(joined, false, !joined)];
      }
    }

    method Leave(id: nat, u: UserId)
      modifies this`parts
      ensures Contents() == ParticipantLeft(old(Contents()), id, u)
    {
      if Cell(id, u) in parts && !parts[Cell(id, u)].left {
        parts := parts[Cell(id, u) := parts[Cell(id, u)].(left := true)];
      }
    }

    method Miss(id: nat, u: UserId)
      modifies this`parts
      ensures Contents() == MarkMissed(old(Contents()), id, u)
    {
      if Cell(id, u) in parts && !parts[Cell(id, u)].joined {
        parts := parts[Cell(id, u) := parts[Cell(id, u)].(missed := true)];
      }
    }

    method End(id: nat)
      modifies this`rows
      ensures Contents() == EndCall(old(Contents()), id)
    {
      if id in rows && !rows[id].ended {
        rows := rows[id := rows[id].(ended := true)];
      }
    }
  }
}
