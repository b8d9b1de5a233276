/** Names shared by every module: users, rooms, forwarded tracks and the Option type. */
module Media {

  type UserId = int

  type RoomId = string

  datatype Option<+T> = None | Some(value: T)

  /** The forwarding key of a published track. */
  datatype Key = Mic | Cam | Screen

  /** One forwarding track. `serial` stands for object identity: every published track gets a new one. */
  datatype Track = Track(owner: UserId, key: Key, serial: nat)

  lemma SomeUser(s: set<UserId>)
    requires s != {}
    ensures exists u :: u in s
  {
    assert (forall u: UserId :: u !in s) ==> s == {};
  }

  /** For counting. */
  function Bit(b: bool): nat {
    if b then 1 else 0
  }
}
