/** The three servers and the static placement of usernames and channels on owner pairs. */
module Servers {

  datatype Server = A | B | C

  datatype Owners = Owners(primary: Server, backup: Server)

  /** The owner pair for a hash value; the hash itself stays uninterpreted. */
  function OwnersForHash(h: nat): Owners
  {
    if h % 3 == 0 then Owners(A, B)
    else if h % 3 == 1 then Owners(B, C)
    else Owners(C, A)
  }

  function UserOwner(hash: string -> nat, username: string): Owners
  {
    OwnersForHash(hash(username))
  }

  function Position(x: Server): nat
  {
    match x case A => 0 case B => 1 case C => 2
  }

  /** The servers form a ring: the hash picks the primary, its successor is the backup. So each server is
      primary for one third of the keys and backup for another. */
  lemma OwnersOnRing(h: nat)
    ensures Position(OwnersForHash(h).primary) == h % 3
    ensures Position(OwnersForHash(h).backup) == (h + 1) % 3
  {
  }

  /** Three channels have fixed owners; every other channel is hashed. */
  function ChannelOwner(hash: string -> nat, channel: string): Owners
  {
    if channel == "#cs249" then Owners(A, B)
    else if channel == "#distributed" then Owners(B, C)
    else if channel == "#systems" then Owners(C, A)
    else OwnersForHash(hash(channel))
  }
}
