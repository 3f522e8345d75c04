/** Peers of the overlay network and the hashes under which they are known. */
module Peers {
  type Peer = nat
  type Hash = nat
}
