/** Limits shared by the client and the server (internal/netcode/netconst). */
module Netconst {
  /** The most input frames the client sends, and the server accepts, in one packet. */
  const MaxServerInputBuffer := 10
}
