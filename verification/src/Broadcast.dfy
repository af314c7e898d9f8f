/** The bounded broadcast channel behind the event broker and the live log tails. */
module Broadcast {
  /** What a receiver gets: the next item, nothing yet, or the news that it lost some. */
  datatype Received<+T> = Item(value: T) | Nothing | Lagged

  /** Only the newest `ring` items are kept. A receiver is the position of its next item among all
      items ever sent. */
  function Receive<T>(sent: seq<T>, ring: nat, position: nat): Received<T>
    requires position <= |sent|
  {
    if position == |sent| then Nothing
    else if |sent| - position > ring then Lagged
    else Item(sent[position])
  }
}
