/** The save-listener bookkeeping an ACL performs on the users it tracks.

    A user keeps a list of save listeners; an ACL adds one when it starts
    tracking a lazy user and the listener removes itself when it fires. The
    model records, per ACL, the sequence of these register/unregister events
    keyed by the user's reference, so that "registered exactly once" and
    "unregistered after firing" become statements about a log. */
module SaveListeners {

  datatype ListenerEvent = Registered(userRef: nat) | Unregistered(userRef: nat)

  /** Number of occurrences of `e` in `log`. */
  function Count(log: seq<ListenerEvent>, e: ListenerEvent): (n: nat)
    ensures n <= |log|
    ensures n == 0 <==> e !in log
    ensures n == multiset(log)[e]
  {
    if |log| == 0 then 0
    else
      assert log == [log[0]] + log[1..];
      (if log[0] == e then 1 else 0) + Count(log[1..], e)
  }

  /** Listeners for user `ref` that this ACL registered and has not yet removed. */
  function Active(log: seq<ListenerEvent>, ref: nat): int
  {
    Count(log, Registered(ref)) - Count(log, Unregistered(ref))
  }

  /** The ACL currently has a save listener on user `ref`. */
  predicate Listening(log: seq<ListenerEvent>, ref: nat)
  {
    Active(log, ref) > 0
  }

  /** Appending a registration adds one active listener for that user and
      leaves every other user's count alone; an unregistration removes one. */
  lemma ActiveAppend(log: seq<ListenerEvent>, x: ListenerEvent, ref: nat)
    ensures x == Registered(ref) ==> Active(log + [x], ref) == Active(log, ref) + 1
    ensures x == Unregistered(ref) ==> Active(log + [x], ref) == Active(log, ref) - 1
    ensures x.userRef != ref ==> Active(log + [x], ref) == Active(log, ref)
  {
  }
}
