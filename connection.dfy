/**
 * The textual connection status shown by the socket views. Each socket or
 * fetch callback sets a fixed status, so the status always reflects the most
 * recent callback; a socket opens at most once and fires nothing after it
 * closes, and these views never reconnect.
 */
module Connection {

  datatype Status = Initializing | Live | Disconnected | DataLoadFailed

  /** The text each view renders after `Status: `. */
  function Label(s: Status): string
  {
    match s
    case Initializing => "Initializing..."
    case Live => "Connected (Live)"
    case Disconnected => "Disconnected"
    case DataLoadFailed => "Data load failed."
  }

  /**
   * The three callbacks show the texts the views set, and no two statuses
   * share a text, so the line on screen tells the status apart.
   */
  lemma StatusTexts()
    ensures Label(After(Opened)) == "Connected (Live)"
    ensures Label(After(Closed)) == "Disconnected"
    ensures Label(After(LoadFailed)) == "Data load failed."
    ensures forall s, t :: Label(s) == Label(t) ==> s == t
  {
  }

  /** `onopen`, `onclose`, and the `.catch` of the one-shot fetch. */
  datatype LinkEvent = Opened | Closed | LoadFailed

  /** The status the callback for `e` sets, whatever was shown before. */
  function After(e: LinkEvent): Status
  {
    match e
    case Opened => Live
    case Closed => Disconnected
    case LoadFailed => DataLoadFailed
  }

  /** The status after the callbacks `evs`, in order, starting from `s`. */
  function Replay(s: Status, evs: seq<LinkEvent>): Status
    decreases |evs|
  {
    if evs == [] then s else Replay(After(evs[0]), evs[1..])
  }

  /**
   * What a browser WebSocket guarantees about its own callbacks: `open` fires
   * at most once, `close` fires at most once, and nothing follows `close`.
   */
  predicate SocketLifecycle(evs: seq<LinkEvent>)
  {
    (forall i, j :: 0 <= i < j < |evs| && evs[i] == Closed ==> evs[j] == LoadFailed) &&
    (forall i, j :: 0 <= i < j < |evs| && evs[i] == Opened ==> evs[j] != Opened)
  }

  /** The status is decided by the most recent callback alone. */
  lemma {:induction false} LastCallbackDecides(s: Status, evs: seq<LinkEvent>)
    requires evs != []
    ensures Replay(s, evs) == After(evs[|evs| - 1])
    decreases |evs|
  {
    if |evs| > 1 {
      LastCallbackDecides(After(evs[0]), evs[1..]);
      assert evs[1..][|evs[1..]| - 1] == evs[|evs| - 1];
    }
  }

  /**
   * Without a fetch failure, a view whose socket has closed shows
   * "Disconnected" for good: there is no reconnect that could bring it back
   * to "Connected (Live)".
   */
  lemma NoReconnect(evs: seq<LinkEvent>)
    requires SocketLifecycle(evs)
    requires Closed in evs && LoadFailed !in evs
    ensures Replay(Initializing, evs) == Disconnected
  {
    var i :| 0 <= i < |evs| && evs[i] == Closed;
    assert evs[|evs| - 1] in evs;
    LastCallbackDecides(Initializing, evs);
  }

  /** Without a fetch failure, an opened socket that has not closed shows "Connected (Live)". */
  lemma LiveWhileOpen(evs: seq<LinkEvent>)
    requires SocketLifecycle(evs)
    requires Opened in evs && Closed !in evs && LoadFailed !in evs
    ensures Replay(Initializing, evs) == Live
  {
    var i :| 0 <= i < |evs| && evs[i] == Opened;
    assert evs[|evs| - 1] in evs;
    LastCallbackDecides(Initializing, evs);
  }
}
