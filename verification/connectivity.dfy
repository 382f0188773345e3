/**
 * What the receiver reads from the operating system: whether there is an active network,
 * and if so of which kind. Statuses are the integer codes the receiver stores.
 */
module Connectivity {
  import opened Options

  /** A committed reachability status. */
  datatype Status = Disconnected | Connected

  /** The kind of the active network as the OS reports it. */
  datatype NetKind = Wifi | Mobile | OtherKind

  const DISCONNECTED_CODE: int := 0
  const CONNECTED_CODE: int := 3
  /** The value the last committed status holds before anything was committed. */
  const UNKNOWN_CODE: int := -1

  const TYPE_NONE: int := 0
  const TYPE_WIFI: int := 1
  const TYPE_MOBILE: int := 2

  /** The integer the receiver stores for a (possibly not yet known) status. */
  function Code(s: Option<Status>): (c: int)
    ensures c in {UNKNOWN_CODE, DISCONNECTED_CODE, CONNECTED_CODE}
    ensures c == UNKNOWN_CODE <==> s.None?
    ensures s == Some(Disconnected) ==> c == DISCONNECTED_CODE
    ensures s == Some(Connected) ==> c == CONNECTED_CODE
  {
    match s
    case None => UNKNOWN_CODE
    case Some(Disconnected) => DISCONNECTED_CODE
    case Some(Connected) => CONNECTED_CODE
  }

  /** Comparing the stored integer codes is the same as comparing the statuses themselves. */
  lemma CodeInjective(a: Option<Status>, b: Option<Status>)
    ensures Code(a) == Code(b) <==> a == b
  {
  }

  /** `getConnectivityStatus`: connected exactly when there is an active network. */
  function ConnectivityStatus(active: Option<NetKind>): (st: Status)
    ensures st == Connected <==> active.Some?
  {
    if active.Some? then Connected else Disconnected
  }

  /** `getConnectionType`: wifi is 1, mobile is 2, anything else (or no network) is 0. */
  function ConnectionType(active: Option<NetKind>): (t: int)
    ensures t in {TYPE_NONE, TYPE_WIFI, TYPE_MOBILE}
    ensures t == TYPE_WIFI <==> active == Some(Wifi)
    ensures t == TYPE_MOBILE <==> active == Some(Mobile)
    ensures t != TYPE_NONE ==> ConnectivityStatus(active) == Connected
  {
    match active
    case Some(Wifi) => TYPE_WIFI
    case Some(Mobile) => TYPE_MOBILE
    case _ => TYPE_NONE
  }

}
