/** The status probe `check_server` (bot.py:38-46).

    The network lookup and status query of the Minecraft server are a foreign
    call; their outcome is an input here: either the server replied with its
    player counts, or one of the two calls raised an exception. */
module Probe {
  import opened Wrappers

  /** What `JavaServer.lookup(...).status()` did. */
  datatype Lookup = Replied(online: int, max: int) | Raised

  /** The triple `(is_online, players_online, players_max)` that `check_server` returns. */
  datatype ProbeResult = ProbeResult(isOnline: bool, playersOnline: Option<int>, playersMax: Option<int>)

  /** `check_server`: a reply is online with its counts; any exception is
      absorbed into the offline result `(False, None, None)`. */
  function CheckServer(lookup: Lookup): (r: ProbeResult)
    ensures r.isOnline <==> lookup.Replied?
    ensures r.isOnline ==> r.playersOnline == Some(lookup.online) && r.playersMax == Some(lookup.max)
    ensures !r.isOnline ==> r.playersOnline == None && r.playersMax == None
  {
    match lookup
    case Replied(online, max) => ProbeResult(true, Some(online), Some(max))
    case Raised => ProbeResult(false, None, None)
  }
}
