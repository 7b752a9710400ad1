/** Which `@everyone` embed a polling tick builds (bot.py:106-184), apart
    from its colour, title, description, timestamp and maintenance footer. */
module Notices {
  import opened Wrappers
  import opened Probe

  /** The four embeds of `check_server_status`: the first-check announcement
      (online or offline), "server went offline" and "server is back". */
  datatype NoticeKind = InitialOnline | InitialOffline | WentOffline | BackOnline

  /** The "Игроки" field, rendered as `f"{players_online}/{players_max}"`. */
  datatype PlayersField = PlayersField(online: Option<int>, max: Option<int>)

  datatype Notice = Notice(kind: NoticeKind, players: Option<PlayersField>)

  /** The embeds that carry the players field (bot.py:116 and 171). */
  predicate ShowsPlayers(kind: NoticeKind) {
    kind == InitialOnline || kind == BackOnline
  }

  /** The embed of the given kind, built from the probe result. */
  function Embed(kind: NoticeKind, probe: ProbeResult): Notice {
    Notice(kind, if ShowsPlayers(kind) then Some(PlayersField(probe.playersOnline, probe.playersMax)) else None)
  }

  /** The embed a tick would send, given the recorded tri-state and the
      probe: an announcement on the first observation, an alert on an
      online/offline edge, nothing when the probe agrees with the record. */
  function Transition(wasOnline: Option<bool>, probe: ProbeResult): (n: Option<Notice>)
    ensures wasOnline == None ==>
      n.Some? && n.value.kind == (if probe.isOnline then InitialOnline else InitialOffline)
    ensures wasOnline != None ==> (n.Some? <==> wasOnline.value != probe.isOnline)
    ensures wasOnline != None && n.Some? ==>
      n.value.kind == (if probe.isOnline then BackOnline else WentOffline)
    ensures n.Some? ==> (n.value.players.Some? <==> probe.isOnline)
    ensures n.Some? && probe.isOnline ==>
      n.value.players == Some(PlayersField(probe.playersOnline, probe.playersMax))
  {
    if wasOnline == None then
      Some(Embed(if probe.isOnline then InitialOnline else InitialOffline, probe))
    else if wasOnline.value && !probe.isOnline then
      Some(Embed(WentOffline, probe))
    else if !wasOnline.value && probe.isOnline then
      Some(Embed(BackOnline, probe))
    else
      None
  }
}
