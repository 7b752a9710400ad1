/** The status-monitor state of `MinecraftBot` (bot.py:26-28) and the two
    operations that change it: one polling tick of `check_server_status`
    (bot.py:91-186) and the `/maintenance` toggle (bot.py:230). The `/status`
    reply (bot.py:200-221) only reads it.

    The tick's collaborators are inputs: whether `bot.get_channel` found the
    notification channel, what the server lookup did, and whether
    `channel.send` returned normally or raised. */
module Monitor {
  import opened Wrappers
  import opened Probe
  import opened Notices

  /** A copy of the three monitor fields of the bot. */
  datatype MonitorState = MonitorState(serverWasOnline: Option<bool>, maintenanceMode: bool, checkCount: nat)

  /** The fields as `MinecraftBot.__init__` sets them. */
  const Initial := MonitorState(None, false, 0)

  /** The state after one tick. The probe result is recorded whenever the
      channel is found (maintenance or not, delivered or not); a missing
      channel only advances the counter. */
  function NextState(s: MonitorState, channelFound: bool, lookup: Lookup): (t: MonitorState)
    ensures t.checkCount == s.checkCount + 1
    ensures t.maintenanceMode == s.maintenanceMode
    ensures !channelFound ==> t.serverWasOnline == s.serverWasOnline
    ensures channelFound ==> t.serverWasOnline == Some(CheckServer(lookup).isOnline)
  {
    var counted := s.(checkCount := s.checkCount + 1);
    if !channelFound then
      counted
    else
      var probe := CheckServer(lookup);
      if Transition(s.serverWasOnline, probe).Some? then counted.(serverWasOnline := Some(probe.isOnline))
      else counted
  }

  /** The embed a tick hands to `channel.send`, if any: only when the channel
      is found, maintenance mode is off, and the probe disagrees with the
      record (which includes there being no record yet). */
  function Attempted(s: MonitorState, channelFound: bool, lookup: Lookup): (n: Option<Notice>)
    ensures n.Some? <==>
      channelFound && !s.maintenanceMode && s.serverWasOnline != Some(CheckServer(lookup).isOnline)
    ensures n.Some? ==> n == Transition(s.serverWasOnline, CheckServer(lookup))
  {
    if channelFound && !s.maintenanceMode then Transition(s.serverWasOnline, CheckServer(lookup)) else None
  }

  /** The state after `/maintenance`: the flag flips and nothing else moves. */
  function Toggled(s: MonitorState): (t: MonitorState)
    ensures t.maintenanceMode == !s.maintenanceMode
    ensures t.serverWasOnline == s.serverWasOnline && t.checkCount == s.checkCount
  {
    s.(maintenanceMode := !s.maintenanceMode)
  }

  /** The ephemeral `/status` embed: online or offline, the players field only
      when online, the number of checks done, and the maintenance footer. */
  datatype StatusReply = StatusReply(online: bool, players: Option<PlayersField>, checksDone: nat, maintenanceFooter: bool)

  class MinecraftBot {
    var serverWasOnline: Option<bool>
    var maintenanceMode: bool
    var checkCount: nat

    function State(): MonitorState
      reads this
    {
      MonitorState(serverWasOnline, maintenanceMode, checkCount)
    }

    constructor ()
      ensures State() == Initial
    {
      serverWasOnline := None;
      maintenanceMode := false;
      checkCount := 0;
    }

    /** The try/if-maintenance/send/except block that ends each branch of a
        tick: in maintenance mode nothing is sent; otherwise the embed is sent,
        and a send that raises is swallowed. */
    method Deliver(embed: Notice, sendSucceeds: bool) returns (attempted: Option<Notice>, delivered: bool)
      ensures attempted.Some? <==> !maintenanceMode
      ensures attempted.Some? ==> attempted.value == embed
      ensures delivered <==> attempted.Some? && sendSucceeds
    {
      if maintenanceMode {
        attempted, delivered := None, false;
      } else {
        attempted := Some(embed);
        delivered := sendSucceeds;
      }
    }

    /** One run of `check_server_status`. Returns the embed handed to
        `channel.send` (if any) and whether the send returned normally. */
    method CheckServerStatus(channelFound: bool, lookup: Lookup, sendSucceeds: bool)
      returns (attempted: Option<Notice>, delivered: bool)
      modifies this
      ensures State() == NextState(old(State()), channelFound, lookup)
      ensures attempted == Attempted(old(State()), channelFound, lookup)
      ensures delivered <==> attempted.Some? && sendSucceeds
    {
      checkCount := checkCount + 1;
      attempted, delivered := None, false;
      if !channelFound {
        return;
      }

      var probe := CheckServer(lookup);

      if serverWasOnline == None {
        serverWasOnline := Some(probe.isOnline);
        var embed := if probe.isOnline then Embed(InitialOnline, probe) else Embed(InitialOffline, probe);
        attempted, delivered := Deliver(embed, sendSucceeds);
        return;
      }

      if serverWasOnline.value && !probe.isOnline {
        attempted, delivered := Deliver(Embed(WentOffline, probe), sendSucceeds);
        serverWasOnline := Some(false);
      } else if !serverWasOnline.value && probe.isOnline {
        attempted, delivered := Deliver(Embed(BackOnline, probe), sendSucceeds);
        serverWasOnline := Some(true);
      }
    }

    /** `/maintenance`: flips the flag. Returns which reply embed is shown:
        true for "maintenance mode", false for "maintenance finished". */
    method Maintenance() returns (enabled: bool)
      modifies this
      ensures State() == Toggled(old(State()))
      ensures enabled == maintenanceMode
    {
      maintenanceMode := !maintenanceMode;
      enabled := maintenanceMode;
    }

    /** `/status`: probes afresh and reports, without touching the monitor state. */
    method Status(lookup: Lookup) returns (reply: StatusReply)
      ensures reply.online <==> lookup.Replied?
      ensures reply.players.Some? <==> lookup.Replied?
      ensures lookup.Replied? ==> reply.players == Some(PlayersField(Some(lookup.online), Some(lookup.max)))
      ensures reply.checksDone == checkCount
      ensures reply.maintenanceFooter == maintenanceMode
    {
      var probe := CheckServer(lookup);
      var players := if probe.isOnline then Some(PlayersField(probe.playersOnline, probe.playersMax)) else None;
      reply := StatusReply(probe.isOnline, players, checkCount, maintenanceMode);
    }
  }
}
