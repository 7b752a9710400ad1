/** Histories of a freshly started bot, driven through the class's own
    methods as the 60-second loop and the slash commands would drive it.
    Each result is derived from the methods' contracts alone. */
module Scenarios {
  import opened Wrappers
  import opened Probe
  import opened Notices
  import opened Monitor

  /** Reachability online, online, offline, offline, online with maintenance
      off throughout: the first check announces the server, the third alerts
      that it went offline, the fifth that it is back; the others are quiet. */
  method OutageAndRecovery() returns (attempts: seq<Option<Notice>>, checks: nat)
    ensures attempts == [
      Some(Notice(InitialOnline, Some(PlayersField(Some(3), Some(20))))),
      None,
      Some(Notice(WentOffline, None)),
      None,
      Some(Notice(BackOnline, Some(PlayersField(Some(5), Some(20)))))]
    ensures checks == 5
  {
    var bot := new MinecraftBot();
    var a1, _ := bot.CheckServerStatus(true, Replied(3, 20), true);
    var a2, _ := bot.CheckServerStatus(true, Replied(4, 20), true);
    var a3, _ := bot.CheckServerStatus(true, Raised, true);
    var a4, _ := bot.CheckServerStatus(true, Raised, true);
    var a5, _ := bot.CheckServerStatus(true, Replied(5, 20), true);
    attempts := [a1, a2, a3, a4, a5];
    checks := bot.checkCount;
  }

  /** Online, then maintenance on, then offline twice: nothing is sent after
      the first announcement, yet the record follows the server to offline.
      Turning maintenance off does not replay the missed edge; the next online
      probe is reported as a comeback against that record. */
  method QuietMaintenance() returns (attempts: seq<Option<Notice>>, recordAfterOutage: Option<bool>)
    ensures attempts == [
      Some(Notice(InitialOnline, Some(PlayersField(Some(1), Some(10))))),
      None,
      None,
      None,
      Some(Notice(BackOnline, Some(PlayersField(Some(2), Some(10)))))]
    ensures recordAfterOutage == Some(false)
  {
    var bot := new MinecraftBot();
    var a1, _ := bot.CheckServerStatus(true, Replied(1, 10), true);
    var on := bot.Maintenance();
    var a2, _ := bot.CheckServerStatus(true, Raised, true);
    var a3, _ := bot.CheckServerStatus(true, Raised, true);
    recordAfterOutage := bot.serverWasOnline;
    var off := bot.Maintenance();
    var a4, _ := bot.CheckServerStatus(true, Raised, true);
    var a5, _ := bot.CheckServerStatus(true, Replied(2, 10), true);
    attempts := [a1, a2, a3, a4, a5];
  }

  /** A missing channel: the tick counts but neither probes nor records, so
      the first tick that finds the channel still makes the announcement. */
  method ChannelMissingAtStart() returns (first: Option<Notice>, second: Option<Notice>, recordAfterFirst: Option<bool>, checks: nat)
    ensures first == None && recordAfterFirst == None
    ensures second == Some(Notice(InitialOffline, None))
    ensures checks == 2
  {
    var bot := new MinecraftBot();
    var d1, d2;
    first, d1 := bot.CheckServerStatus(false, Replied(7, 10), true);
    recordAfterFirst := bot.serverWasOnline;
    second, d2 := bot.CheckServerStatus(true, Raised, true);
    checks := bot.checkCount;
  }

  /** A send that raises is swallowed and the state still commits, so the
      lost announcement is not retried by the next, unchanged, probe. */
  method LostAnnouncement() returns (delivered: bool, record: Option<bool>, next: Option<Notice>)
    ensures !delivered && record == Some(true)
    ensures next == None
  {
    var bot := new MinecraftBot();
    var attempted;
    attempted, delivered := bot.CheckServerStatus(true, Replied(0, 20), false);
    record := bot.serverWasOnline;
    var d;
    next, d := bot.CheckServerStatus(true, Replied(0, 20), true);
  }
}
