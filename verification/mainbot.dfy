/** The first bot, main.py: its module globals `status`, `players`,
    `player_names` and `refresh_embed` become the fields of `Bot`, rebound by
    `refresh`, `update_players` and `change_status`. */
module MainBot {
  import opened Base
  import opened Discord
  import Minecraft
  import Batcher
  import Text
  import PingerCog

  /** The version name a server reports while its world is loading. */
  const OldVersion := "Old"
  /** The version name a proxy reports for a stopped server: a Minecraft colour code (section sign, "4"), a bullet and " Offline". */
  const OfflineVersion := "\U{A7}4\U{25CF} Offline"

  /** `statuss`, indexed by the status code. */
  const StatusPresence: seq<PresenceStatus> := [InvisibleStatus, OnlineStatus, DndStatus]

  /** The status code `refresh` gives a reachable server: "Old" is starting
      (2), the proxy's offline name is offline (0), anything else online (1). */
  function MainStatusCode(version: string): (code: nat)
    ensures code <= 2
    ensures code == 2 <==> version == OldVersion
    ensures code == 0 <==> version == OfflineVersion
  {
    if version == OldVersion then 2 else if version == OfflineVersion then 0 else 1
  }

  /** The globals; all of them are `None` before the first round. */
  datatype BotState = BotState(
    status: Option<nat>,
    players: Option<nat>,
    playerNames: Option<seq<string>>,
    refreshEmbed: bool)

  const Initial := BotState(None, None, None, false)
  /** The activity text for a player count: none without a count. */
  function Activity(count: Option<nat>): (a: Option<string>)
    ensures a.None? <==> count.None?
    ensures a.Some? ==> |a.value| >= 14 && a.value[..14] == "Minecraft avec"
  {
    match count
    case None => None
    case Some(n) => Some(if n != 1 then "Minecraft avec " + Text.NatToString(n) + " joueurs" else "Minecraft avec 1 joueur")
  }

  /** The globals `change_status` leaves and the presence call it makes, if any. */
  datatype StatusChange = StatusChange(after: BotState, update: Option<PresenceUpdate>)

  /** `change_status(new_status, new_players)`: the keyword arguments hold
      only what differs from the globals, and the presence is changed only
      when there is one. */
  function ChangeStatusSpec(b: BotState, newStatus: nat, newPlayers: Option<nat>): StatusChange
    requires newStatus <= 2
  {
    var statusArg := if b.status != Some(newStatus) then Some(StatusPresence[newStatus]) else None;
    var activityArg := if b.players != newPlayers then Some(Activity(newPlayers)) else None;
    if statusArg.None? && activityArg.None? then StatusChange(b, None)
    else StatusChange(BotState(Some(newStatus), newPlayers, b.playerNames, true),
                      Some(PresenceUpdate(statusArg, activityArg)))
  }

  /** The globals `update_players` leaves and the chunks it sent, or the
      AttributeError of its first send when there is no log channel. */
  datatype PlayersUpdate = PlayersUpdate(after: BotState, sent: Result<seq<string>>)

  /** `update_players(new_players)`, once `player_names` holds a list. */
  function UpdatePlayersSpec(b: BotState, hasLogChannel: bool, names: seq<string>, known: seq<string>): PlayersUpdate
  {
    var logins := Batcher.Without(names, known);
    var logouts := Batcher.Without(known, names);
    var chunks := Batcher.Pack(Batcher.Lines(logins, logouts));
    if chunks != [] && !hasLogChannel then PlayersUpdate(b, Err(AttributeError))
    else PlayersUpdate(b.(playerNames := Some(names)), Ok(chunks))
  }

  /** Which of the two channels `on_ready` found: `LOG_CHANNEL` and
      `SERVER_CHANNEL` are `None` when the configured id is unknown. */
  datatype Channels = Channels(log: bool, server: bool)

  /** What one round hands to the chat client: the presence calls, the
      chunks sent to the log channel, whether the embed reached the server
      channel, and the exception that escapes `refresh`, if any (an escaping
      exception ends the refresh loop). */
  datatype Round = Round(presences: seq<PresenceUpdate>, chunks: seq<string>, embedResent: bool, raised: Option<Exc>)

  datatype Refreshed = Refreshed(after: BotState, round: Round)

  function Calls(update: Option<PresenceUpdate>): seq<PresenceUpdate>
  {
    if update.Some? then [update.value] else []
  }

  /** The `except` clauses of `refresh`, after the presence calls and the
      sends already made in its `try`. */
  function CatchSpec(b: BotState, e: Exc, made: seq<PresenceUpdate>, chunks: seq<string>): Refreshed
  {
    if e == TimeoutError || e == ConnectionRefusedError then
      var c := ChangeStatusSpec(b, 0, None);
      Refreshed(c.after, Round(made + Calls(c.update), chunks, false, None))
    else if e == AttributeError then
      var c := ChangeStatusSpec(b, 2, None);
      Refreshed(c.after, Round(made + Calls(c.update), chunks, false, None))
    else Refreshed(b, Round(made, chunks, false, Some(e)))
  }

  /** The end of the `try` of `refresh`: `resend_embed` when `refresh_embed`
      is set. `get_embed` runs first and, at status 1, raises TypeError at
      `len(server_status > 0)`, which no clause catches; otherwise a missing
      server channel raises AttributeError at `fetch_message`, which is
      caught. */
  function ResendSpec(b: BotState, ch: Channels, made: seq<PresenceUpdate>, chunks: seq<string>): Refreshed
  {
    if !b.refreshEmbed then Refreshed(b, Round(made, chunks, false, None))
    else if b.status == Some(1) then Refreshed(b, Round(made, chunks, false, Some(TypeError)))
    else if !ch.server then CatchSpec(b, AttributeError, made, chunks)
    else Refreshed(b, Round(made, chunks, true, None))
  }

  /** `refresh()`, with `minecraft.ping`'s value or exception as `poll`. */
  function RefreshSpec(b: BotState, ch: Channels, poll: Result<Minecraft.Server>): Refreshed
  {
    var cleared := b.(refreshEmbed := false);
    match poll
    case Err(e) => CatchSpec(cleared, e, [], [])
    case Ok(server) =>
      var code := MainStatusCode(server.version);
      if code != 1 then
        var c := ChangeStatusSpec(cleared, code, None);
        ResendSpec(c.after, ch, Calls(c.update), [])
      else
        var c := ChangeStatusSpec(cleared, 1, Some(|server.players.sample|));
        var names := Minecraft.SampleNames(server);
        match c.after.playerNames
        case None => ResendSpec(c.after.(playerNames := Some(names)), ch, Calls(c.update), [])
        case Some(known) =>
          var u := UpdatePlayersSpec(c.after, ch.log, names, known);
          match u.sent
          case Err(e) => CatchSpec(u.after, e, Calls(c.update), [])
          case Ok(chunks) => ResendSpec(u.after, ch, Calls(c.update), chunks)
  }

  /** `change_status` reassigns `status` and `players` only when they differ,
      passes only the differing keywords, and sets `refresh_embed` exactly
      when it calls the presence. */
  lemma ChangeStatusOnlyDifferences(b: BotState, s: nat, n: Option<nat>)
    requires s <= 2
    ensures ChangeStatusSpec(b, s, n).after.status == Some(s)
    ensures ChangeStatusSpec(b, s, n).update.None? <==> b.status == Some(s) && b.players == n
    ensures ChangeStatusSpec(b, s, n).update.None? ==> ChangeStatusSpec(b, s, n).after == b
    ensures ChangeStatusSpec(b, s, n).update.Some? ==> ChangeStatusSpec(b, s, n).after.refreshEmbed
    ensures var u := ChangeStatusSpec(b, s, n).update;
      u.Some? ==> (u.value.status.Some? <==> b.status != Some(s))
                  && (u.value.activity.Some? <==> b.players != n)
                  && (u.value.status.Some? ==> u.value.status.value == StatusPresence[s])
                  && (u.value.activity.Some? ==> u.value.activity.value == Activity(n))
    ensures ChangeStatusSpec(b, s, n).after.players == n && ChangeStatusSpec(b, s, n).after.playerNames == b.playerNames
  {
  }

  /** The activity is None for no count, "1 joueur" for one player and
      "N joueurs" otherwise. */
  lemma ActivityText(n: nat)
    ensures Activity(None) == None
    ensures Activity(Some(1)) == Some("Minecraft avec 1 joueur")
    ensures n != 1 ==> Activity(Some(n)) == Some("Minecraft avec " + Text.NatToString(n) + " joueurs")
  {
  }

  /** `refresh` maps an unreachable server to 0 and an unparsable answer to 2,
      both without a player count and without touching the name list or
      resending the embed. A reachable server that is not online gets its
      classified code, except that an offline answer that changed the
      presence ends as 2 when the server channel is missing. Every other
      exception escapes. */
  lemma RefreshClassifies(b: BotState, ch: Channels, poll: Result<Minecraft.Server>)
    ensures var r := RefreshSpec(b, ch, poll);
      (poll == Err(TimeoutError) || poll == Err(ConnectionRefusedError)) ==>
        r.round.raised.None? && !r.round.embedResent
        && r.after.status == Some(0) && r.after.players == None && r.after.playerNames == b.playerNames
    ensures var r := RefreshSpec(b, ch, poll);
      poll == Err(AttributeError) ==>
        r.round.raised.None? && !r.round.embedResent
        && r.after.status == Some(2) && r.after.players == None && r.after.playerNames == b.playerNames
    ensures var r := RefreshSpec(b, ch, poll);
      poll.Ok? && MainStatusCode(poll.value.version) != 1 ==>
        var code := MainStatusCode(poll.value.version);
        r.round.raised.None? && r.after.players == None && r.after.playerNames == b.playerNames
        && r.round.chunks == []
        && (r.round.embedResent <==> ch.server && r.round.presences != [])
        && r.after.status == (if !ch.server && code == 0 && r.round.presences != [] then Some(2) else Some(code))
    ensures var r := RefreshSpec(b, ch, poll);
      poll.Err? && poll.exc != TimeoutError && poll.exc != ConnectionRefusedError && poll.exc != AttributeError ==>
        r == Refreshed(b.(refreshEmbed := false), Round([], [], false, Some(poll.exc)))
  {
  }

  /** The first round that finds the server online only seeds the name list
      and announces nothing. It raises TypeError exactly when it changed the
      presence, since the embed is then rebuilt at status 1. */
  lemma RefreshSeedsNames(b: BotState, ch: Channels, server: Minecraft.Server)
    requires MainStatusCode(server.version) == 1 && b.playerNames.None?
    ensures var r := RefreshSpec(b, ch, Ok(server));
      var names := Minecraft.SampleNames(server);
      var moved := b.status != Some(1) || b.players != Some(|names|);
      r.round.chunks == [] && !r.round.embedResent
      && r.after.playerNames == Some(names) && r.after.status == Some(1) && r.after.players == Some(|names|)
      && (r.round.presences != [] <==> moved)
      && r.round.raised == (if moved then Some(TypeError) else None)
  {
    assert |Minecraft.SampleNames(server)| == |server.players.sample|;
  }

  /** Later online rounds announce the logins in new-list order and the
      logouts in old-list order and replace the list; like the first, they
      raise TypeError exactly when they changed the presence. Without a log
      channel a non-empty delta fails on its first send and is caught as
      status 2. */
  lemma RefreshOnline(b: BotState, ch: Channels, server: Minecraft.Server)
    requires MainStatusCode(server.version) == 1 && b.playerNames.Some?
    ensures var r := RefreshSpec(b, ch, Ok(server));
      var names := Minecraft.SampleNames(server);
      var moved := b.status != Some(1) || b.players != Some(|names|);
      var chunks := Batcher.Pack(Batcher.Lines(Batcher.Without(names, b.playerNames.value),
                                               Batcher.Without(b.playerNames.value, names)));
      !r.round.embedResent
      && (ch.log || chunks == [] ==>
            r.round.chunks == chunks && r.after.playerNames == Some(names)
            && r.after.status == Some(1) && r.after.players == Some(|names|)
            && (r.round.presences != [] <==> moved)
            && r.round.raised == (if moved then Some(TypeError) else None))
      && (!ch.log && chunks != [] ==>
            r.round.chunks == [] && r.after.playerNames == b.playerNames
            && r.after.status == Some(2) && r.after.players == None
            && r.round.presences != [] && r.round.raised.None?)
  {
    var names := Minecraft.SampleNames(server);
    assert |names| == |server.players.sample|;
    var cleared := b.(refreshEmbed := false);
    var c := ChangeStatusSpec(cleared, 1, Some(|names|));
    ChangeStatusOnlyDifferences(cleared, 1, Some(|names|));
    var u := UpdatePlayersSpec(c.after, ch.log, names, b.playerNames.value);
    var r := RefreshSpec(b, ch, Ok(server));
    if u.sent.Ok? {
      assert r == ResendSpec(u.after, ch, Calls(c.update), u.sent.value);
      assert u.after == c.after.(playerNames := Some(names));
    } else {
      assert r == CatchSpec(u.after, AttributeError, Calls(c.update), []);
      assert u.after == c.after;
    }
  }

  /** The first round after start-up that finds the server online raises
      TypeError, which ends the refresh loop. */
  lemma FirstOnlineRoundRaises(ch: Channels, server: Minecraft.Server)
    requires MainStatusCode(server.version) == 1
    ensures RefreshSpec(Initial, ch, Ok(server)).round.raised == Some(TypeError)
    ensures RefreshSpec(Initial, ch, Ok(server)).round.presences != []
  {
    RefreshSeedsNames(Initial, ch, server);
  }

  /** Without a server channel an offline answer never settles: each round
      sets status 0, fails to resend the embed, and is put back to 2, with
      two presence calls. */
  lemma OfflineFlapsWithoutServerChannel(b: BotState, server: Minecraft.Server)
    requires MainStatusCode(server.version) == 0 && b.status == Some(2) && b.players == None
    ensures var r := RefreshSpec(b, Channels(true, false), Ok(server));
      r.after == b.(refreshEmbed := true) && |r.round.presences| == 2 && r.round.raised.None?
  {
  }

  /** `refresh_embed` is cleared at the start of every round, and the embed
      reaches the server channel only after a presence call, never at status
      1 and never without the channel. */
  lemma EmbedOnlyAfterPresenceChange(b: BotState, ch: Channels, poll: Result<Minecraft.Server>)
    ensures var r := RefreshSpec(b, ch, poll);
      r.round.embedResent ==> r.round.presences != [] && ch.server && r.after.status != Some(1) && r.round.raised.None?
  {
  }

  /** The same answer twice in a row after a round that did not raise: the
      second round makes no presence call, sends nothing and does not resend
      the embed; only an offline answer without a server channel keeps
      changing. */
  lemma QuietSecondRefresh(b: BotState, ch: Channels, server: Minecraft.Server)
    requires RefreshSpec(b, ch, Ok(server)).round.raised.None?
    requires ch.server || MainStatusCode(server.version) != 0
    requires MainStatusCode(server.version) == 1 ==>
      RefreshSpec(b, ch, Ok(server)).after.playerNames == Some(Minecraft.SampleNames(server))
    ensures var first := RefreshSpec(b, ch, Ok(server)).after;
      RefreshSpec(first, ch, Ok(server)) == Refreshed(first.(refreshEmbed := false), Round([], [], false, None))
  {
    var names := Minecraft.SampleNames(server);
    var code := MainStatusCode(server.version);
    var first := RefreshSpec(b, ch, Ok(server)).after;
    Batcher.WithoutSelf(names);
    assert Batcher.Pack(Batcher.Lines([], [])) == [];
    if code == 1 && b.playerNames.None? {
      RefreshSeedsNames(b, ch, server);
      assert first.status == Some(1) && first.players == Some(|names|);
    } else if code == 1 {
      RefreshOnline(b, ch, server);
      assert first.status == Some(1) && first.players == Some(|names|);
    } else {
      RefreshClassifies(b, ch, Ok(server));
    }
    SettledIsQuiet(first, ch, server);
  }

  /** The globals a round leaves when the server keeps giving the same answer. */
  lemma SettledIsQuiet(b: BotState, ch: Channels, server: Minecraft.Server)
    requires b.status == Some(MainStatusCode(server.version))
    requires b.players == if MainStatusCode(server.version) == 1 then Some(|server.players.sample|) else None
    requires MainStatusCode(server.version) == 1 ==> b.playerNames == Some(Minecraft.SampleNames(server))
    ensures RefreshSpec(b, ch, Ok(server)) == Refreshed(b.(refreshEmbed := false), Round([], [], false, None))
  {
    var names := Minecraft.SampleNames(server);
    Batcher.WithoutSelf(names);
    assert Batcher.Pack(Batcher.Lines([], [])) == [];
  }

  /** The two bots classify alike: `refresh` here and the cog's
      `update_status` configured with the offline name and "Old" give the
      same code, although they test the two names in opposite order. */
  lemma SameCodesAsCog(version: string, cfg: PingerCog.CogConfig)
    requires cfg.offlineVersions == [OfflineVersion] && cfg.startingVersions == [OldVersion]
    ensures MainStatusCode(version) == PingerCog.StatusCode(version, cfg)
  {
  }

  /** The globals of main.py, with the channels `on_ready` found. */
  class Bot {
    const channels: Channels
    var status: Option<nat>
    var players: Option<nat>
    var playerNames: Option<seq<string>>
    var refreshEmbed: bool

    function Snapshot(): BotState
      reads this
    {
      BotState(status, players, playerNames, refreshEmbed)
    }

    constructor(channels: Channels)
      ensures this.channels == channels && Snapshot() == Initial
    {
      this.channels := channels;
      status := None;
      players := None;
      playerNames := None;
      refreshEmbed := false;
    }

    /** `change_status(new_status, new_players)`. */
    method ChangeStatus(newStatus: nat, newPlayers: Option<nat>) returns (update: Option<PresenceUpdate>)
      requires newStatus <= 2
      modifies this`status, this`players, this`refreshEmbed
      ensures Snapshot() == ChangeStatusSpec(old(Snapshot()), newStatus, newPlayers).after
      ensures update == ChangeStatusSpec(old(Snapshot()), newStatus, newPlayers).update
    {
      var statusArg: Option<PresenceStatus> := None;
      var activityArg: Option<Option<string>> := None;
      if Some(newStatus) != status {
        status := Some(newStatus);
        statusArg := Some(StatusPresence[newStatus]);
      }
      if newPlayers != players {
        players := newPlayers;
        if players.Some? {
          if players.value != 1 {
            activityArg := Some(Some("Minecraft avec " + Text.NatToString(players.value) + " joueurs"));
          } else {
            activityArg := Some(Some("Minecraft avec 1 joueur"));
          }
        } else {
          activityArg := Some(None);
        }
      }
      update := None;
      if statusArg.Some? || activityArg.Some? {
        update := Some(PresenceUpdate(statusArg, activityArg));
        refreshEmbed := true;
      }
    }

    /** `update_players(new_players)`; the first send raises AttributeError
        when the log channel is missing. */
    method UpdatePlayers(names: seq<string>) returns (sent: Result<seq<string>>)
      requires playerNames.Some?
      modifies this`playerNames
      ensures Snapshot() == UpdatePlayersSpec(old(Snapshot()), channels.log, names, old(playerNames.value)).after
      ensures sent == UpdatePlayersSpec(old(Snapshot()), channels.log, names, old(playerNames.value)).sent
    {
      var logins, logouts := Batcher.Diff(names, playerNames.value);
      var chunks := Batcher.PackLines(Batcher.Lines(logins, logouts));
      if |chunks| > 0 && !channels.log {
        return Err(AttributeError);
      }
      playerNames := Some(names);
      sent := Ok(chunks);
    }

    /** The `except` clauses of `refresh`. */
    method Catch(e: Exc, made: seq<PresenceUpdate>, chunks: seq<string>) returns (r: Round)
      modifies this`status, this`players, this`refreshEmbed
      ensures Snapshot() == CatchSpec(old(Snapshot()), e, made, chunks).after
      ensures r == CatchSpec(old(Snapshot()), e, made, chunks).round
    {
      if e == TimeoutError || e == ConnectionRefusedError {
        var update := ChangeStatus(0, None);
        r := Round(made + Calls(update), chunks, false, None);
      } else if e == AttributeError {
        var update := ChangeStatus(2, None);
        r := Round(made + Calls(update), chunks, false, None);
      } else {
        r := Round(made, chunks, false, Some(e));
      }
    }

    /** `if refresh_embed: await resend_embed(server_status)` and what the
        `except` clauses make of it. */
    method Resend(made: seq<PresenceUpdate>, chunks: seq<string>) returns (r: Round)
      modifies this`status, this`players, this`refreshEmbed
      ensures Snapshot() == ResendSpec(old(Snapshot()), channels, made, chunks).after
      ensures r == ResendSpec(old(Snapshot()), channels, made, chunks).round
    {
      if !refreshEmbed {
        return Round(made, chunks, false, None);
      }
      if status == Some(1) {
        // get_embed: `len(server_status > 0)` compares a Server with an int
        return Round(made, chunks, false, Some(TypeError));
      }
      if !channels.server {
        // SERVER_CHANNEL.fetch_message on None
        r := Catch(AttributeError, made, chunks);
        return;
      }
      r := Round(made, chunks, true, None);
    }

    /** `refresh()`, with `minecraft.ping`'s value or exception as `poll`. */
    method Refresh(poll: Result<Minecraft.Server>) returns (r: Round)
      modifies this
      ensures Snapshot() == RefreshSpec(old(Snapshot()), channels, poll).after
      ensures r == RefreshSpec(old(Snapshot()), channels, poll).round
    {
      refreshEmbed := false;
      if poll.Err? {
        r := Catch(poll.exc, [], []);
        return;
      }
      var server := poll.value;
      var chunks: seq<string> := [];
      var update: Option<PresenceUpdate>;
      if server.version == OldVersion {
        update := ChangeStatus(2, None);
      } else if server.version == OfflineVersion {
        update := ChangeStatus(0, None);
      } else {
        update := ChangeStatus(1, Some(|server.players.sample|));
        var names := Minecraft.SampleNames(server);
        if playerNames.None? {
          playerNames := Some(names);
        } else {
          var sent := UpdatePlayers(names);
          if sent.Err? {
            r := Catch(sent.exc, Calls(update), []);
            return;
          }
          chunks := sent.value;
        }
      }
      r := Resend(Calls(update), chunks);
    }
  }
}
