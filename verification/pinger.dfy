/** The pinger cog of minecraftpinger.py: the status code (0 offline,
    1 online, 2 starting), the roster as an ordered list, the refresh flag,
    and what one `refresh` round hands to the chat client: the login/logout
    chunks, the bot presence and the status embed. */
module PingerCog {
  import opened Base
  import opened Discord
  import Minecraft
  import Batcher
  import Text

  const ServerStatusNames: seq<string> := ["Offline", "Online", "Starting"]
  const ServerStatusEmojis: seq<string> := ["\U{26AB}", "\U{1F7E2}", "\U{1F534}"]
  const BotStatus: seq<PresenceStatus> := [InvisibleStatus, OnlineStatus, DndStatus]

  /** The configuration values the cog reads. `hasLogChannel` says whether
      the log channel was configured and found; `hasServerChannel` says
      whether a server channel id is configured, and the model takes such a
      channel to be found. */
  datatype CogConfig = CogConfig(
    ip: string,
    iconUrl: string,
    offlineVersions: seq<string>,
    startingVersions: seq<string>,
    hasLogChannel: bool,
    hasServerChannel: bool)

  /** The status code a reachable server's version gives: the offline list
      wins over the starting list; there is no sleeping state. */
  function StatusCode(version: string, cfg: CogConfig): (code: nat)
    ensures code <= 2
    ensures code == 0 <==> version in cfg.offlineVersions
    ensures code == 2 <==> version !in cfg.offlineVersions && version in cfg.startingVersions
    ensures code == 1 <==> version !in cfg.offlineVersions + cfg.startingVersions
  {
    if version in cfg.offlineVersions then 0
    else if version in cfg.startingVersions then 2
    else 1
  }

  /** The cog's fields; `version` and `maxPlayers` are `None` until a server
      answered, since the constructor does not set them. */
  datatype CogState = CogState(
    status: nat,
    refreshNeeded: bool,
    players: seq<string>,
    version: Option<string>,
    maxPlayers: Option<Json>)

  /** The status indexes the status tables, and an online status comes with a
      recorded version and player maximum. */
  predicate ValidState(c: CogState)
  {
    c.status <= 2 && (c.status == 1 ==> c.version.Some? && c.maxPlayers.Some?)
  }

  /** A freshly constructed cog. */
  const Initial := CogState(0, true, [], None, None)

  /** `update_status(status=s)`. */
  function SetStatusSpec(c: CogState, s: nat): CogState
  {
    if s != c.status then c.(status := s, refreshNeeded := true) else c
  }

  /** `update_status(server_status=server)`. */
  function RecordServerSpec(c: CogState, cfg: CogConfig, server: Minecraft.Server): CogState
  {
    var recorded := c.(version := Some(server.version), maxPlayers := Some(server.players.max));
    SetStatusSpec(recorded, StatusCode(server.version, cfg))
  }

  /** The fields `update_players` leaves and the chunks it sent, or the
      AttributeError of its first send when there is no log channel. */
  datatype PlayersUpdate = PlayersUpdate(after: CogState, sent: Result<seq<string>>)

  /** `update_players(server)`. */
  function UpdatePlayersSpec(c: CogState, cfg: CogConfig, server: Minecraft.Server): PlayersUpdate
  {
    var names := Minecraft.SampleNames(server);
    var logins := Batcher.Without(names, c.players);
    var logouts := Batcher.Without(c.players, names);
    var flagged := if |logins| > 0 || |logouts| > 0 then c.(refreshNeeded := true) else c;
    var chunks := Batcher.Pack(Batcher.Lines(logins, logouts));
    if chunks != [] && !cfg.hasLogChannel then PlayersUpdate(flagged, Err(AttributeError))
    else PlayersUpdate(flagged.(players := names), Ok(chunks))
  }

  /** The state after the `try` of `refresh`, the chunks sent in it, and the
      exception that escapes its `except` clauses, if any. */
  datatype Polled = Polled(after: CogState, chunks: seq<string>, raised: Option<Exc>)

  /** The `except` clauses of `refresh`. */
  function CatchSpec(c: CogState, e: Exc): Polled
  {
    if e == TimeoutError || e == ConnectionRefusedError then Polled(SetStatusSpec(c, 0), [], None)
    else if e == AttributeError then Polled(SetStatusSpec(c, 2), [], None)
    else Polled(c, [], Some(e))
  }

  /** The `try`/`except` part of `refresh`, given `minecraft.ping`'s value or
      exception. */
  function PollSpec(c: CogState, cfg: CogConfig, poll: Result<Minecraft.Server>): (p: Polled)
    ensures ValidState(c) ==> ValidState(p.after)
  {
    match poll
    case Err(e) => CatchSpec(c, e)
    case Ok(server) =>
      var u := UpdatePlayersSpec(c, cfg, server);
      match u.sent
      case Ok(chunks) => Polled(RecordServerSpec(u.after, cfg, server), chunks, None)
      case Err(e) => CatchSpec(u.after, e)
  }

  /** An embed field; the "Joueurs n/max" field keeps the player maximum as
      the JSON value the server reported. */
  datatype Field =
    | TextField(name: string, value: string, inline: bool)
    | RosterField(count: nat, max: Json, value: string)

  /** The embed of `get_embed`. */
  datatype StatusView = StatusView(title: string, colour: int, fields: seq<Field>, footerText: string, footerIcon: string)

  /** `get_embed()`. */
  function StatusEmbed(cfg: CogConfig, c: CogState): (v: StatusView)
    requires ValidState(c)
    ensures v.title == "Minecraft Server " + cfg.ip && v.colour == 0xb99213
    ensures |v.fields| == if c.status == 1 then 3 else 1
    ensures v.fields[0].TextField? && v.fields[0].name == "Status"
    ensures c.status == 1 ==> v.fields[2].RosterField? && v.fields[2].count == |c.players|
  {
    var status := TextField("Status", "`" + ServerStatusEmojis[c.status] + ServerStatusNames[c.status] + "`", true);
    var online :=
      if c.status == 1 then
        [TextField("Version", "`" + c.version.value + "`", true),
         RosterField(|c.players|, c.maxPlayers.value, RosterText(c.players))]
      else [];
    StatusView("Minecraft Server " + cfg.ip, 0xb99213, [status] + online, cfg.ip, cfg.iconUrl)
  }

  /** The presence `refresh_status` sets. */
  function CogPresence(status: nat, count: nat): (p: Presence)
    requires status <= 2
    ensures p.status == OnlineStatus <==> status == 1
    ensures p.activity.Some? <==> status == 1
  {
    var activity :=
      if status == 1 then
        Some(if count != 1 then "Minecraft with " + Text.NatToString(count) + " players" else "Minecraft with 1 player")
      else None;
    Presence(BotStatus[status], activity)
  }

  /** The value of the "Joueurs n/max" field: the players one per line, or
      "Aucun joueur", in a code block. */
  function RosterText(players: seq<string>): string
  {
    "```fix\n" + (if |players| > 0 then Text.Join(players, "\n") else "Aucun joueur") + "```"
  }

  /** The roster field lists the players one per line: splitting its body
      at the newlines gives them back. */
  lemma RosterTextLists(players: seq<string>)
    requires forall k :: 0 <= k < |players| ==> '\n' !in players[k]
    ensures var t := RosterText(players);
      |t| >= 10 && t[..7] == "```fix\n" && t[|t| - 3..] == "```"
      && (players == [] ==> t == "```fix\nAucun joueur```")
      && (players != [] ==> Text.Split(t[7..|t| - 3], '\n') == players)
  {
    var t := RosterText(players);
    if players != [] {
      var body := Text.Join(players, "\n");
      assert t == "```fix\n" + body + "```";
      assert t[7..|t| - 3] == body;
      Text.SplitJoin(players, '\n');
    }
  }

  /** What one `refresh` round hands to the chat client: the chunks sent to
      the log channel, the presence and the embed, when they are refreshed. */
  datatype Round = Round(chunks: seq<string>, presence: Option<Presence>, view: Option<StatusView>)

  datatype Refreshed = Refreshed(after: CogState, result: Result<Round>)

  /** `refresh()`. */
  function RefreshSpec(c: CogState, cfg: CogConfig, poll: Result<Minecraft.Server>): Refreshed
    requires ValidState(c)
  {
    var p := PollSpec(c, cfg, poll);
    if p.raised.Some? then Refreshed(p.after, Err(p.raised.value))
    else if !p.after.refreshNeeded then Refreshed(p.after, Ok(Round(p.chunks, None, None)))
    else
      var view := if cfg.hasServerChannel then Some(StatusEmbed(cfg, p.after)) else None;
      Refreshed(p.after.(refreshNeeded := false),
                Ok(Round(p.chunks, Some(CogPresence(p.after.status, |p.after.players|)), view)))
  }

  /** `update_status(status=s)` assigns only a different status, and only
      then asks for a refresh. */
  lemma SetStatusFlags(c: CogState, s: nat)
    ensures SetStatusSpec(c, s).status == s
    ensures SetStatusSpec(c, s).refreshNeeded == (c.refreshNeeded || s != c.status)
    ensures SetStatusSpec(c, s).players == c.players
    ensures SetStatusSpec(c, s).version == c.version && SetStatusSpec(c, s).maxPlayers == c.maxPlayers
  {
  }

  /** An unreachable server gives status 0 and an unparsable answer status 2,
      with the roster untouched and nothing sent; other exceptions escape and
      change nothing. */
  lemma ExceptionsGiveStatus(c: CogState, cfg: CogConfig, e: Exc)
    ensures var p := PollSpec(c, cfg, Err(e));
      p.chunks == [] && p.after.players == c.players
    ensures e == TimeoutError || e == ConnectionRefusedError ==> PollSpec(c, cfg, Err(e)).after.status == 0
    ensures e == AttributeError ==> PollSpec(c, cfg, Err(e)).after.status == 2
    ensures e != TimeoutError && e != ConnectionRefusedError && e != AttributeError
      ==> PollSpec(c, cfg, Err(e)) == Polled(c, [], Some(e))
  {
  }

  /** A reachable server: logins are the new names absent from the old list
      in new-list order, logouts the old names absent from the new list in
      old-list order; the lines are packed and sent, the roster becomes the
      new list and the status is classified from the version. Without a log
      channel a non-empty delta fails on its first send, which is caught as
      status 2 with the roster kept. */
  lemma ServerPollRecords(c: CogState, cfg: CogConfig, server: Minecraft.Server)
    ensures var names := Minecraft.SampleNames(server);
      var logins := Batcher.Without(names, c.players);
      var logouts := Batcher.Without(c.players, names);
      var chunks := Batcher.Pack(Batcher.Lines(logins, logouts));
      var p := PollSpec(c, cfg, Ok(server));
      p.raised.None?
      && (p.after.refreshNeeded <==> c.refreshNeeded || logins != [] || logouts != [] || p.after.status != c.status)
      && (cfg.hasLogChannel || chunks == [] ==>
            p.chunks == chunks && p.after.players == names
            && p.after.status == StatusCode(server.version, cfg)
            && p.after.version == Some(server.version) && p.after.maxPlayers == Some(server.players.max))
      && (!cfg.hasLogChannel && chunks != [] ==>
            p.chunks == [] && p.after.players == c.players && p.after.status == 2)
  {
  }

  /** After a round that did not raise, no refresh is pending; the presence
      and the embed were refreshed exactly when one was pending. */
  lemma RefreshClearsFlag(c: CogState, cfg: CogConfig, poll: Result<Minecraft.Server>)
    requires ValidState(c)
    ensures ValidState(RefreshSpec(c, cfg, poll).after)
    ensures var r := RefreshSpec(c, cfg, poll);
      var pending := PollSpec(c, cfg, poll).after.refreshNeeded;
      r.result.Ok? ==>
        !r.after.refreshNeeded
        && (r.result.value.presence.Some? <==> pending)
        && (r.result.value.view.Some? <==> pending && cfg.hasServerChannel)
  {
  }

  /** The first round after construction always refreshes the presence. */
  lemma FirstRefreshAnnounces(cfg: CogConfig, poll: Result<Minecraft.Server>)
    requires RefreshSpec(Initial, cfg, poll).result.Ok?
    ensures RefreshSpec(Initial, cfg, poll).result.value.presence.Some?
  {
  }

  /** The same answer twice in a row: the second round sends nothing and
      refreshes neither presence nor embed. */
  lemma QuietSecondRefresh(c: CogState, cfg: CogConfig, server: Minecraft.Server)
    requires ValidState(c)
    requires RefreshSpec(c, cfg, Ok(server)).result.Ok?
    requires RefreshSpec(c, cfg, Ok(server)).after.players == Minecraft.SampleNames(server)
    ensures var first := RefreshSpec(c, cfg, Ok(server)).after;
      RefreshSpec(first, cfg, Ok(server)) == Refreshed(first, Ok(Round([], None, None)))
  {
    var first := RefreshSpec(c, cfg, Ok(server)).after;
    var names := Minecraft.SampleNames(server);
    Batcher.WithoutSelf(names);
    assert Batcher.Lines([], []) == [];
    assert Batcher.Pack([]) == [];
    RefreshClearsFlag(c, cfg, Ok(server));
    ServerPollRecords(c, cfg, server);
    SettledCogIsQuiet(first, cfg, server);
  }

  /** A round over an answer the cog has already recorded changes nothing. */
  lemma SettledCogIsQuiet(c: CogState, cfg: CogConfig, server: Minecraft.Server)
    requires ValidState(c) && !c.refreshNeeded
    requires c.players == Minecraft.SampleNames(server) && c.status == StatusCode(server.version, cfg)
    requires c.version == Some(server.version) && c.maxPlayers == Some(server.players.max)
    ensures RefreshSpec(c, cfg, Ok(server)) == Refreshed(c, Ok(Round([], None, None)))
  {
    Batcher.WithoutSelf(c.players);
    assert Batcher.Pack(Batcher.Lines([], [])) == [];
    assert UpdatePlayersSpec(c, cfg, server) == PlayersUpdate(c, Ok([]));
    assert RecordServerSpec(c, cfg, server) == c;
  }

  /** The status field shows the emoji and name of the status; the Version
      and "Joueurs n/max" fields appear only when online, the latter holding
      the player count, the maximum and the roster text. */
  lemma EmbedShowsRoster(cfg: CogConfig, c: CogState)
    requires ValidState(c)
    ensures StatusEmbed(cfg, c).fields[0]
      == TextField("Status", "`" + ServerStatusEmojis[c.status] + ServerStatusNames[c.status] + "`", true)
    ensures c.status == 1 ==>
      StatusEmbed(cfg, c).fields[1] == TextField("Version", "`" + c.version.value + "`", true)
      && StatusEmbed(cfg, c).fields[2] == RosterField(|c.players|, c.maxPlayers.value, RosterText(c.players))
  {
  }

  /** Each status code has its own presence status, and only the online code
      carries an activity, "1 player" for one player and "N players" else. */
  lemma PresenceFollowsStatus(s1: nat, n1: nat, s2: nat, n2: nat)
    requires s1 <= 2 && s2 <= 2
    ensures s1 != s2 ==> CogPresence(s1, n1).status != CogPresence(s2, n2).status
    ensures CogPresence(s1, n1).activity.Some? <==> s1 == 1
    ensures s1 == 1 && n1 == 1 ==> CogPresence(s1, n1).activity == Some("Minecraft with 1 player")
    ensures s1 == 1 && n1 != 1
      ==> CogPresence(s1, n1).activity == Some("Minecraft with " + Text.NatToString(n1) + " players")
  {
  }

  /** `MinecraftPingerCog`, its configuration and the fields its methods
      reassign. */
  class Cog {
    const config: CogConfig
    var status: nat
    var refreshNeeded: bool
    var players: seq<string>
    var version: Option<string>
    var maxPlayers: Option<Json>

    function Snapshot(): CogState
      reads this
    {
      CogState(status, refreshNeeded, players, version, maxPlayers)
    }

    ghost predicate Valid()
      reads this
    {
      ValidState(Snapshot())
    }

    constructor(config: CogConfig)
      ensures this.config == config && Snapshot() == Initial && Valid()
    {
      this.config := config;
      status := 0;
      refreshNeeded := true;
      players := [];
      version := None;
      maxPlayers := None;
    }

    /** `update_status(status=s)`. */
    method SetStatus(s: nat)
      modifies this`status, this`refreshNeeded
      ensures Snapshot() == SetStatusSpec(old(Snapshot()), s)
    {
      if s != status {
        status := s;
        refreshNeeded := true;
      }
    }

    /** `update_status(server_status=server)`. */
    method RecordServer(server: Minecraft.Server)
      modifies this`status, this`refreshNeeded, this`version, this`maxPlayers
      ensures Snapshot() == RecordServerSpec(old(Snapshot()), config, server)
    {
      version := Some(server.version);
      maxPlayers := Some(server.players.max);
      if version.value in config.offlineVersions {
        SetStatus(0);
      } else if version.value in config.startingVersions {
        SetStatus(2);
      } else {
        SetStatus(1);
      }
    }

    /** `update_players(server)`: the first send raises AttributeError when the
        log channel is missing. */
    method UpdatePlayers(server: Minecraft.Server) returns (sent: Result<seq<string>>)
      modifies this`players, this`refreshNeeded
      ensures Snapshot() == UpdatePlayersSpec(old(Snapshot()), config, server).after
      ensures sent == UpdatePlayersSpec(old(Snapshot()), config, server).sent
    {
      var names := Minecraft.SampleNames(server);
      var logins, logouts := Batcher.Diff(names, players);
      if |logins| > 0 || |logouts| > 0 {
        refreshNeeded := true;
      }
      var chunks := Batcher.PackLines(Batcher.Lines(logins, logouts));
      if |chunks| > 0 && !config.hasLogChannel {
        return Err(AttributeError);
      }
      players := names;
      sent := Ok(chunks);
    }

    /** The `except` clauses of `refresh`. */
    method Catch(e: Exc) returns (uncaught: Option<Exc>)
      modifies this`status, this`refreshNeeded
      ensures Snapshot() == CatchSpec(old(Snapshot()), e).after
      ensures uncaught == CatchSpec(old(Snapshot()), e).raised
    {
      uncaught := None;
      if e == TimeoutError || e == ConnectionRefusedError {
        SetStatus(0);
      } else if e == AttributeError {
        SetStatus(2);
      } else {
        uncaught := Some(e);
      }
    }

    /** The `try`/`except` part of `refresh()`. */
    method Poll(poll: Result<Minecraft.Server>) returns (chunks: seq<string>, uncaught: Option<Exc>)
      modifies this`status, this`refreshNeeded, this`players, this`version, this`maxPlayers
      ensures Snapshot() == PollSpec(old(Snapshot()), config, poll).after
      ensures chunks == PollSpec(old(Snapshot()), config, poll).chunks
      ensures uncaught == PollSpec(old(Snapshot()), config, poll).raised
    {
      chunks := [];
      uncaught := None;
      match poll {
        case Ok(server) =>
          var sent := UpdatePlayers(server);
          if sent.Ok? {
            chunks := sent.value;
            RecordServer(server);
          } else {
            uncaught := Catch(sent.exc);
          }
        case Err(e) =>
          uncaught := Catch(e);
      }
    }

    /** `refresh()`, with `minecraft.ping`'s value or exception as `poll`. */
    method Refresh(poll: Result<Minecraft.Server>) returns (r: Result<Round>)
      requires Valid()
      modifies this
      ensures Valid()
      ensures Snapshot() == RefreshSpec(old(Snapshot()), config, poll).after
      ensures r == RefreshSpec(old(Snapshot()), config, poll).result
    {
      var chunks, uncaught := Poll(poll);
      if uncaught.Some? {
        return Err(uncaught.value);
      }
      var presence: Option<Presence> := None;
      var view: Option<StatusView> := None;
      if refreshNeeded {
        presence := Some(CogPresence(status, |players|));
        if config.hasServerChannel {
          view := Some(StatusEmbed(config, Snapshot()));
        }
        refreshNeeded := false;
      }
      r := Ok(Round(chunks, presence, view));
    }
  }
}
