/** The per-server tracker of server.py: where notices are posted (`Sender`),
    the polled server state with the logins and logouts still to announce
    (`State`), and one polling round that renders the login message and the
    bot's presence (`Tracker`). */
module Tracking {
  import opened Base
  import opened Discord
  import Minecraft
  import Text

  /** `SenderType`: a sender posts either to a text channel or to a webhook. */
  datatype SenderType = TextChannelSender | WebhookSender

  /** A constructed `Sender`: its type, the channel id or webhook url that type
      uses, and the optional thread. */
  datatype Sender = Sender(senderType: SenderType, target: Json, threadId: Json)

  /** `Sender(textchannel_id, webhook_url, thread_id)`; `None` is `JNull`. */
  function NewSender(textchannelId: Json, webhookUrl: Json, threadId: Json): (r: Result<Sender>)
    ensures r.Ok? <==> (textchannelId == JNull) != (webhookUrl == JNull)
    ensures textchannelId == JNull && webhookUrl == JNull
      ==> r == Err(ValueError("Cannot create sender class without textchannel_id and webhook_url"))
    ensures textchannelId != JNull && webhookUrl != JNull
      ==> r == Err(ValueError("You cannot specify both textchannel_id and webhook_url"))
    ensures r.Ok? ==> r.value.threadId == threadId && r.value.target != JNull
    ensures r.Ok? ==> (r.value.senderType == TextChannelSender <==> textchannelId != JNull)
    ensures r.Ok? ==> r.value.target == if textchannelId != JNull then textchannelId else webhookUrl
  {
    if textchannelId == JNull && webhookUrl == JNull then
      Err(ValueError("Cannot create sender class without textchannel_id and webhook_url"))
    else if textchannelId != JNull && webhookUrl != JNull then
      Err(ValueError("You cannot specify both textchannel_id and webhook_url"))
    else if textchannelId != JNull then
      Ok(Sender(TextChannelSender, textchannelId, threadId))
    else
      Ok(Sender(WebhookSender, webhookUrl, threadId))
  }

  /** `Sender.from_data(data)`: the `channel`, `webhook` and `thread` entries,
      each defaulting to `None`. */
  function SenderFromData(data: Json): (r: Result<Sender>)
    ensures !data.JObject? ==> r == Err(AttributeError)
    ensures data.JObject? ==>
      (r.Ok? <==> ("channel" in data.fields && data.fields["channel"] != JNull)
                  != ("webhook" in data.fields && data.fields["webhook"] != JNull))
    ensures r.Ok? ==> r.value.threadId == if "thread" in data.fields then data.fields["thread"] else JNull
  {
    // the three `get` calls are made on the same value, so the first one
    // raises exactly when any of them would
    match data
    case JObject(m) =>
      NewSender(if "channel" in m then m["channel"] else JNull,
                if "webhook" in m then m["webhook"] else JNull,
                if "thread" in m then m["thread"] else JNull)
    case _ => Err(AttributeError)
  }

  /** The configuration entry a sender is read back from. */
  function SenderToJson(s: Sender): Json
  {
    var key := if s.senderType == TextChannelSender then "channel" else "webhook";
    JObject(map[key := s.target, "thread" := s.threadId])
  }

  /** Every sender is read back unchanged from its own configuration entry. */
  lemma SenderRoundTrip(s: Sender)
    requires s.target != JNull
    ensures SenderFromData(SenderToJson(s)) == Ok(s)
  {
    var m := SenderToJson(s).fields;
    if s.senderType == TextChannelSender {
      assert "webhook" !in m;
    } else {
      assert "channel" !in m;
    }
  }

  /** `ServerState`, an IntEnum with offline < sleeping < starting < online. */
  datatype ServerState = Offline | Sleeping | Starting | Online

  /** The configuration a `State` is built from. */
  datatype StateConfig = StateConfig(ip: Json, port: Json, sleeping: seq<string>, starting: seq<string>, offline: seq<string>)

  /** A list of version names; this model keeps only lists of strings. */
  function Strings(items: seq<Json>): (r: Result<seq<string>>)
    ensures r.Ok? ==> |r.value| == |items| && forall k :: 0 <= k < |items| ==> items[k] == JStr(r.value[k])
    ensures r.Err? ==> r.exc == TypeError
  {
    if items == [] then Ok([])
    else if !items[0].JStr? then Err(TypeError)
    else
      var rest :- Strings(items[1..]);
      Ok([items[0].s] + rest)
  }

  /** The JSON array of the given version names. */
  function StringArray(names: seq<string>): Json
  {
    JArray(seq(|names|, k requires 0 <= k < |names| => JStr(names[k])))
  }

  function StringList(j: Json): (r: Result<seq<string>>)
    ensures r.Ok? ==> j == StringArray(r.value)
    ensures r.Err? ==> r.exc == TypeError
  {
    if j.JArray? then Strings(j.items) else Err(TypeError)
  }

  /** The entry under `key`, if any, is a list of version names. */
  predicate ListReadable(fields: map<string, Json>, key: string)
  {
    key in fields ==> StringList(fields[key]).Ok?
  }

  /** The version list read under `key`: the entry's own array when present,
      the default otherwise. */
  predicate ListFrom(fields: map<string, Json>, key: string, names: seq<string>, default: seq<string>)
  {
    (key in fields ==> fields[key] == StringArray(names)) && (key !in fields ==> names == default)
  }

  /** `State.from_data(data)`: the port defaults to 25565, the starting
      versions to ["Old"], the sleeping and offline versions to []. */
  function StateFromData(data: Json): (r: Result<StateConfig>)
    ensures r.Ok? ==> data.JObject?
    ensures r.Ok? ==> r.value.ip == if "ip" in data.fields then data.fields["ip"] else JNull
    ensures r.Ok? ==> r.value.port == if "port" in data.fields then data.fields["port"] else JInt(25565)
    ensures r.Ok? ==> ListFrom(data.fields, "sleeping", r.value.sleeping, [])
    ensures r.Ok? ==> ListFrom(data.fields, "starting", r.value.starting, ["Old"])
    ensures r.Ok? ==> ListFrom(data.fields, "offline", r.value.offline, [])
    ensures !data.JObject? ==> r == Err(AttributeError)
    ensures data.JObject? && r.Err? ==> r.exc == TypeError
    ensures data.JObject? ==>
      (r.Ok? <==> ListReadable(data.fields, "sleeping") && ListReadable(data.fields, "starting")
                  && ListReadable(data.fields, "offline"))
  {
    // the five `get` calls are made on the same value, so the first one
    // raises exactly when any of them would
    match data
    case JObject(m) =>
      var sleeping :- StringList(if "sleeping" in m then m["sleeping"] else JArray([]));
      var starting :- StringList(if "starting" in m then m["starting"] else JArray([JStr("Old")]));
      var offline :- StringList(if "offline" in m then m["offline"] else JArray([]));
      Ok(StateConfig(if "ip" in m then m["ip"] else JNull,
                     if "port" in m then m["port"] else JInt(25565),
                     sleeping, starting, offline))
    case _ => Err(AttributeError)
  }

  /** A configuration entry that names only the address gets the default
      port and version lists. */
  lemma StateDefaults(ip: Json)
    ensures StateFromData(JObject(map["ip" := ip])) == Ok(StateConfig(ip, JInt(25565), [], ["Old"], []))
  {
    var m := map["ip" := ip];
    assert "port" !in m && "sleeping" !in m && "starting" !in m && "offline" !in m;
    assert [JStr("Old")][1..] == [];
    assert Strings([]) == Ok([]);
    assert ["Old"] + [] == ["Old"];
    assert Strings([JStr("Old")]) == Ok(["Old"]);
  }

  /** A list of version names is read back from its own JSON array. */
  lemma {:induction false} StringArrayRead(names: seq<string>)
    ensures StringList(StringArray(names)) == Ok(names)
  {
    if names != [] {
      var items := StringArray(names).items;
      assert items[1..] == StringArray(names[1..]).items;
      StringArrayRead(names[1..]);
      assert [names[0]] + names[1..] == names;
    }
  }

  /** The configuration entry that spells out every field of `c`. */
  function StateToJson(c: StateConfig): Json
  {
    JObject(map["ip" := c.ip, "port" := c.port, "sleeping" := StringArray(c.sleeping),
                "starting" := StringArray(c.starting), "offline" := StringArray(c.offline)])
  }

  /** Every state configuration is rebuilt from the entry that spells it out. */
  lemma StateRoundTrip(c: StateConfig)
    ensures StateFromData(StateToJson(c)) == Ok(c)
  {
    StringArrayRead(c.sleeping);
    StringArrayRead(c.starting);
    StringArrayRead(c.offline);
  }

  /** An entry that gives the address and the port, and no version list,
      gets the default version lists. */
  lemma StateDefaultLists(ip: Json, port: Json)
    ensures StateFromData(JObject(map["ip" := ip, "port" := port]))
      == Ok(StateConfig(ip, port, [], ["Old"], []))
  {
    var m := map["ip" := ip, "port" := port];
    assert "sleeping" !in m && "starting" !in m && "offline" !in m;
    assert [JStr("Old")][1..] == [];
    assert Strings([]) == Ok([]);
    assert ["Old"] + [] == ["Old"];
    assert Strings([JStr("Old")]) == Ok(["Old"]);
  }

  /** The state a reachable server's version name gives: the offline list is
      looked at first, then the starting list, then the sleeping list. */
  function Classify(version: string, cfg: StateConfig): (s: ServerState)
    ensures s == Offline <==> version in cfg.offline
    ensures s == Starting <==> version !in cfg.offline && version in cfg.starting
    ensures s == Sleeping <==> version !in cfg.offline && version !in cfg.starting && version in cfg.sleeping
    ensures s == Online <==> version !in cfg.offline + cfg.starting + cfg.sleeping
  {
    if version in cfg.offline then Offline
    else if version in cfg.starting then Starting
    else if version in cfg.sleeping then Sleeping
    else Online
  }

  /** The fields of a `State` other than its configuration. `refreshed` is
      `None` until the first `update`, since the constructor never sets it. */
  datatype Tracked = Tracked(
    previous: Option<ServerState>,
    current: Option<ServerState>,
    players: set<string>,
    login: set<string>,
    logout: set<string>,
    refreshed: Option<bool>)

  /** A freshly constructed `State`. */
  const Initial := Tracked(None, None, {}, {}, {}, None)

  /** The outcome of `update`: the new fields, and the exception it lets
      through, if any. */
  datatype Updated = Updated(after: Tracked, raised: Option<Exc>)

  /** The set of the names in the sample. */
  function NameSet(server: Minecraft.Server): set<string>
  {
    set n | n in Minecraft.SampleNames(server)
  }

  /** A round whose outcome is not online: the roster moves into the pending
      logins, the pending logouts are cleared, the roster is emptied. */
  function NotOnline(t: Tracked, s: ServerState): Tracked
  {
    t.(current := Some(s), logout := {}, login := t.players, players := {}, refreshed := Some(true))
  }

  /** `State.update` given what `minecraft.ping` returned or raised. */
  function UpdateSpec(t: Tracked, poll: Result<Minecraft.Server>, cfg: StateConfig): Updated
  {
    var saved := t.(previous := t.current);
    match poll
    case Err(e) =>
      if e == TimeoutError || e == ConnectionRefusedError then Updated(NotOnline(saved, Offline), None)
      else if e == AttributeError then Updated(NotOnline(saved, Starting), None)
      else Updated(saved, Some(e))
    case Ok(server) =>
      var s := Classify(server.version, cfg);
      if s != Online then Updated(NotOnline(saved, s), None)
      else
        var names := NameSet(server);
        Updated(saved.(current := Some(Online), players := names,
                       login := t.login + (names - t.players),
                       logout := t.logout + (t.players - names),
                       refreshed := Some(true)), None)
  }

  /** The answer of `state_changed` and the fields it leaves. */
  datatype Answer = Answer(changed: Result<bool>, after: Tracked)

  /** `State.state_changed`. */
  function ChangedSpec(t: Tracked): Answer
  {
    match t.refreshed
    case None => Answer(Err(AttributeError), t)
    case Some(isFresh) =>
      if !isFresh then Answer(Ok(false), t)
      else if t.logout != {} then Answer(Ok(true), t.(refreshed := Some(false), logout := {}))
      else Answer(Ok(t.login != {} || t.previous != t.current), t.(refreshed := Some(false), login := {}))
  }

  /** `update` always saves the old state first; it lets through every
      exception other than TimeoutError, ConnectionRefusedError and
      AttributeError, and otherwise marks the state as refreshed. */
  lemma UpdateSavesPrevious(t: Tracked, poll: Result<Minecraft.Server>, cfg: StateConfig)
    ensures UpdateSpec(t, poll, cfg).after.previous == t.current
    ensures UpdateSpec(t, poll, cfg).raised.Some?
      <==> poll.Err? && poll.exc != TimeoutError && poll.exc != ConnectionRefusedError && poll.exc != AttributeError
    ensures UpdateSpec(t, poll, cfg).raised.Some? ==> UpdateSpec(t, poll, cfg).after == t.(previous := t.current)
    ensures UpdateSpec(t, poll, cfg).raised.None? ==> UpdateSpec(t, poll, cfg).after.refreshed == Some(true)
  {
  }

  /** An unreachable server is offline, one whose answer cannot be parsed is
      starting, and a reachable one is classified by its version name. */
  lemma UpdateClassifies(t: Tracked, poll: Result<Minecraft.Server>, cfg: StateConfig)
    ensures poll == Err(TimeoutError) || poll == Err(ConnectionRefusedError)
      ==> UpdateSpec(t, poll, cfg).after.current == Some(Offline)
    ensures poll == Err(AttributeError) ==> UpdateSpec(t, poll, cfg).after.current == Some(Starting)
    ensures poll.Ok? ==> UpdateSpec(t, poll, cfg).after.current == Some(Classify(poll.value.version, cfg))
  {
  }

  /** Whenever the outcome is not online, the old roster becomes the pending
      logins (not the logouts), the pending logouts are dropped and the roster
      is emptied. */
  lemma NotOnlineMovesRosterToLogin(t: Tracked, poll: Result<Minecraft.Server>, cfg: StateConfig)
    requires UpdateSpec(t, poll, cfg).raised.None?
    requires UpdateSpec(t, poll, cfg).after.current != Some(Online)
    ensures UpdateSpec(t, poll, cfg).after.login == t.players
    ensures UpdateSpec(t, poll, cfg).after.logout == {}
    ensures UpdateSpec(t, poll, cfg).after.players == {}
  {
  }

  /** When online, the new names join the pending logins, the vanished names
      join the pending logouts, and the roster becomes the sampled names. */
  lemma OnlineAccumulates(t: Tracked, poll: Result<Minecraft.Server>, cfg: StateConfig)
    requires UpdateSpec(t, poll, cfg).raised.None?
    requires UpdateSpec(t, poll, cfg).after.current == Some(Online)
    ensures poll.Ok?
    ensures UpdateSpec(t, poll, cfg).after.players == NameSet(poll.value)
    ensures UpdateSpec(t, poll, cfg).after.login == t.login + (NameSet(poll.value) - t.players)
    ensures UpdateSpec(t, poll, cfg).after.logout == t.logout + (t.players - NameSet(poll.value))
  {
  }

  /** `state_changed` after an update: it clears `refreshed`, drains the
      logouts, drains the logins only when there were no logouts, and answers
      whether anything was pending or the state moved. */
  lemma ChangedReportsNews(t: Tracked)
    requires t.refreshed == Some(true)
    ensures ChangedSpec(t).changed == Ok(t.logout != {} || t.login != {} || t.previous != t.current)
    ensures ChangedSpec(t).after.refreshed == Some(false)
    ensures ChangedSpec(t).after.logout == {}
    ensures ChangedSpec(t).after.login == if t.logout != {} then t.login else {}
    ensures ChangedSpec(t).after.players == t.players
    ensures ChangedSpec(t).after.current == t.current && ChangedSpec(t).after.previous == t.previous
  {
  }

  /** `state_changed` answers true at most once per update: a second call
      answers false and changes nothing. Before the first update it fails. */
  lemma ChangedDebounced(t: Tracked)
    ensures var first := ChangedSpec(t);
      t.refreshed.Some? ==> ChangedSpec(first.after) == Answer(Ok(false), first.after)
    ensures t.refreshed == Some(false) ==> ChangedSpec(t) == Answer(Ok(false), t)
    ensures ChangedSpec(Initial) == Answer(Err(AttributeError), Initial)
  {
  }

  /** The same successful poll twice in a row, the pending sets drained in
      between: the second round has nothing to announce and reports no change. */
  lemma QuietSecondPoll(t: Tracked, poll: Result<Minecraft.Server>, cfg: StateConfig)
    requires UpdateSpec(t, poll, cfg).raised.None?
    ensures var first := UpdateSpec(t, poll, cfg).after;
      var second := UpdateSpec(first.(login := {}, logout := {}), poll, cfg);
      second.raised.None? && second.after.login == {} && second.after.logout == {}
      && ChangedSpec(second.after).changed == Ok(false)
  {
  }

  /** No two elements are equal: what `list(s)` gives for a set. */
  predicate Distinct(xs: seq<string>)
  {
    forall i, j :: 0 <= i < j < |xs| ==> xs[i] != xs[j]
  }

  /** `list(s)`: the elements of the set, each once, in an unspecified order. */
  method ListOf(s: set<string>) returns (xs: seq<string>)
    ensures (set x | x in xs) == s
    ensures Distinct(xs)
  {
    xs := [];
    var rest := s;
    while rest != {}
      invariant rest <= s
      invariant (set x | x in xs) == s - rest
      invariant Distinct(xs)
      decreases rest
    {
      var p :| p in rest;
      assert (set x | x in xs + [p]) == (set x | x in xs) + {p};
      xs := xs + [p];
      rest := rest - {p};
    }
  }

  /** `State`: the configuration, and the fields `update`, the drains and
      `state_changed` reassign. */
  class State {
    const config: StateConfig
    var previousState: Option<ServerState>
    var state: Option<ServerState>
    var players: set<string>
    var playersLogin: set<string>
    var playersLogout: set<string>
    var refreshed: Option<bool>

    function Snapshot(): Tracked
      reads this
    {
      Tracked(previousState, state, players, playersLogin, playersLogout, refreshed)
    }

    constructor(config: StateConfig)
      ensures this.config == config
      ensures Snapshot() == Initial
    {
      this.config := config;
      previousState := None;
      state := None;
      players := {};
      playersLogin := {};
      playersLogout := {};
      refreshed := None;
    }

    /** `update()`, with `minecraft.ping`'s value or exception as `poll`. */
    method Update(poll: Result<Minecraft.Server>) returns (raised: Option<Exc>)
      modifies this
      ensures Snapshot() == UpdateSpec(old(Snapshot()), poll, config).after
      ensures raised == UpdateSpec(old(Snapshot()), poll, config).raised
    {
      previousState := state;
      var outcome: ServerState;
      match poll {
        case Err(e) =>
          if e == TimeoutError || e == ConnectionRefusedError {
            outcome := Offline;
          } else if e == AttributeError {
            outcome := Starting;
          } else {
            return Some(e);
          }
        case Ok(server) =>
          if server.version in config.offline {
            outcome := Offline;
          } else if server.version in config.starting {
            outcome := Starting;
          } else if server.version in config.sleeping {
            outcome := Sleeping;
          } else {
            outcome := Online;
          }
      }
      state := Some(outcome);
      if outcome != Online {
        playersLogout := {};
        playersLogin := players;
        players := {};
      } else {
        var names := Minecraft.SampleNames(poll.value);
        Accumulate(names);
        assert players == NameSet(poll.value);
      }
      refreshed := Some(true);
      raised := None;
    }

    /** The online branch of `update()`: new names join the pending logins,
        vanished names join the pending logouts, and the roster becomes the
        set of the new names. */
    method Accumulate(names: seq<string>)
      modifies this`playersLogin, this`playersLogout, this`players
      ensures playersLogin == old(playersLogin) + ((set n | n in names) - old(players))
      ensures playersLogout == old(playersLogout) + (old(players) - set n | n in names)
      ensures players == set n | n in names
    {
      for k := 0 to |names|
        modifies this`playersLogin
        invariant playersLogin == old(playersLogin) + (set n | n in names[..k] && n !in players)
      {
        assert names[..k + 1] == names[..k] + [names[k]];
        if names[k] !in players {
          playersLogin := playersLogin + {names[k]};
        }
      }
      assert names[..|names|] == names;
      var rest := players;
      assert players - rest == {};
      while rest != {}
        modifies this`playersLogout
        invariant rest <= players
        invariant playersLogout == old(playersLogout) + (set p | p in players - rest && p !in names)
        decreases rest
      {
        var p :| p in rest;
        if p !in names {
          playersLogout := playersLogout + {p};
        }
        rest := rest - {p};
      }
      players := set n | n in names;
    }

    /** `new_players_login()`. */
    method NewPlayersLogin() returns (names: seq<string>)
      modifies this`playersLogin
      ensures (set n | n in names) == old(playersLogin) && Distinct(names)
      ensures playersLogin == {}
    {
      names := ListOf(playersLogin);
      playersLogin := {};
    }

    /** `new_players_logout()`. */
    method NewPlayersLogout() returns (names: seq<string>)
      modifies this`playersLogout
      ensures (set n | n in names) == old(playersLogout) && Distinct(names)
      ensures playersLogout == {}
    {
      names := ListOf(playersLogout);
      playersLogout := {};
    }

    /** `state_changed()`. */
    method StateChanged() returns (r: Result<bool>)
      modifies this`refreshed, this`playersLogin, this`playersLogout
      ensures r == ChangedSpec(old(Snapshot())).changed
      ensures Snapshot() == ChangedSpec(old(Snapshot())).after
    {
      if refreshed.None? {
        return Err(AttributeError);
      }
      if !refreshed.value {
        return Ok(false);
      }
      refreshed := Some(false);
      var logouts := NewPlayersLogout();
      assert |logouts| > 0 ==> logouts[0] in old(playersLogout);
      if |logouts| > 0 {
        return Ok(true);
      }
      var logins := NewPlayersLogin();
      assert |logins| > 0 ==> logins[0] in old(playersLogin);
      r := Ok(|logins| > 0 || previousState != state);
    }
  }

  /** `f'{player} a rejoint la partie'` for each login. */
  function JoinedLines(names: seq<string>): seq<string>
  {
    seq(|names|, k requires 0 <= k < |names| => names[k] + " a rejoint la partie")
  }

  /** `f'{player} a quitté la partie'` for each logout. */
  function LeftLines(names: seq<string>): seq<string>
  {
    seq(|names|, k requires 0 <= k < |names| => names[k] + " a quitt\U{E9} la partie")
  }

  /** The login message of a round, sent only when there is a line. */
  function LoginMessage(logins: seq<string>, logouts: seq<string>): (m: Option<string>)
    ensures m.None? <==> logins == [] && logouts == []
    ensures m.Some? ==> |m.value| >= 11 && m.value[..7] == "```fix\n" && m.value[|m.value| - 4..] == "\n```"
  {
    var lines := JoinedLines(logins) + LeftLines(logouts);
    if |lines| > 0 then Some("```fix\n" + Text.Join(lines, "\n") + "\n```") else None
  }

  /** The message is sent exactly when someone logged in or out; it is the
      code-block header, every login line then every logout line, one per
      line, and the closing fence, so splitting its body at the newlines gives
      the lines back. */
  lemma MessageRecoversLines(logins: seq<string>, logouts: seq<string>)
    requires forall k :: 0 <= k < |logins| ==> '\n' !in logins[k]
    requires forall k :: 0 <= k < |logouts| ==> '\n' !in logouts[k]
    ensures LoginMessage(logins, logouts).None? <==> logins == [] && logouts == []
    ensures LoginMessage(logins, logouts).Some? ==>
      var m := LoginMessage(logins, logouts).value;
      |m| >= 11 && m[..7] == "```fix\n" && m[|m| - 4..] == "\n```"
      && Text.Split(m[7..|m| - 4], '\n') == JoinedLines(logins) + LeftLines(logouts)
  {
    var lines := JoinedLines(logins) + LeftLines(logouts);
    if |lines| > 0 {
      forall k | 0 <= k < |lines|
        ensures '\n' !in lines[k]
      {
        if k < |logins| {
          assert lines[k] == logins[k] + " a rejoint la partie";
        } else {
          assert lines[k] == logouts[k - |logins|] + " a quitt\U{E9} la partie";
        }
      }
      Text.SplitJoin(lines, '\n');
      var body := Text.Join(lines, "\n");
      var m := "```fix\n" + body + "\n```";
      assert m[7..|m| - 4] == body;
    }
  }

  /** The presence a round sets: online shows the number of players, the
      other states only a status. */
  function TrackerPresence(s: Option<ServerState>, count: nat): (p: Option<Presence>)
    ensures p.None? <==> s.None?
    ensures p.Some? ==> StateOfStatus(p.value.status) == s
    ensures p.Some? ==> (p.value.activity.Some? <==> s == Some(Online))
  {
    match s
    case None => None
    case Some(Online) =>
      var game := if count != 1 then "Joue \U{E0} minecraft avec " + Text.NatToString(count) + " joueurs"
                  else "Joue \U{E0} minecraft avec 1 joueur";
      Some(Presence(OnlineStatus, Some(game)))
    case Some(Starting) => Some(Presence(DndStatus, None))
    case Some(Offline) => Some(Presence(OfflineStatus, None))
    case Some(Sleeping) => Some(Presence(IdleStatus, None))
  }

  /** The state a presence status stands for. */
  function StateOfStatus(status: PresenceStatus): Option<ServerState>
  {
    match status
    case OnlineStatus => Some(Online)
    case DndStatus => Some(Starting)
    case OfflineStatus => Some(Offline)
    case IdleStatus => Some(Sleeping)
    case InvisibleStatus => None
  }

  /** Each state has its own presence status, and only online carries an
      activity, which reads "1 joueur" for one player and "N joueurs" else. */
  lemma PresenceNamesState(s: ServerState, count: nat)
    ensures TrackerPresence(Some(s), count).Some?
    ensures StateOfStatus(TrackerPresence(Some(s), count).value.status) == Some(s)
    ensures TrackerPresence(Some(s), count).value.activity.Some? <==> s == Online
    ensures s == Online && count == 1
      ==> TrackerPresence(Some(s), count).value.activity == Some("Joue \U{E0} minecraft avec 1 joueur")
    ensures s == Online && count != 1
      ==> TrackerPresence(Some(s), count).value.activity
          == Some("Joue \U{E0} minecraft avec " + Text.NatToString(count) + " joueurs")
  {
  }

  /** What one round of `Tracker.update` hands to the chat client: the drained
      logins and logouts, the login message and the new presence. */
  datatype Notice = Notice(logins: seq<string>, logouts: seq<string>, message: Option<string>, presence: Option<Presence>)

  /** The pending sets as `state_changed` finds them: drained already when
      there is a login target. */
  function BeforeChanged(u: Tracked, hasLoginTarget: bool): Tracked
  {
    if hasLoginTarget then u.(login := {}, logout := {}) else u
  }

  /** With a login target, the presence changes exactly when the state moved. */
  lemma RoundChangedIffMoved(t: Tracked, poll: Result<Minecraft.Server>, cfg: StateConfig)
    requires UpdateSpec(t, poll, cfg).raised.None?
    ensures var u := UpdateSpec(t, poll, cfg).after;
      ChangedSpec(BeforeChanged(u, true)).changed == Ok(t.current != u.current)
  {
  }

  /** The message loops of `Tracker.update`: one line per login, then one
      per logout, joined into a code block when there is a line. */
  method Render(logins: seq<string>, logouts: seq<string>) returns (message: Option<string>)
    ensures message == LoginMessage(logins, logouts)
  {
    var messages: seq<string> := [];
    for k := 0 to |logins|
      invariant messages == JoinedLines(logins[..k])
    {
      messages := messages + [logins[k] + " a rejoint la partie"];
    }
    assert logins[..|logins|] == logins;
    for k := 0 to |logouts|
      invariant messages == JoinedLines(logins) + LeftLines(logouts[..k])
    {
      messages := messages + [logouts[k] + " a quitt\U{E9} la partie"];
    }
    assert logouts[..|logouts|] == logouts;
    message := None;
    if |messages| > 0 {
      message := Some("```fix\n" + Text.Join(messages, "\n") + "\n```");
    }
  }

  class Tracker {
    const state: State
    const loginTarget: Option<Sender>
    const serverState: Option<Sender>
    const showStateInStatus: bool

    constructor(state: State, loginTarget: Option<Sender>, serverState: Option<Sender>, showStateInStatus: bool)
      ensures this.state == state && this.loginTarget == loginTarget
      ensures this.serverState == serverState && this.showStateInStatus == showStateInStatus
    {
      this.state := state;
      this.loginTarget := loginTarget;
      this.serverState := serverState;
      this.showStateInStatus := showStateInStatus;
    }

    /** `update(client)`: update the state, drain and render the pending
        logins and logouts when there is a login target, then ask
        `state_changed` and render the presence when it is shown. */
    method Update(poll: Result<Minecraft.Server>) returns (r: Result<Notice>)
      modifies state
      ensures var u := UpdateSpec(old(state.Snapshot()), poll, state.config);
        u.raised.Some? ==> r == Err(u.raised.value) && state.Snapshot() == u.after
      ensures var u := UpdateSpec(old(state.Snapshot()), poll, state.config);
        var answer := ChangedSpec(BeforeChanged(u.after, loginTarget.Some?));
        u.raised.None? ==>
          r.Ok? && state.Snapshot() == answer.after
          && (set n | n in r.value.logins) == (if loginTarget.Some? then u.after.login else {})
          && (set n | n in r.value.logouts) == (if loginTarget.Some? then u.after.logout else {})
          && Distinct(r.value.logins) && Distinct(r.value.logouts)
          && r.value.message == LoginMessage(r.value.logins, r.value.logouts)
          && r.value.presence
             == if showStateInStatus && answer.changed == Ok(true)
                then TrackerPresence(u.after.current, |u.after.players|) else None
    {
      ghost var t0 := state.Snapshot();
      var raised := state.Update(poll);
      if raised.Some? {
        return Err(raised.value);
      }
      ghost var u := UpdateSpec(t0, poll, state.config).after;
      UpdateSavesPrevious(t0, poll, state.config);
      var logins: seq<string> := [];
      var logouts: seq<string> := [];
      var message: Option<string> := None;
      if loginTarget.Some? {
        logins := state.NewPlayersLogin();
        logouts := state.NewPlayersLogout();
        message := Render(logins, logouts);
      }
      ghost var before := state.Snapshot();
      assert before == BeforeChanged(u, loginTarget.Some?);
      ChangedReportsNews(before);
      var changed := state.StateChanged();
      var presence: Option<Presence> := None;
      if showStateInStatus && changed == Ok(true) {
        presence := TrackerPresence(state.state, |state.players|);
      }
      r := Ok(Notice(logins, logouts, message, presence));
    }
  }
}
