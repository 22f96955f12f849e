/** The Server List Ping client (minecraft.py): the handshake and status
    request frame, the reading of the length-prefixed status response, and the
    extraction of the status record (`Server`, `Players`, `Player`) from the
    JSON document the response carries. */
module Minecraft {
  import opened Base
  import VarInt
  import Wire

  datatype Player = Player(id: Json, name: string)

  /** `Players` is a list of the sampled players with two extra attributes. */
  datatype Players = Players(sample: seq<Player>, max: Json, online: Json)

  /** The status record; `icon` is the favicon's base64 text with its data-URI
      prefix removed (the base64 decoding itself is not modelled). */
  datatype Server = Server(description: Json, icon: string, players: Players, version: string, protocol: Json)

  /** `[player.name for player in server.players]`. */
  function SampleNames(server: Server): seq<string>
  {
    seq(|server.players.sample|, k requires 0 <= k < |server.players.sample| => server.players.sample[k].name)
  }

  /** The 22-character prefix of the favicon's data URI. */
  const FaviconPrefix := "data:image/png;base64,"

  /** A version name or player name; this model keeps only string names. */
  function AsText(j: Json): Result<string>
  {
    if j.JStr? then Ok(j.s) else Err(TypeError)
  }

  /** `Player(data)`: the `id` and `name` entries are required. */
  function PlayerFromJson(x: Json): (r: Result<Player>)
    ensures r.Ok? <==> x.JObject? && "id" in x.fields && "name" in x.fields && x.fields["name"].JStr?
    ensures r.Ok? ==> r.value == Player(x.fields["id"], x.fields["name"].s)
  {
    var id :- Index(x, "id");
    var name :- Index(x, "name");
    var text :- AsText(name);
    Ok(Player(id, text))
  }

  /** `[Player(x) for x in items]`, stopping at the first entry that raises. */
  function SampleFromJson(items: seq<Json>): (r: Result<seq<Player>>)
    ensures r.Ok? <==> forall k :: 0 <= k < |items| ==> PlayerFromJson(items[k]).Ok?
    ensures r.Ok? ==> |r.value| == |items|
    ensures r.Ok? ==> forall k :: 0 <= k < |items| ==> PlayerFromJson(items[k]) == Ok(r.value[k])
  {
    if items == [] then Ok([])
    else
      var p :- PlayerFromJson(items[0]);
      var ps :- SampleFromJson(items[1..]);
      Ok([p] + ps)
  }

  /** The elements `for x in j` visits, when each of them is about to be
      subscripted with a string: iterating a non-empty string or dict yields
      strings, which refuse that subscript, and the other scalars cannot be
      iterated at all. */
  function Elements(j: Json): Result<seq<Json>>
  {
    match j
    case JArray(xs) => Ok(xs)
    case JStr(s) => if s == "" then Ok([]) else Err(TypeError)
    case JObject(m) => if m == map[] then Ok([]) else Err(TypeError)
    case _ => Err(TypeError)
  }

  /** `Players(data)`: the sample (absent means empty), then `max` and `online`. */
  function PlayersFromJson(data: Json): (r: Result<Players>)
    ensures r.Ok? ==> data.JObject? && "max" in data.fields && "online" in data.fields
    ensures r.Ok? ==> r.value.max == data.fields["max"] && r.value.online == data.fields["online"]
  {
    var sample :- Get(data, "sample", JArray([]));
    var items :- Elements(sample);
    var players :- SampleFromJson(items);
    var max :- Index(data, "max");
    var online :- Index(data, "online");
    Ok(Players(players, max, online))
  }

  /** `data.get('favicon', '')[22:]`, kept as text: slicing works on any string,
      and anything else fails (a list slice cannot be base64-decoded, the other
      values cannot be sliced). */
  function IconFromFavicon(favicon: Json): Result<string>
  {
    match favicon
    case JStr(s) => Ok(if |s| <= |FaviconPrefix| then "" else s[|FaviconPrefix|..])
    case _ => Err(TypeError)
  }

  /** `Server(data)`, evaluated in the source's order: description, icon,
      players, version name, protocol. */
  function ServerFromJson(data: Json): (r: Result<Server>)
    ensures r.Ok? ==> data.JObject? && "players" in data.fields && "version" in data.fields
    ensures r.Ok? ==> PlayersFromJson(data.fields["players"]) == Ok(r.value.players)
    ensures r.Ok? ==> var v := data.fields["version"];
      v.JObject? && "name" in v.fields && "protocol" in v.fields
      && v.fields["name"] == JStr(r.value.version) && v.fields["protocol"] == r.value.protocol
  {
    var d :- Get(data, "description", JNull);
    var description :- if d.JObject? then Index(d, "text") else Ok(d);
    var favicon :- Get(data, "favicon", JStr(""));
    var icon :- IconFromFavicon(favicon);
    var players :- Index(data, "players");
    var roster :- PlayersFromJson(players);
    var version :- Index(data, "version");
    var name :- Index(version, "name");
    var text :- AsText(name);
    var protocol :- Index(version, "protocol");
    Ok(Server(description, icon, roster, text, protocol))
  }

  /** A dict description is replaced by its `text` entry (a dict without one
      fails with KeyError); any other description, or `None` when absent, is
      kept as it is. */
  lemma DescriptionText(data: Json)
    requires data.JObject?
    ensures var d := if "description" in data.fields then data.fields["description"] else JNull;
      && (d.JObject? && "text" !in d.fields ==> ServerFromJson(data) == Err(KeyError("text")))
      && (ServerFromJson(data).Ok? ==> ServerFromJson(data).value.description == if d.JObject? then d.fields["text"] else d)
  {
  }

  /** Without a `sample` entry the roster is empty; `max` and `online` are still required. */
  lemma SampleDefaultsEmpty(data: Json)
    requires data.JObject? && "sample" !in data.fields
    ensures PlayersFromJson(data).Ok? <==> "max" in data.fields && "online" in data.fields
    ensures PlayersFromJson(data).Ok? ==> PlayersFromJson(data).value.sample == []
  {
  }

  function PlayerToJson(p: Player): Json
  {
    JObject(map["id" := p.id, "name" := JStr(p.name)])
  }

  function SampleToJson(ps: seq<Player>): seq<Json>
  {
    seq(|ps|, k requires 0 <= k < |ps| => PlayerToJson(ps[k]))
  }

  lemma {:induction false} SampleRoundTrip(ps: seq<Player>)
    ensures SampleFromJson(SampleToJson(ps)) == Ok(ps)
  {
    if ps != [] {
      var items := SampleToJson(ps);
      assert PlayerFromJson(items[0]) == Ok(ps[0]);
      assert items[1..] == SampleToJson(ps[1..]);
      SampleRoundTrip(ps[1..]);
      assert [ps[0]] + ps[1..] == ps;
    }
  }

  /** The status document a server sends for a given status record. */
  function ServerToJson(srv: Server): Json
  {
    JObject(map[
      "description" := JObject(map["text" := srv.description]),
      "favicon" := JStr(FaviconPrefix + srv.icon),
      "players" := JObject(map[
        "sample" := JArray(SampleToJson(srv.players.sample)),
        "max" := srv.players.max,
        "online" := srv.players.online]),
      "version" := JObject(map["name" := JStr(srv.version), "protocol" := srv.protocol])])
  }

  /** Every status record is recovered from the document that describes it. */
  lemma ServerJsonRoundTrip(srv: Server)
    ensures ServerFromJson(ServerToJson(srv)) == Ok(srv)
  {
    var favicon := FaviconPrefix + srv.icon;
    assert favicon[|FaviconPrefix|..] == srv.icon;
    SampleRoundTrip(srv.players.sample);
  }

  /** `struct.pack('>b', n)`: one signed byte. */
  function PackSignedByte(n: int): Result<seq<byte>>
  {
    if -0x80 <= n < 0x80 then Ok([n % 0x100]) else Err(StructError)
  }

  /** The bytes sent: the handshake (packet 0x00, protocol variant 4, host
      length and host, big-endian port, next state 1) behind its length, then
      the status request 0x01 0x00. Both lengths are packed as signed bytes. */
  function HandshakeFrame(host: seq<byte>, port: nat): (r: Result<seq<byte>>)
    requires port < 0x1_0000
    ensures r.Ok? <==> |host| + 6 < 0x80
    ensures r.Ok? ==> |r.value| == |host| + 9
    ensures r.Ok? ==> r.value[0] == |r.value| - 3
    ensures r.Ok? ==> r.value[1..4] == [0x00, 0x04, |host|] && r.value[4..4 + |host|] == host
    ensures r.Ok? ==> r.value[4 + |host|] as int * 0x100 + r.value[5 + |host|] as int == port
    ensures r.Ok? ==> r.value[6 + |host|..] == [0x01, 0x01, 0x00]
  {
    if |host| + 6 >= 0x80 then Err(StructError)
    else
      var body: seq<byte> := [0x00, 0x04, |host|] + host + [port / 0x100, port % 0x100, 0x01];
      Ok([|body|] + body + [0x01, 0x00])
  }

  /** The two length bytes of an accepted frame are also the VarInt encodings
      of those lengths, as the protocol requires. */
  lemma HandshakeVarIntFraming(host: seq<byte>, port: nat)
    requires port < 0x1_0000 && HandshakeFrame(host, port).Ok?
    ensures VarInt.Decode(HandshakeFrame(host, port).value) == VarInt.Read(Ok(|host| + 6), 1)
    ensures VarInt.Decode(HandshakeFrame(host, port).value[3..]) == VarInt.Read(Ok(|host|), 1)
  {
    var frame := HandshakeFrame(host, port).value;
    assert frame[..1] == [frame[0]];
    VarInt.DecodeStops(frame, 1);
    assert frame[3..][..1] == [frame[3]];
    VarInt.DecodeStops(frame[3..], 1);
  }

  /** The payload of the status response read from the bytes the server sends:
      the packet length (below 10 fails, through the socket's non-existent
      `read`), one packet-id byte discarded unseen, then the string. */
  function ReadResponse(s: seq<byte>): Result<seq<byte>>
  {
    var total := VarInt.Decode(s);
    if total.result.Err? then Err(total.result.exc)
    else if total.result.value < 10 then Err(AttributeError)
    else
      var afterLength := s[total.used..];
      ReadString(if afterLength == [] then [] else afterLength[1..])
  }

  /** The string behind the packet id: its VarInt length, then exactly that
      many bytes. */
  function ReadString(s: seq<byte>): Result<seq<byte>>
  {
    var size := VarInt.Decode(s);
    if size.result.Err? then Err(size.result.exc)
    else
      var body := s[size.used..];
      if |body| < size.result.value then Err(ValueError("connection abborted"))
      else Ok(body[..size.result.value])
  }

  /** A payload is only ever read after a packet length of at least 10, and it
      holds exactly the number of bytes the string length announced. */
  lemma ResponseLengthChecked(s: seq<byte>)
    ensures ReadResponse(s).Ok? ==> VarInt.Decode(s).result.Ok? && VarInt.Decode(s).result.value >= 10
    ensures VarInt.Decode(s).result.Ok? && VarInt.Decode(s).result.value < 10 ==> ReadResponse(s) == Err(AttributeError)
  {
  }

  /** A VarInt-prefixed string yields exactly its bytes, whatever follows. */
  lemma StringRoundTrip(payload: seq<byte>, rest: seq<byte>)
    requires |payload| < 0x8_0000_0000
    ensures ReadString(VarInt.Encode(|payload|) + payload + rest) == Ok(payload)
  {
    var e := VarInt.Encode(|payload|);
    var body := payload + rest;
    var s := e + body;
    assert e + payload + rest == s;
    VarInt.DecodeEncode(|payload|, body);
    var size := VarInt.Decode(s);
    assert size.result == Ok(|payload|) && size.used == |e|;
    assert s[size.used..] == body;
    assert body[..|payload|] == payload;
  }

  /** Round trip: a well-formed status response (length >= 10, any packet id,
      the payload behind its VarInt length) yields exactly its payload,
      whatever the server sends after it. */
  lemma ResponseRoundTrip(length: nat, id: byte, payload: seq<byte>, rest: seq<byte>)
    requires 10 <= length < 0x8_0000_0000 && |payload| < 0x8_0000_0000
    ensures ReadResponse(VarInt.Encode(length) + [id] + VarInt.Encode(|payload|) + payload + rest) == Ok(payload)
  {
    var g := VarInt.Encode(length);
    var afterId := VarInt.Encode(|payload|) + payload + rest;
    var tail := [id] + afterId;
    assert g + [id] + VarInt.Encode(|payload|) + payload + rest == g + tail;
    VarInt.DecodeEncode(length, tail);
    assert (g + tail)[|g|..] == tail && tail[1..] == afterId;
    StringRoundTrip(payload, rest);
  }

  /** What `ping` returns or raises, given the bytes the server sends back and
      the JSON decoder (`None` when `json.loads` would raise). */
  function Exchange(host: seq<byte>, port: nat, received: seq<byte>, parse: seq<byte> -> Option<Json>): Result<Server>
    requires port < 0x1_0000
  {
    var frame :- HandshakeFrame(host, port);
    var payload :- ReadResponse(received);
    match parse(payload)
    case None => Err(ValueError("invalid JSON"))
    case Some(data) => ServerFromJson(data)
  }

  /** `read_var_int()`: one byte at a time until a byte without the
      continuation bit, the sixth byte, or the end of the stream. */
  method ReadVarInt(sock: Wire.Socket) returns (r: Result<int>)
    requires sock.Valid()
    modifies sock`incoming
    ensures sock.Valid()
    ensures r == VarInt.Decode(old(sock.Pending())).result
    ensures sock.Pending() == old(sock.Pending())[VarInt.Decode(old(sock.Pending())).used..]
  {
    ghost var s0 := sock.Pending();
    var i := 0;
    var j := 0;
    while true
      invariant sock.Valid()
      invariant j <= 5 && j <= |s0| && i >= 0
      invariant sock.Pending() == s0[j..]
      invariant VarInt.ReadFrom(s0, j, i) == VarInt.Decode(s0)
      decreases |sock.Pending()|
    {
      var k := sock.Recv(1);
      if k == [] {
        return Ok(0);
      }
      var b := k[0];
      i := i + b % 0x80 * VarInt.Pow128(j);
      j := j + 1;
      if j > 5 {
        return Err(ValueError("var_int too big"));
      }
      if b < 0x80 {
        return Ok(i);
      }
    }
  }

  /** The payload loop: receive what is still missing until exactly `length`
      bytes are held; an empty receive before that raises. */
  method ReadExactly(sock: Wire.Socket, length: nat) returns (r: Result<seq<byte>>)
    requires sock.Valid()
    modifies sock`incoming
    ensures sock.Valid()
    ensures length <= |old(sock.Pending())| ==>
      r == Ok(old(sock.Pending())[..length]) && sock.Pending() == old(sock.Pending())[length..]
    ensures length > |old(sock.Pending())| ==> r == Err(ValueError("connection abborted"))
  {
    ghost var s0 := sock.Pending();
    var data: seq<byte> := [];
    while |data| != length
      invariant sock.Valid()
      invariant |data| <= length && |data| <= |s0|
      invariant data == s0[..|data|] && sock.Pending() == s0[|data|..]
      decreases length - |data|
    {
      var chunk := sock.Recv(length - |data|);
      if chunk == [] {
        return Err(ValueError("connection abborted"));
      }
      data := data + chunk;
    }
    r := Ok(data);
  }

  /** The successive `data +=` steps that build the handshake, then its
      length prefix and the status request behind it. */
  method BuildFrame(host: seq<byte>, port: nat) returns (r: Result<seq<byte>>)
    requires port < 0x1_0000
    ensures r == HandshakeFrame(host, port)
  {
    var hostLength := PackSignedByte(|host|);
    if hostLength.Err? {
      return Err(StructError);
    }
    var data: seq<byte> := [];
    data := data + [0x00];  // packet ID
    data := data + [0x04];  // protocol variant
    data := data + hostLength.value + host;
    data := data + [port / 0x100, port % 0x100];
    data := data + [0x01];  // next state
    assert data == [0x00, 0x04, |host|] + host + [port / 0x100, port % 0x100, 0x01];
    var packetLength := PackSignedByte(|data|);
    if packetLength.Err? {
      return Err(StructError);
    }
    data := packetLength.value + data;
    r := Ok(data + [0x01, 0x00]);  // handshake + status request
  }

  /** Everything `ping` reads: the packet length and its check, the packet
      id, the string length and the payload. */
  method Receive(sock: Wire.Socket) returns (r: Result<seq<byte>>)
    requires sock.Valid()
    modifies sock`incoming
    ensures sock.Valid()
    ensures r == ReadResponse(old(sock.Pending()))
  {
    ghost var s0 := sock.Pending();
    var length := ReadVarInt(sock);  // full packet length
    if length.Err? {
      return Err(length.exc);
    }
    if length.value < 10 {
      // the decoder never yields a negative length, so only the branch that
      // calls the socket's non-existent `read` method remains
      return Err(AttributeError);
    }
    ghost var afterLength := sock.Pending();
    var packetId := sock.Recv(1);  // packet type, 0 for pings
    assert sock.Pending() == if afterLength == [] then [] else afterLength[1..];
    var size := ReadVarInt(sock);  // string length
    if size.Err? {
      return Err(size.exc);
    }
    r := ReadExactly(sock, size.value);
  }

  /** `ping(ip, port)` once connected: send the frame, read the response and
      decode the status record. Connecting and closing are not modelled. */
  method Ping(sock: Wire.Socket, host: seq<byte>, port: nat, parse: seq<byte> -> Option<Json>) returns (r: Result<Server>)
    requires sock.Valid() && port < 0x1_0000
    modifies sock
    ensures sock.Valid()
    ensures r == Exchange(host, port, old(sock.Pending()), parse)
    ensures HandshakeFrame(host, port).Ok? ==> sock.sent == old(sock.sent) + HandshakeFrame(host, port).value
    ensures HandshakeFrame(host, port).Err? ==> sock.sent == old(sock.sent)
  {
    var frame := BuildFrame(host, port);
    if frame.Err? {
      return Err(frame.exc);
    }
    sock.SendAll(frame.value);
    var payload := Receive(sock);
    if payload.Err? {
      return Err(payload.exc);
    }
    match parse(payload.value) {
      case None => r := Err(ValueError("invalid JSON"));
      case Some(json) => r := ServerFromJson(json);
    }
  }
}
