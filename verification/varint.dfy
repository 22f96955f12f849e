/** The protocol's variable-length integers (VarInt): seven bits per byte,
    least significant group first, the 0x80 bit of a byte set when another
    byte follows. `Decode` is what the ping client's `read_var_int` does with
    the bytes that are still to arrive on the connection. */
module VarInt {
  import opened Base

  /** 2^(7·j): the weight of the j-th seven-bit group. */
  function Pow128(j: nat): (p: nat)
    ensures p >= 1
  {
    if j == 0 then 1 else 0x80 * Pow128(j - 1)
  }

  /** True when the byte's 0x80 continuation bit is set. */
  predicate Continues(b: byte)
  {
    b >= 0x80
  }

  /** Σ (g_i & 0x7F) << 7·i: the number a run of groups denotes. */
  function Value(groups: seq<byte>): nat
  {
    if groups == [] then 0 else groups[0] % 0x80 + 0x80 * Value(groups[1..])
  }

  /** The shortest VarInt encoding of n, as the protocol specifies it. The ping
      client never encodes a VarInt; this is the reference the decoder is
      checked against. */
  function Encode(n: nat): (groups: seq<byte>)
    ensures |groups| >= 1
    ensures Value(groups) == n
    ensures !Continues(groups[|groups| - 1])
    ensures forall k :: 0 <= k < |groups| - 1 ==> Continues(groups[k])
  {
    if n < 0x80 then [n] else [n % 0x80 + 0x80] + Encode(n / 0x80)
  }

  /** The outcome of one `read_var_int` call and the number of bytes it consumed. */
  datatype Read = Read(result: Result<int>, used: nat)

  /** The loop of `read_var_int` from the byte at index j of the stream on,
      with i accumulated so far. `i |= (k & 0x7f) << (j * 7)` is written as an
      addition: the groups occupy disjoint bit ranges and i < 2^(7·j). */
  function ReadFrom(s: seq<byte>, j: nat, i: int): (r: Read)
    requires j <= 5 && j <= |s| && i >= 0
    ensures j <= r.used <= |s| && r.used <= 6
    ensures r.result.Ok? ==> r.result.value >= 0
    decreases |s| - j
  {
    if j == |s| then Read(Ok(0), j)
    else
      var k := s[j];
      var i' := i + k % 0x80 * Pow128(j);
      if j + 1 > 5 then Read(Err(ValueError("var_int too big")), j + 1)
      else if !Continues(k) then Read(Ok(i'), j + 1)
      else ReadFrom(s, j + 1, i')
  }

  /** `read_var_int()` on a connection whose remaining bytes are s. */
  function Decode(s: seq<byte>): (r: Read)
    ensures r.used <= |s|
    ensures r.result.Ok? ==> r.result.value >= 0
  {
    ReadFrom(s, 0, 0)
  }

  lemma {:induction false} ValueSnoc(groups: seq<byte>, b: byte)
    ensures Value(groups + [b]) == Value(groups) + b % 0x80 * Pow128(|groups|)
  {
    if groups == [] {
      assert [b][1..] == [];
    } else {
      var tail := groups[1..];
      assert (groups + [b])[1..] == tail + [b];
      ValueSnoc(tail, b);
      var v, x, p := Value(tail), b % 0x80, Pow128(|tail|);
      assert Value(groups + [b]) == groups[0] % 0x80 + 0x80 * (v + x * p);
      ShiftGroup(v, x, p);
      assert Pow128(|groups|) == 0x80 * p;
    }
  }

  /** Shifting a value by one group shifts the weight of each of its groups. */
  lemma ShiftGroup(v: int, x: int, p: int)
    ensures 0x80 * (v + x * p) == 0x80 * v + x * (0x80 * p)
  {
    assert x * (0x80 * p) == 0x80 * (x * p);
  }

  lemma {:induction false} ReadFromStops(s: seq<byte>, j: nat, n: nat)
    requires j < n <= 5 && n <= |s|
    requires forall k :: j <= k < n - 1 ==> Continues(s[k])
    requires !Continues(s[n - 1])
    ensures ReadFrom(s, j, Value(s[..j])) == Read(Ok(Value(s[..n])), n)
    decreases n - j
  {
    ValueSnoc(s[..j], s[j]);
    assert s[..j] + [s[j]] == s[..j + 1];
    if j + 1 < n {
      ReadFromStops(s, j + 1, n);
    }
  }

  /** A VarInt whose n-th byte is the first without the continuation bit, with
      n at most 5, decodes to the value of its first n bytes and consumes them. */
  lemma DecodeStops(s: seq<byte>, n: nat)
    requires 1 <= n <= 5 && n <= |s|
    requires forall k :: 0 <= k < n - 1 ==> Continues(s[k])
    requires !Continues(s[n - 1])
    ensures Decode(s) == Read(Ok(Value(s[..n])), n)
  {
    assert s[..0] == [];
    ReadFromStops(s, 0, n);
  }

  lemma {:induction false} ReadFromEnds(s: seq<byte>, j: nat, i: int)
    requires j <= |s| <= 5 && i >= 0
    requires forall k :: j <= k < |s| ==> Continues(s[k])
    ensures ReadFrom(s, j, i) == Read(Ok(0), |s|)
    decreases |s| - j
  {
    if j < |s| {
      ReadFromEnds(s, j + 1, i + s[j] % 0x80 * Pow128(j));
    }
  }

  /** When the connection closes in the middle of a VarInt (all bytes received
      so far carry the continuation bit), the result is 0: the partially
      accumulated value is discarded. */
  lemma DecodeEndOfStream(s: seq<byte>)
    requires |s| <= 5
    requires forall k :: 0 <= k < |s| ==> Continues(s[k])
    ensures Decode(s) == Read(Ok(0), |s|)
  {
    ReadFromEnds(s, 0, 0);
  }

  lemma {:induction false} ReadFromTooBig(s: seq<byte>, j: nat, i: int)
    requires j <= 5 < |s| && i >= 0
    requires forall k :: j <= k < 5 ==> Continues(s[k])
    ensures ReadFrom(s, j, i) == Read(Err(ValueError("var_int too big")), 6)
    decreases 5 - j
  {
    if j < 5 {
      ReadFromTooBig(s, j + 1, i + s[j] % 0x80 * Pow128(j));
    }
  }

  /** Five continuation bytes followed by any sixth byte raise 'var_int too
      big': the length check runs before the sixth byte's continuation bit is
      looked at. */
  lemma DecodeTooBig(s: seq<byte>)
    requires |s| >= 6
    requires forall k :: 0 <= k < 5 ==> Continues(s[k])
    ensures Decode(s) == Read(Err(ValueError("var_int too big")), 6)
  {
    ReadFromTooBig(s, 0, 0);
  }

  lemma {:induction false} ReadFromBound(s: seq<byte>, j: nat, i: int)
    requires j <= 5 && j <= |s| && 0 <= i < Pow128(j)
    ensures var r := ReadFrom(s, j, i); r.result.Ok? ==> r.result.value < Pow128(r.used) && r.used <= 5
    decreases |s| - j
  {
    if j < |s| && j + 1 <= 5 {
      var p, g := Pow128(j), s[j] % 0x80;
      var i' := i + g * p;
      assert ReadFrom(s, j, i) == if Continues(s[j]) then ReadFrom(s, j + 1, i') else Read(Ok(i'), j + 1);
      GroupFits(i, g, p);
      assert i' < Pow128(j + 1);
      if Continues(s[j]) {
        ReadFromBound(s, j + 1, i');
      }
    }
  }

  /** A seven-bit group added above a value below p stays below 128·p. */
  lemma GroupFits(i: int, g: int, p: int)
    requires 0 <= i < p && 0 <= g < 0x80
    ensures i + g * p < 0x80 * p
  {
    assert (0x80 - 1 - g) * p >= 0;
  }

  lemma {:induction false} Pow128Monotone(a: nat, b: nat)
    requires a <= b
    ensures Pow128(a) <= Pow128(b)
    decreases b - a
  {
    if a < b {
      Pow128Monotone(a + 1, b);
    }
  }

  /** A successful read consumes at most five bytes, so its value lies in
      [0, 2^35). */
  lemma DecodeBound(s: seq<byte>)
    ensures Decode(s).result.Ok? ==> 0 <= Decode(s).result.value < 0x8_0000_0000
    ensures Decode(s).result.Ok? ==> Decode(s).used <= 5
  {
    ReadFromBound(s, 0, 0);
    if Decode(s).result.Ok? {
      Pow128Monotone(Decode(s).used, 5);
    }
    assert Pow128(5) == 0x8_0000_0000;
  }

  lemma {:induction false} EncodeLength(n: nat, m: nat)
    requires 1 <= m && n < Pow128(m)
    ensures |Encode(n)| <= m
  {
    if n >= 0x80 {
      assert Pow128(1) == 0x80;
      assert n / 0x80 < Pow128(m - 1);
      EncodeLength(n / 0x80, m - 1);
    }
  }

  /** Round trip: decoding the encoding of any n < 2^35, whatever follows it
      on the connection, gives n back and consumes exactly the encoding. */
  lemma DecodeEncode(n: nat, rest: seq<byte>)
    requires n < 0x8_0000_0000
    ensures Decode(Encode(n) + rest) == Read(Ok(n), |Encode(n)|)
  {
    var g := Encode(n);
    assert Pow128(5) == 0x8_0000_0000;
    EncodeLength(n, 5);
    var s := g + rest;
    assert s[..|g|] == g;
    DecodeStops(s, |g|);
  }
}
