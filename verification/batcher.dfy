/** The roster diff and the login/logout message batcher of the two older
    bots: minecraftpinger.py and main.py carry the same `update_players`
    loops and the same 2000-character batching, modelled once here. */
module Batcher {

  /** The elements of xs that are absent from ys, in xs's order, duplicates
      kept: `[x for x in xs if not x in ys]`. */
  function Without(xs: seq<string>, ys: seq<string>): (r: seq<string>)
    ensures forall x :: x in r <==> x in xs && x !in ys
  {
    if xs == [] then []
    else
      var init, last := xs[..|xs| - 1], xs[|xs| - 1];
      assert xs == init + [last];
      Without(init, ys) + (if last in ys then [] else [last])
  }

  /** Each name absent from ys keeps its number of occurrences; the others
      vanish. */
  lemma {:induction false} WithoutCounts(xs: seq<string>, ys: seq<string>)
    ensures forall x :: multiset(Without(xs, ys))[x] == if x in ys then 0 else multiset(xs)[x]
  {
    if xs != [] {
      var init, last := xs[..|xs| - 1], xs[|xs| - 1];
      assert xs == init + [last];
      WithoutCounts(init, ys);
    }
  }

  /** A list without its own elements is empty. */
  lemma WithoutSelf(xs: seq<string>)
    ensures Without(xs, xs) == []
  {
    var r := Without(xs, xs);
    WithoutCounts(xs, xs);
    assert multiset(r) == multiset{};
  }

  /** The names keep their relative order. */
  lemma {:induction false} WithoutOrder(xs: seq<string>, ys: seq<string>)
    ensures IsSubsequence(Without(xs, ys), xs)
  {
    if xs != [] {
      var init, last := xs[..|xs| - 1], xs[|xs| - 1];
      var r := Without(xs, ys);
      WithoutOrder(init, ys);
      if last !in ys {
        assert r[..|r| - 1] == Without(init, ys);
      } else {
        assert r == Without(init, ys);
        assert r != [] ==> r[|r| - 1] in r && r[|r| - 1] != last;
      }
    }
  }

  /** r can be obtained from xs by deleting elements: the order is kept. */
  predicate IsSubsequence(r: seq<string>, xs: seq<string>)
  {
    if r == [] then true
    else if xs == [] then false
    else if r[|r| - 1] == xs[|xs| - 1] then IsSubsequence(r[..|r| - 1], xs[..|xs| - 1])
    else IsSubsequence(r, xs[..|xs| - 1])
  }

  /** The two loops of `update_players`: new names absent from the old list
      log in, old names absent from the new list log out. */
  method Diff(newNames: seq<string>, oldNames: seq<string>) returns (logins: seq<string>, logouts: seq<string>)
    ensures logins == Without(newNames, oldNames)
    ensures logouts == Without(oldNames, newNames)
  {
    logins := [];
    for i := 0 to |newNames|
      invariant logins == Without(newNames[..i], oldNames)
    {
      assert newNames[..i + 1][..i] == newNames[..i];
      if !(newNames[i] in oldNames) {
        logins := logins + [newNames[i]];
      }
    }
    assert newNames[..|newNames|] == newNames;
    logouts := [];
    for i := 0 to |oldNames|
      invariant logouts == Without(oldNames[..i], newNames)
    {
      assert oldNames[..i + 1][..i] == oldNames[..i];
      if !(oldNames[i] in newNames) {
        logouts := logouts + [oldNames[i]];
      }
    }
    assert oldNames[..|oldNames|] == oldNames;
  }

  /** `[f"{player} a rejoint la partie\n" for player in logins]` extended with
      the `a quitté la partie` lines of the logouts: one line per name. */
  function Lines(logins: seq<string>, logouts: seq<string>): (lines: seq<string>)
    ensures |lines| == |logins| + |logouts|
  {
    seq(|logins|, k requires 0 <= k < |logins| => logins[k] + " a rejoint la partie\n")
    + seq(|logouts|, k requires 0 <= k < |logouts| => logouts[k] + " a quitt\U{E9} la partie\n")
  }

  /** The logins come first; each line starts with its name and ends with a
      newline, so none is empty. */
  lemma LinesShape(logins: seq<string>, logouts: seq<string>)
    ensures var lines := Lines(logins, logouts);
      forall k :: 0 <= k < |lines| ==> |lines[k]| > 0 && lines[k][|lines[k]| - 1] == '\n'
    ensures var lines := Lines(logins, logouts);
      forall k :: 0 <= k < |logins| ==> |logins[k]| < |lines[k]| && lines[k][..|logins[k]|] == logins[k]
    ensures var lines := Lines(logins, logouts);
      forall k :: 0 <= k < |logouts| ==>
        |logouts[k]| < |lines[|logins| + k]| && lines[|logins| + k][..|logouts[k]|] == logouts[k]
  {
  }

  const Header := "```fix\n"
  const Footer := "```"
  const MaxLength := 2000

  function Concat(lines: seq<string>): string
  {
    if lines == [] then "" else lines[0] + Concat(lines[1..])
  }

  /** The chunks sent for the remaining lines while `message` is being filled:
      a line is appended only when the chunk still fits with its footer;
      otherwise the chunk is sent, a fresh one is started, and the line that
      did not fit is not carried over. At the end a chunk holding anything
      beyond the header is sent. */
  function PackFrom(lines: seq<string>, message: string): seq<string>
  {
    if lines == [] then (if message != Header then [message + Footer] else [])
    else if |message| + |lines[0]| + |Footer| <= MaxLength then PackFrom(lines[1..], message + lines[0])
    else [message + Footer] + PackFrom(lines[1..], Header)
  }

  /** The chunks `update_players` sends, in order. */
  function Pack(lines: seq<string>): seq<string>
  {
    PackFrom(lines, Header)
  }

  /** The loop of `update_players` that grows `message` and sends chunks. */
  method PackLines(lines: seq<string>) returns (chunks: seq<string>)
    ensures chunks == Pack(lines)
  {
    var message := Header;
    chunks := [];
    for i := 0 to |lines|
      invariant chunks + PackFrom(lines[i..], message) == Pack(lines)
    {
      assert lines[i..][0] == lines[i] && lines[i..][1..] == lines[i + 1..];
      if |message| + |lines[i]| + 3 <= 2000 {
        message := message + lines[i];
      } else {
        chunks := chunks + [message + Footer];
        message := Header;
      }
    }
    assert lines[|lines|..] == [];
    if message != Header {
      chunks := chunks + [message + Footer];
    }
  }

  /** A chunk as sent: the "```fix\n" header, the lines, the "```" footer, at
      most 2000 characters in all. */
  predicate WellFormedChunk(c: string)
  {
    |Header| + |Footer| <= |c| <= MaxLength && c[..|Header|] == Header && c[|c| - |Footer|..] == Footer
  }

  lemma {:induction false} PackFromBounded(lines: seq<string>, message: string)
    requires |Header| <= |message| && |message| + |Footer| <= MaxLength && message[..|Header|] == Header
    ensures forall c :: c in PackFrom(lines, message) ==> WellFormedChunk(c)
    decreases |lines|
  {
    if lines != [] {
      if |message| + |lines[0]| + |Footer| <= MaxLength {
        assert (message + lines[0])[..|Header|] == Header;
        PackFromBounded(lines[1..], message + lines[0]);
      } else {
        assert (message + Footer)[..|Header|] == Header;
        PackFromBounded(lines[1..], Header);
      }
    }
  }

  /** Every chunk sent starts with the header, ends with the footer and is at
      most 2000 characters long. */
  lemma PackBounded(lines: seq<string>)
    ensures forall c :: c in Pack(lines) ==> WellFormedChunk(c)
  {
    PackFromBounded(lines, Header);
  }

  lemma {:induction false} PackFromFits(lines: seq<string>, message: string)
    requires |message| + |Concat(lines)| + |Footer| <= MaxLength
    ensures PackFrom(lines, message)
      == if message + Concat(lines) == Header then [] else [message + Concat(lines) + Footer]
    decreases |lines|
  {
    if lines == [] {
      assert message + Concat(lines) == message;
    } else {
      assert message + lines[0] + Concat(lines[1..]) == message + Concat(lines);
      PackFromFits(lines[1..], message + lines[0]);
    }
  }

  /** Lines that fit in one chunk together are sent as that one chunk, in
      order; nothing is sent when there is nothing to say. */
  lemma PackFits(lines: seq<string>)
    requires |Header| + |Concat(lines)| + |Footer| <= MaxLength
    ensures Pack(lines) == if Concat(lines) == "" then [] else [Header + Concat(lines) + Footer]
  {
    PackFromFits(lines, Header);
    assert Header + Concat(lines) == Header <==> Concat(lines) == "";
  }

  lemma {:induction false} PackFromOverflow(lines: seq<string>, message: string, i: nat)
    requires i < |lines|
    requires |message| + |Concat(lines[..i])| + |Footer| <= MaxLength
    requires |message| + |Concat(lines[..i])| + |lines[i]| + |Footer| > MaxLength
    ensures PackFrom(lines, message) == [message + Concat(lines[..i]) + Footer] + PackFrom(lines[i + 1..], Header)
  {
    if i == 0 {
      assert lines[..0] == [];
      assert message + Concat(lines[..0]) == message;
    } else {
      var rest := lines[1..];
      assert lines[..i] == [lines[0]] + rest[..i - 1];
      assert Concat(lines[..i]) == lines[0] + Concat(rest[..i - 1]);
      assert rest[i - 1] == lines[i] && rest[i..] == lines[i + 1..];
      PackFromOverflow(rest, message + lines[0], i - 1);
      assert message + lines[0] + Concat(rest[..i - 1]) == message + Concat(lines[..i]);
    }
  }

  /** When the line at index i is the first that does not fit beside the lines
      before it, those lines are sent as one chunk, line i itself is dropped,
      and packing starts afresh after it. If not even the header can take
      line i, a chunk with nothing but header and footer is sent. */
  lemma PackOverflow(lines: seq<string>, i: nat)
    requires i < |lines|
    requires |Header| + |Concat(lines[..i])| + |Footer| <= MaxLength
    requires |Header| + |Concat(lines[..i])| + |lines[i]| + |Footer| > MaxLength
    ensures Pack(lines) == [Header + Concat(lines[..i]) + Footer] + Pack(lines[i + 1..])
  {
    PackFromOverflow(lines, Header, i);
  }

  lemma {:induction false} PackFromEmpty(lines: seq<string>, message: string)
    requires |Header| <= |message|
    requires forall k :: 0 <= k < |lines| ==> lines[k] != ""
    ensures PackFrom(lines, message) == [] <==> lines == [] && message == Header
    decreases |lines|
  {
    if lines != [] && |message| + |lines[0]| + |Footer| <= MaxLength {
      PackFromEmpty(lines[1..], message + lines[0]);
    }
  }

  /** With non-empty lines, something is sent exactly when there is a line. */
  lemma PackNothing(lines: seq<string>)
    requires forall k :: 0 <= k < |lines| ==> lines[k] != ""
    ensures Pack(lines) == [] <==> lines == []
  {
    PackFromEmpty(lines, Header);
  }
}
