/** The list of file names the server sends in a response message, joined with commas, and the
    client's splitting of it with `strtok` (C99 section 7.21.5.8). */
module FileList {
  import opened Files
  import opened EventLog
  import opened MachineInts

  const MESSAGE_SIZE := 100

  /** Joined from the left, as the server builds it. */
  function Join(names: seq<string>): string {
    if names == [] then ""
    else if |names| == 1 then names[0]
    else Join(names[..|names| - 1]) + "," + names[|names| - 1]
  }

  // ----- strtok -----

  /** The first place from `from` on that holds no comma. */
  function WordStart(s: string, from: nat): (k: nat)
    requires from <= |s|
    ensures from <= k <= |s|
    ensures forall i :: from <= i < k ==> s[i] == ','
    ensures k < |s| ==> s[k] != ','
    decreases |s| - from
  {
    if from == |s| || s[from] != ',' then from else WordStart(s, from + 1)
  }

  /** The first place from `from` on that holds a comma. */
  function WordEnd(s: string, from: nat): (k: nat)
    requires from <= |s|
    ensures from <= k <= |s|
    ensures forall i :: from <= i < k ==> s[i] != ','
    ensures k < |s| ==> s[k] == ','
    decreases |s| - from
  {
    if from == |s| || s[from] == ',' then from else WordEnd(s, from + 1)
  }

  /** The tokens `strtok` yields one after the other: runs of characters other than a comma. */
  function Tokens(s: string): seq<string> {
    TokensAt(s, 0)
  }

  function TokensAt(s: string, from: nat): seq<string>
    requires from <= |s|
    decreases |s| - from
  {
    var start := WordStart(s, from);
    if start == |s| then [] else [s[start..WordEnd(s, start)]] + TokensAt(s, WordEnd(s, start))
  }

  /** From `from` on, only commas up to `start`, then a maximal run of others up to `end`. */
  predicate IsWord(s: string, from: nat, start: nat, end: nat) {
    && from <= start < end <= |s|
    && (forall i :: from <= i < start ==> s[i] == ',')
    && (forall i :: start <= i < end ==> s[i] != ',')
    && (end < |s| ==> s[end] == ',')
  }

  lemma NextTokenAt(s: string, from: nat, start: nat, end: nat)
    requires IsWord(s, from, start, end)
    ensures TokensAt(s, from) == [s[start..end]] + TokensAt(s, end)
  {
    assert s[start] != ',';
    assert WordStart(s, from) == start && WordEnd(s, start) == end;
  }

  lemma SkipCommas(s: string, from: nat, to: nat)
    requires from <= to <= |s| && forall i :: from <= i < to ==> s[i] == ','
    ensures TokensAt(s, from) == TokensAt(s, to)
  {
  }

  lemma Associate(a: seq<string>, b: seq<string>, c: seq<string>)
    ensures a + (b + c) == (a + b) + c
  {
  }

  /** One call of `strtok`: where the next token starts and ends; it is empty when there is none. */
  method NextToken(s: string, from: nat) returns (start: nat, end: nat)
    requires from <= |s|
    ensures from <= start <= end <= |s| && (end == start ==> end == |s|)
    ensures forall i :: from <= i < start ==> s[i] == ','
    ensures forall i :: start <= i < end ==> s[i] != ','
    ensures end < |s| ==> s[end] == ','
  {
    start := from;
    while start < |s| && s[start] == ','
      invariant from <= start <= |s|
      invariant forall i :: from <= i < start ==> s[i] == ','
    {
      start := start + 1;
    }
    end := start;
    while end < |s| && s[end] != ','
      invariant start <= end <= |s|
      invariant forall i :: start <= i < end ==> s[i] != ','
    {
      end := end + 1;
    }
  }

  /** The client's loop over the list. */
  method SplitList(s: string) returns (tokens: seq<string>)
    ensures tokens == Tokens(s)
  {
    tokens := [];
    var start, end := NextToken(s, 0);
    ghost var from := 0;
    while start < end
      invariant from <= start <= end <= |s| && (end == start ==> end == |s|)
      invariant forall i :: from <= i < start ==> s[i] == ','
      invariant forall i :: start <= i < end ==> s[i] != ','
      invariant end < |s| ==> s[end] == ','
      invariant Tokens(s) == tokens + TokensAt(s, from)
      decreases |s| - start
    {
      NextTokenAt(s, from, start, end);
      Associate(tokens, [s[start..end]], TokensAt(s, end));
      tokens := tokens + [s[start..end]];
      from := end;
      start, end := NextToken(s, end);
    }
    SkipCommas(s, from, |s|);
  }

  /** A word of a part that a comma follows is a word of the whole. */
  lemma WordOfPart(s: string, n: nat, from: nat, start: nat, end: nat)
    requires n < |s| && s[n] == ',' && IsWord(s[..n], from, start, end)
    ensures IsWord(s, from, start, end) && s[start..end] == s[..n][start..end]
  {
  }

  /** A comma ends the last token before it. */
  lemma {:induction false} TokensUpToComma(s: string, n: nat, from: nat)
    requires from <= n < |s| && s[n] == ','
    ensures TokensAt(s, from) == TokensAt(s[..n], from) + TokensAt(s, n + 1)
    decreases n - from
  {
    var a := s[..n];
    var start := WordStart(a, from);
    if start == n {
      forall i | from <= i < n + 1 ensures s[i] == ',' { if i < n { assert s[i] == a[i]; } }
      SkipCommas(s, from, n + 1);
    } else {
      var end := WordEnd(a, start);
      WordOfPart(s, n, from, start, end);
      NextTokenAt(s, from, start, end);
      NextTokenAt(a, from, start, end);
      TokensUpToComma(s, n, end);
      Associate([a[start..end]], TokensAt(a, end), TokensAt(s, n + 1));
    }
  }

  /** One more name after a comma is one more token. */
  lemma TokensOfLast(a: string, name: string)
    requires name != [] && ',' !in name
    ensures Tokens(a + "," + name) == Tokens(a) + [name]
  {
    var s := a + "," + name;
    var n := |a| + 1;
    assert s[..|a|] == a && s[n..|s|] == name;
    TokensUpToComma(s, |a|, 0);
    forall i | n <= i < |s| ensures s[i] != ',' { assert s[i] == name[i - n]; }
    NextTokenAt(s, n, n, |s|);
  }

  lemma TokensOfWord(s: string)
    requires s != [] && ',' !in s
    ensures Tokens(s) == [s]
  {
    NextTokenAt(s, 0, 0, |s|);
    assert s[0..|s|] == s;
  }

  lemma {:induction false} TokensOfJoin(names: seq<string>)
    requires forall i :: 0 <= i < |names| ==> names[i] != [] && ',' !in names[i]
    ensures Tokens(Join(names)) == names
  {
    if |names| == 1 {
      TokensOfWord(names[0]);
    } else if names != [] {
      var front, last := names[..|names| - 1], names[|names| - 1];
      TokensOfJoin(front);
      TokensOfLast(Join(front), last);
      assert names == front + [last];
    }
  }

  /** Tokens are nonempty, contain no comma, and no character that was not in the list. */
  lemma TokensAreWords(s: string, p: string, ch: char)
    requires p in Tokens(s)
    ensures p != [] && ',' !in p && (ch in p ==> ch in s)
  {
    TokensAtAreWords(s, 0, p, ch);
  }

  lemma {:induction false} TokensAtAreWords(s: string, from: nat, p: string, ch: char)
    requires from <= |s| && p in TokensAt(s, from)
    ensures p != [] && ',' !in p && (ch in p ==> ch in s)
    decreases |s| - from
  {
    var start := WordStart(s, from);
    var end := WordEnd(s, start);
    if p != s[start..end] {
      TokensAtAreWords(s, end, p, ch);
    }
  }

  // ----- The message buffer -----

  /** A string copied into the fixed message field: its characters, then NULs. */
  function Pack(message: string): (buffer: seq<char>)
    requires |message| < MESSAGE_SIZE
    ensures |buffer| == MESSAGE_SIZE
  {
    message + seq(MESSAGE_SIZE - |message|, _ => '\0')
  }

  /** The string a buffer holds: everything before the first NUL. */
  function CString(buffer: seq<char>): (s: string)
    ensures '\0' !in s && s <= buffer
    ensures |s| < |buffer| ==> buffer[|s|] == '\0'
  {
    if buffer == [] || buffer[0] == '\0' then "" else [buffer[0]] + CString(buffer[1..])
  }

  lemma {:induction false} CStringOfPrefix(message: string, rest: seq<char>)
    requires '\0' !in message && rest != [] && rest[0] == '\0'
    ensures CString(message + rest) == message
  {
    if message == [] {
      assert message + rest == rest;
    } else {
      assert (message + rest)[1..] == message[1..] + rest;
      CStringOfPrefix(message[1..], rest);
    }
  }

  lemma UnpackPacked(message: string)
    requires |message| < MESSAGE_SIZE && '\0' !in message
    ensures CString(Pack(message)) == message
  {
    CStringOfPrefix(message, seq(MESSAGE_SIZE - |message|, _ => '\0'));
  }

  lemma {:induction false} JoinWithoutNul(names: seq<string>)
    requires forall p :: p in names ==> '\0' !in p
    ensures '\0' !in Join(names)
  {
    if |names| > 1 {
      JoinWithoutNul(names[..|names| - 1]);
    }
  }

  predicate IsName(p: string) {
    p != [] && ',' !in p && '\0' !in p
  }

  /** The round trip: a list that fits the message comes back exactly as it was sent, in order and
      in number, if and only if every name is nonempty and free of commas and NULs. */
  lemma FileListRoundTrip(names: seq<string>)
    requires |Join(names)| < MESSAGE_SIZE
    ensures Tokens(CString(Pack(Join(names)))) == names <==> forall p :: p in names ==> IsName(p)
  {
    var m := CString(Pack(Join(names)));
    if forall p :: p in names ==> IsName(p) {
      JoinWithoutNul(names);
      UnpackPacked(Join(names));
      forall i | 0 <= i < |names| ensures IsName(names[i]) { assert names[i] in names; }
      TokensOfJoin(names);
    }
    if Tokens(m) == names {
      forall p | p in names ensures IsName(p) {
        TokensAreWords(m, p, '\0');
      }
    }
  }

  // ----- How many names -----

  /** The number of names the server announces for a request of `n`; `n` is an `int` compared with
      an unsigned length, so that every negative `n` asks for all. */
  function Announced(n: int, len: nat): nat {
    if n == -1 || ToSize(n) > len then len else ToSize(n)
  }

  lemma AnnouncedIsMinimum(n: int, len: nat)
    requires -INT_MAX - 1 <= n <= INT_MAX && len <= INT_MAX
    ensures Announced(n, len) == if n < 0 || n > len then len else n
  {
  }

  /** What the client gets for a request of `n` names: exactly the first of them in order, as many
      as announced. */
  lemma ClientSeesFirstNames(s: Store, n: int)
    requires -INT_MAX - 1 <= n <= INT_MAX && |s| <= INT_MAX
    requires forall f :: f in s ==> IsName(f.path)
    requires |Join(Order(s)[..Announced(n, |s|)])| < MESSAGE_SIZE
    ensures var tokens := Tokens(CString(Pack(Join(Order(s)[..Announced(n, |s|)]))));
            && tokens == Order(s)[..if n < 0 || n > |s| then |s| else n]
            && |tokens| == Announced(n, |s|)
  {
    AnnouncedIsMinimum(n, |s|);
    var names := Order(s)[..Announced(n, |s|)];
    forall p | p in names ensures IsName(p) {
      var i :| 0 <= i < |names| && names[i] == p;
      assert p == s[i].path && s[i] in s;
    }
    FileListRoundTrip(names);
  }
}
