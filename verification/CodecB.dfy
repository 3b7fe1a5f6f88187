/** The shifting codec on NUL-terminated buffers of ASCII bytes (Assignment-2/codecB.c). */
module CodecB {

  type Ascii = c: nat | c < 128

  /** (c + 3) % 128, what encode does to a byte. */
  function Plus3(c: Ascii): (r: Ascii)
    ensures r == if c < 125 then c + 3 else c - 125
  {
    var v: nat := c;
    (v + 3) % 128
  }

  /** (c + 125) % 128, what decode does to a byte. */
  function Plus125(c: Ascii): (r: Ascii)
    ensures r == if c < 3 then c + 125 else c - 3
  {
    var v: nat := c;
    (v + 125) % 128
  }

  /** The position from i on of the first v, or the end of the buffer. */
  function First(s: seq<Ascii>, v: Ascii, i: nat): (n: nat)
    requires i <= |s|
    ensures i <= n <= |s|
    ensures forall j :: i <= j < n ==> s[j] != v
    ensures n < |s| ==> s[n] == v
    decreases |s| - i
  {
    if i == |s| || s[i] == v then i else First(s, v, i + 1)
  }

  /** strlen. */
  function Length(s: seq<Ascii>): (n: nat)
    ensures n <= |s|
  {
    First(s, 0, 0)
  }

  /** Every byte before the NUL mapped by f; the NUL and what follows it as before. */
  function Mapped(s: seq<Ascii>, f: Ascii -> Ascii): (r: seq<Ascii>)
    ensures |r| == |s|
    ensures forall i :: 0 <= i < |s| ==> r[i] == if i < Length(s) then f(s[i]) else s[i]
  {
    seq(|s|, i requires 0 <= i < |s| => if i < Length(s) then f(s[i]) else s[i])
  }

  method Encode(str: array<Ascii>)
    requires 0 in str[..]
    modifies str
    ensures str[..] == Mapped(old(str[..]), Plus3)
  {
    ghost var before := str[..];
    var i := 0;
    while str[i] != 0
      invariant 0 <= i <= Length(before) < str.Length && |before| == str.Length
      invariant forall j :: 0 <= j < str.Length ==> str[j] == if j < i then Plus3(before[j]) else before[j]
      decreases str.Length - i
    {
      str[i] := Plus3(str[i]);
      i := i + 1;
    }
  }

  method Decode(str: array<Ascii>)
    requires 0 in str[..]
    modifies str
    ensures str[..] == Mapped(old(str[..]), Plus125)
  {
    ghost var before := str[..];
    var i := 0;
    while str[i] != 0
      invariant 0 <= i <= Length(before) < str.Length && |before| == str.Length
      invariant forall j :: 0 <= j < str.Length ==> str[j] == if j < i then Plus125(before[j]) else before[j]
      decreases str.Length - i
    {
      str[i] := Plus125(str[i]);
      i := i + 1;
    }
  }

  /** Where the string has its first byte `bad`, or its end. */
  function Cut(s: seq<Ascii>, bad: Ascii): (p: nat)
    ensures p <= Length(s)
  {
    if First(s, bad, 0) < Length(s) then First(s, bad, 0) else Length(s)
  }

  /** g undoes f, and f makes a NUL of the byte `bad` alone. */
  ghost predicate Undoes(g: Ascii -> Ascii, f: Ascii -> Ascii, bad: Ascii) {
    forall c :: g(f(c)) == c && (f(c) == 0 <==> c == bad)
  }

  /**
   Mapping back restores the positions before the first bad byte and leaves the rest as the first mapping made them; so
   it restores everything only where there is no bad byte.
   */
  lemma MapBack(s: seq<Ascii>, f: Ascii -> Ascii, g: Ascii -> Ascii, bad: Ascii)
    requires 0 in s && Undoes(g, f, bad)
    ensures var p := Cut(s, bad); Mapped(Mapped(s, f), g) == s[..p] + Mapped(s, f)[p..]
    ensures Mapped(Mapped(s, f), g) == s <==> bad !in s[..Length(s)]
  {
    var once, p, n := Mapped(s, f), Cut(s, bad), Length(s);
    assert Length(once) == p;
    if p < n {
      assert Mapped(once, g)[p] == f(bad) == 0 && s[..n][p] == bad;
    }
  }

  /** Decoding an encoded string restores what precedes its first '}' (125), and everything only if there is none. */
  lemma DecodeAfterEncode(s: seq<Ascii>)
    requires 0 in s
    ensures var p := Cut(s, 125); Mapped(Mapped(s, Plus3), Plus125) == s[..p] + Mapped(s, Plus3)[p..]
    ensures Mapped(Mapped(s, Plus3), Plus125) == s <==> 125 !in s[..Length(s)]
  {
    MapBack(s, Plus3, Plus125, 125);
  }

  /** Encoding a decoded string restores what precedes its first byte 3, and everything only if there is none. */
  lemma EncodeAfterDecode(s: seq<Ascii>)
    requires 0 in s
    ensures var p := Cut(s, 3); Mapped(Mapped(s, Plus125), Plus3) == s[..p] + Mapped(s, Plus125)[p..]
    ensures Mapped(Mapped(s, Plus125), Plus3) == s <==> 3 !in s[..Length(s)]
  {
    MapBack(s, Plus125, Plus3, 3);
  }
}
