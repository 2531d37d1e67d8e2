/**
 * How a command becomes the bytes on the wire: `command.trim() + '\r'`.
 * `Trim` follows JavaScript's `String.prototype.trim`, which strips the
 * ECMAScript WhiteSpace and LineTerminator code points from both ends.
 */
module Framing {

  /** ECMAScript WhiteSpace (TAB, VT, FF, SP, NBSP, ZWNBSP, category Zs) and LineTerminator (LF, CR, LS, PS). */
  predicate IsWhitespace(c: char) {
    var n := c as int;
    n == 0x09 || n == 0x0A || n == 0x0B || n == 0x0C || n == 0x0D || n == 0x20 ||
    n == 0xA0 || n == 0x1680 || (0x2000 <= n <= 0x200A) || n == 0x2028 || n == 0x2029 ||
    n == 0x202F || n == 0x205F || n == 0x3000 || n == 0xFEFF
  }

  predicate AllWhitespace(s: string) {
    forall i :: 0 <= i < |s| ==> IsWhitespace(s[i])
  }

  /** `s` is empty or neither starts nor ends with whitespace. */
  predicate Trimmed(s: string) {
    s == [] || (!IsWhitespace(s[0]) && !IsWhitespace(s[|s| - 1]))
  }

  /** Drops the leading whitespace: the result is the suffix of `s` left after it. */
  function TrimStart(s: string): (r: string)
    ensures |r| <= |s| && r == s[|s| - |r|..]
    ensures r == [] || !IsWhitespace(r[0])
  {
    if s != [] && IsWhitespace(s[0]) then TrimStart(s[1..]) else s
  }

  /** Drops the trailing whitespace: the result is the prefix of `s` left before it. */
  function TrimEnd(s: string): (r: string)
    ensures |r| <= |s| && r == s[..|r|]
    ensures r == [] || !IsWhitespace(r[|r| - 1])
  {
    if s != [] && IsWhitespace(s[|s| - 1]) then TrimEnd(s[..|s| - 1]) else s
  }

  /** `command.trim()`: the whitespace-free core of `s`, which neither starts nor ends with whitespace. */
  function Trim(s: string): (r: string)
    ensures |r| <= |s| && Trimmed(r)
  {
    TrimEnd(TrimStart(s))
  }

  /** The bytes `send` writes for `command`: the trimmed command and one carriage return. */
  function Frame(command: string): (r: string)
    ensures |r| >= 1 && r[|r| - 1] == '\r' && r[..|r| - 1] == Trim(command)
  {
    Trim(command) + "\r"
  }

  /** What TrimStart drops is whitespace. */
  lemma {:induction false} TrimStartDropsWhitespace(s: string)
    ensures AllWhitespace(s[..|s| - |TrimStart(s)|])
  {
    if s != [] && IsWhitespace(s[0]) {
      var k := |s| - |TrimStart(s)|;
      TrimStartDropsWhitespace(s[1..]);
      assert forall i :: 1 <= i < k ==> s[..k][i] == s[1..][..k - 1][i - 1];
    }
  }

  /** What TrimEnd drops is whitespace. */
  lemma {:induction false} TrimEndDropsWhitespace(s: string)
    ensures AllWhitespace(s[|TrimEnd(s)|..])
  {
    if s != [] && IsWhitespace(s[|s| - 1]) {
      var k := |TrimEnd(s)|;
      TrimEndDropsWhitespace(s[..|s| - 1]);
      assert forall i :: 0 <= i < |s| - 1 - k ==> s[k..][i] == s[..|s| - 1][k..][i];
    }
  }

  lemma {:induction false} TrimStartSkips(w: string, u: string)
    requires AllWhitespace(w)
    requires u == [] || !IsWhitespace(u[0])
    ensures TrimStart(w + u) == u
  {
    if w != [] {
      assert (w + u)[1..] == w[1..] + u;
      TrimStartSkips(w[1..], u);
    }
  }

  lemma {:induction false} TrimEndSkips(u: string, w: string)
    requires AllWhitespace(w)
    requires u == [] || !IsWhitespace(u[|u| - 1])
    ensures TrimEnd(u + w) == u
  {
    if w != [] {
      assert (u + w)[..|u + w| - 1] == u + w[..|w| - 1];
      TrimEndSkips(u, w[..|w| - 1]);
    }
  }

  /** Trim is determined by its contract: whitespace around a trimmed core is exactly what it removes. */
  lemma TrimOfPadded(w1: string, t: string, w2: string)
    requires AllWhitespace(w1) && AllWhitespace(w2) && Trimmed(t)
    ensures Trim(w1 + t + w2) == t
  {
    if t == [] {
      assert w1 + t + w2 == w1 + w2;
      TrimStartSkips(w1 + w2, []);
      assert w1 + w2 + [] == w1 + w2;
    } else {
      assert w1 + t + w2 == w1 + (t + w2);
      TrimStartSkips(w1, t + w2);
      TrimEndSkips(t, w2);
    }
  }

  /** A one-character command trims to nothing iff that character is whitespace. */
  lemma TrimSingleCharacter(c: char)
    ensures Trim([c]) == [] <==> IsWhitespace(c)
  {
  }

  /**
   * The set is ECMAScript's, not ASCII's or Unicode's White_Space property:
   * no-break space, the byte-order mark and the ideographic space are
   * whitespace; NEL (U+0085) and the zero-width space (U+200B) are not.
   */
  lemma WhitespaceEdgeCases()
    ensures IsWhitespace('\U{00A0}') && IsWhitespace('\U{FEFF}') && IsWhitespace('\U{3000}')
    ensures !IsWhitespace('\U{0085}') && !IsWhitespace('\U{200B}')
  {
  }

  /** Trimming twice is trimming once. */
  lemma TrimIdempotent(s: string)
    ensures Trim(Trim(s)) == Trim(s)
  {
  }

  /** The frame ends in exactly one carriage return: the character before it, if any, is not whitespace. */
  lemma FrameEndsWithOneCarriageReturn(command: string)
    ensures var r := Frame(command);
      r[|r| - 1] == '\r' && (|r| == 1 || !IsWhitespace(r[|r| - 2]))
  {
    var t := Trim(command);
    assert Frame(command) == t + "\r";
    if t != [] {
      assert (t + "\r")[|t| - 1] == t[|t| - 1];
    }
  }

  /** Whitespace padding around a command does not change what goes on the wire. */
  lemma FrameIgnoresPadding(w1: string, command: string, w2: string)
    requires AllWhitespace(w1) && AllWhitespace(w2) && Trimmed(command)
    ensures Frame(w1 + command + w2) == command + "\r"
  {
    TrimOfPadded(w1, command, w2);
  }

  /** `send("  -i.10  ")` writes `-i.10\r`. */
  lemma FramePaddedInputCommand()
    ensures Frame("  -i.10  ") == "-i.10\r"
  {
    var w, c := "  ", "-i.10";
    assert AllWhitespace(w) && Trimmed(c);
    FrameIgnoresPadding(w, c, w);
    assert w + c + w == "  -i.10  ";
  }

  /** `send("-p.1")` writes `-p.1\r`. */
  lemma FramePowerOnCommand()
    ensures Frame("-p.1") == "-p.1\r"
  {
    var c := "-p.1";
    assert AllWhitespace([]) && Trimmed(c);
    FrameIgnoresPadding([], c, []);
    assert [] + c + [] == "-p.1";
  }
}
