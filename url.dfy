/**
 * Go's `url.QueryEscape` and `url.QueryUnescape`, and the `/`-separated
 * segment structure of a request path.
 */
module Url {
  import opened Wrappers
  import opened GoTypes
  import opened Hex

  /** The unreserved characters of section 2.3 of RFC 3986: ALPHA, DIGIT, `-`, `.`, `_`, `~`. */
  predicate IsUnreserved(c: Byte) {
    'A' <= c <= 'Z' || 'a' <= c <= 'z' || '0' <= c <= '9' || c == '-' || c == '.' || c == '_' || c == '~'
  }

  /** The only bytes `QueryEscape` ever writes. */
  predicate IsEscapedByte(c: Byte) {
    IsUnreserved(c) || c == '+' || c == '%'
  }

  /** One input byte in `application/x-www-form-urlencoded` form. */
  function EscapeByte(c: Byte): (r: GoString)
    ensures 1 <= |r| <= 3
    ensures forall i :: 0 <= i < |r| ==> IsEscapedByte(r[i])
  {
    if IsUnreserved(c) then [c]
    else if c == ' ' then ['+']
    else ['%', UpperHexDigit(c as int / 16), UpperHexDigit(c as int % 16)]
  }

  /**
   * `url.QueryEscape`: unreserved bytes are kept, space becomes `+`, and every
   * other byte is written as `%` and two uppercase hexadecimal digits.
   */
  function QueryEscape(s: GoString): (r: GoString)
    ensures |r| >= |s|
    ensures forall i :: 0 <= i < |r| ==> IsEscapedByte(r[i])
  {
    if s == [] then [] else EscapeByte(s[0]) + QueryEscape(s[1..])
  }

  /**
   * `url.QueryUnescape`: `+` reads as a space, `%` must be followed by two
   * hexadecimal digits of either case, and any other byte stands for itself.
   * `None` is Go's `EscapeError`.
   */
  function QueryUnescape(s: GoString): (r: Option<GoString>)
    decreases |s|
  {
    if s == [] then Some([])
    else if s[0] == '%' then
      if |s| >= 3 && IsHexDigit(s[1]) && IsHexDigit(s[2]) then
        Cons(ByteOf(s[1], s[2]), QueryUnescape(s[3..]))
      else None
    else Cons(if s[0] == '+' then ' ' else s[0], QueryUnescape(s[1..]))
  }

  function Cons(c: Byte, r: Option<GoString>): Option<GoString> {
    match r
    case None => None
    case Some(t) => Some([c] + t)
  }

  /** Unescaping the form of one byte followed by more text yields that byte first. */
  lemma UnescapeEscapeByte(c: Byte, t: GoString)
    ensures QueryUnescape(EscapeByte(c) + t) == Cons(c, QueryUnescape(t))
  {
    var s := EscapeByte(c) + t;
    if IsUnreserved(c) || c == ' ' {
      assert s[1..] == t;
    } else {
      assert s[3..] == t;
      NibblesOfByte(c);
    }
  }

  /** `QueryUnescape` inverts `QueryEscape`: an escaped id always decodes to itself. */
  lemma {:induction false} UnescapeEscape(s: GoString)
    ensures QueryUnescape(QueryEscape(s)) == Some(s)
  {
    if s != [] {
      UnescapeEscape(s[1..]);
      UnescapeEscapeByte(s[0], QueryEscape(s[1..]));
      assert [s[0]] + s[1..] == s;
    }
  }

  /** `QueryEscape` is injective: different ids never escape to the same segment. */
  lemma EscapeInjective(a: GoString, b: GoString)
    requires QueryEscape(a) == QueryEscape(b)
    ensures a == b
  {
    UnescapeEscape(a);
    UnescapeEscape(b);
  }

  /** Text made only of unreserved bytes is left as it is. */
  lemma {:induction false} EscapeUnreserved(s: GoString)
    requires forall i :: 0 <= i < |s| ==> IsUnreserved(s[i])
    ensures QueryEscape(s) == s
  {
    if s != [] {
      EscapeUnreserved(s[1..]);
      assert [s[0]] + s[1..] == s;
    }
  }

  /**
   * `url.PathUnescape`, the decoding a server applies to a path segment: as
   * `QueryUnescape`, except that `+` stands for itself.
   */
  function PathUnescape(s: GoString): (r: Option<GoString>)
    decreases |s|
  {
    if s == [] then Some([])
    else if s[0] == '%' then
      if |s| >= 3 && IsHexDigit(s[1]) && IsHexDigit(s[2]) then
        Cons(ByteOf(s[1], s[2]), PathUnescape(s[3..]))
      else None
    else Cons(s[0], PathUnescape(s[1..]))
  }

  /** `s` with every space replaced by `+`. */
  function SpacesAsPlus(s: GoString): (r: GoString)
    ensures |r| == |s|
    ensures forall i :: 0 <= i < |s| ==> r[i] == (if s[i] == ' ' then '+' else s[i])
  {
    if s == [] then [] else [if s[0] == ' ' then '+' else s[0]] + SpacesAsPlus(s[1..])
  }

  lemma PathUnescapeEscapeByte(c: Byte, t: GoString)
    ensures PathUnescape(EscapeByte(c) + t) == Cons(if c == ' ' then '+' else c, PathUnescape(t))
  {
    var s := EscapeByte(c) + t;
    if IsUnreserved(c) || c == ' ' {
      assert s[1..] == t;
    } else {
      assert s[3..] == t;
      NibblesOfByte(c);
    }
  }

  /**
   * Decoded as a path segment, an escaped name comes back with each space
   * turned into `+`: `QueryEscape` writes a space as `+`, which path
   * decoding keeps.
   */
  lemma {:induction false} PathUnescapeEscape(s: GoString)
    ensures PathUnescape(QueryEscape(s)) == Some(SpacesAsPlus(s))
  {
    if s != [] {
      PathUnescapeEscape(s[1..]);
      PathUnescapeEscapeByte(s[0], QueryEscape(s[1..]));
    }
  }

  /** Under path decoding a name round-trips exactly when it holds no space. */
  lemma PathRoundTripIff(s: GoString)
    ensures PathUnescape(QueryEscape(s)) == Some(s) <==> forall i :: 0 <= i < |s| ==> s[i] != ' '
  {
    PathUnescapeEscape(s);
    if forall i :: 0 <= i < |s| ==> s[i] != ' ' {
      assert SpacesAsPlus(s) == s;
    } else {
      var i :| 0 <= i < |s| && s[i] == ' ';
      assert SpacesAsPlus(s)[i] != s[i];
    }
  }

  /**
   * Under path decoding the names " " and "+" arrive as the same text, although
   * their escapes differ.
   */
  lemma PathDecodingConflatesSpaceAndPlus()
    ensures QueryEscape(" ") == "+" && QueryEscape("+") == "%2B"
    ensures PathUnescape(QueryEscape(" ")) == PathUnescape(QueryEscape("+")) == Some("+")
  {
    PathUnescapeEscape(" ");
    PathUnescapeEscape("+");
  }

  /** No `/` anywhere in `s`. */
  predicate SlashFree(s: GoString) {
    forall i :: 0 <= i < |s| ==> s[i] != '/'
  }

  /**
   * An escaped id cannot end the path, start a query or a fragment, or carry
   * a raw space: it contains none of `/`, `?`, `#` and ` `.
   */
  lemma EscapedIsPathSafe(s: GoString)
    ensures SlashFree(QueryEscape(s))
    ensures forall i :: 0 <= i < |QueryEscape(s)| ==> QueryEscape(s)[i] !in {'/', '?', '#', ' '}
  {
    var r := QueryEscape(s);
    forall i | 0 <= i < |r| ensures r[i] !in {'/', '?', '#', ' '} {
      assert IsEscapedByte(r[i]);
    }
  }

  /** `/` followed by one segment: the way each `%s` and each literal segment enters a path. */
  function Seg(s: GoString): GoString {
    ['/'] + s
  }

  /** Adds `c` to the front of the first segment. */
  function Prepend(c: Byte, r: seq<GoString>): (r': seq<GoString>)
    requires |r| >= 1
    ensures |r'| == |r|
  {
    [[c] + r[0]] + r[1..]
  }

  /** The `/`-separated segments of a path, as a server splits it. */
  function Segments(s: GoString): (r: seq<GoString>)
    ensures |r| >= 1
  {
    if s == [] then [[]]
    else if s[0] == '/' then [[]] + Segments(s[1..])
    else Prepend(s[0], Segments(s[1..]))
  }

  lemma PrependAppend(c: Byte, r: seq<GoString>, t: seq<GoString>)
    requires |r| >= 1
    ensures Prepend(c, r + t) == Prepend(c, r) + t
  {
    assert (r + t)[0] == r[0];
    assert (r + t)[1..] == r[1..] + t;
  }

  /** A `/`-free string is a single segment. */
  lemma {:induction false} SegmentsSlashFree(s: GoString)
    requires SlashFree(s)
    ensures Segments(s) == [s]
  {
    if s != [] {
      SegmentsSlashFree(s[1..]);
      assert [s[0]] + s[1..] == s;
    }
  }

  /** Appending `/b` to a path appends the segments of `b` to its segments. */
  lemma {:induction false} SegmentsSeg(a: GoString, b: GoString)
    ensures Segments(a + Seg(b)) == Segments(a) + Segments(b)
  {
    var s := a + Seg(b);
    if a == [] {
      assert s == ['/'] + b;
      assert s[1..] == b;
    } else {
      assert s[0] == a[0];
      assert s[1..] == a[1..] + Seg(b);
      SegmentsSeg(a[1..], b);
      if a[0] == '/' {
        assert Segments(s) == [[]] + (Segments(a[1..]) + Segments(b));
      } else {
        PrependAppend(a[0], Segments(a[1..]), Segments(b));
      }
    }
  }

  /** Appending `/b` for a `/`-free `b` adds exactly one segment, `b`. */
  lemma SegmentsSegFree(a: GoString, b: GoString)
    requires SlashFree(b)
    ensures Segments(a + Seg(b)) == Segments(a) + [b]
  {
    SegmentsSeg(a, b);
    SegmentsSlashFree(b);
  }

  /** Appending `/QueryEscape(id)` adds exactly one segment, whatever `id` holds. */
  lemma SegmentsSegEscaped(a: GoString, id: GoString)
    ensures Segments(a + Seg(QueryEscape(id))) == Segments(a) + [QueryEscape(id)]
  {
    EscapedIsPathSafe(id);
    SegmentsSegFree(a, QueryEscape(id));
  }
}
