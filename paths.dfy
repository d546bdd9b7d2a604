/** The path of one resource: a collection name, a slash, and the escaped
    identifier. The escaping is `url.QueryEscape`: letters, digits and `-_.~` pass through, a space becomes `+`, and every
    other character is written as `%XX` per byte of its UTF-8 encoding,
    with upper-case hexadecimal digits. */
module Paths {
  import opened Wrappers
  import Validations

  /** The characters the query-component escaper leaves alone: the
      unreserved set of section 2.3 of RFC 3986. */
  predicate IsUnreserved(c: char) {
    || 'a' <= c <= 'z'
    || 'A' <= c <= 'Z'
    || '0' <= c <= '9'
    || c == '-' || c == '_' || c == '.' || c == '~'
  }

  /** The UTF-8 bytes of one Unicode scalar value. */
  function Utf8(c: char): (bytes: seq<int>)
    ensures 1 <= |bytes| <= 4
    ensures forall i :: 0 <= i < |bytes| ==> 0 <= bytes[i] < 256
    ensures |bytes| == 1 <==> (c as int) < 0x80
  {
    var n := c as int;
    if n < 0x80 then [n]
    else if n < 0x800 then [0xC0 + n / 0x40, 0x80 + n % 0x40]
    else if n < 0x1_0000 then [0xE0 + n / 0x1000, 0x80 + (n / 0x40) % 0x40, 0x80 + n % 0x40]
    else [0xF0 + n / 0x4_0000, 0x80 + (n / 0x1000) % 0x40, 0x80 + (n / 0x40) % 0x40, 0x80 + n % 0x40]
  }

  const UpperHex: string := "0123456789ABCDEF"

  /** `%XX` for each byte. */
  function PercentEncode(bytes: seq<int>): (r: string)
    requires forall i :: 0 <= i < |bytes| ==> 0 <= bytes[i] < 256
    ensures |r| == 3 * |bytes|
    ensures forall i :: 0 <= i < |r| ==> r[i] == '%' || r[i] in UpperHex
  {
    if bytes == [] then ""
    else ['%', UpperHex[bytes[0] / 16], UpperHex[bytes[0] % 16]] + PercentEncode(bytes[1..])
  }

  /** How one character of the input is written out. */
  function EscapeChar(c: char): (r: string)
    ensures |r| >= 1
    ensures |r| == 1 ==> r == [c] || (c == ' ' && r == "+")
  {
    if IsUnreserved(c) then [c]
    else if c == ' ' then "+"
    else PercentEncode(Utf8(c))
  }

  /** The escaped string, character by character from the left. */
  function QueryEscape(s: string): (r: string)
    ensures |r| >= |s|
  {
    if s == [] then "" else EscapeChar(s[0]) + QueryEscape(s[1..])
  }

  /** A string escapes to itself exactly when every character in it is
      unreserved. */
  lemma {:induction false} QueryEscapeFixedIff(s: string)
    ensures QueryEscape(s) == s <==> forall i :: 0 <= i < |s| ==> IsUnreserved(s[i])
  {
    if s != [] {
      QueryEscapeFixedIff(s[1..]);
      var head, tail := EscapeChar(s[0]), QueryEscape(s[1..]);
      if QueryEscape(s) == s {
        assert |head| == 1 by { assert |head| + |tail| == |s|; }
        assert head[0] == s[0];
        assert IsUnreserved(s[0]);
        assert tail == s[1..] by { assert tail == (head + tail)[1..]; }
        forall i | 0 <= i < |s| ensures IsUnreserved(s[i]) {
          if i > 0 { assert s[i] == s[1..][i - 1]; }
        }
      }
      if forall i :: 0 <= i < |s| ==> IsUnreserved(s[i]) {
        assert forall i :: 0 <= i < |s| - 1 ==> s[1..][i] == s[i + 1];
        assert s == [s[0]] + s[1..];
      }
    }
  }

  /** No escaped string contains a slash: an identifier, whatever its
      characters, stays inside one path segment. */
  lemma {:induction false} QueryEscapeHasNoSlash(s: string)
    ensures '/' !in QueryEscape(s)
  {
    if s != [] {
      QueryEscapeHasNoSlash(s[1..]);
      var head := EscapeChar(s[0]);
      assert '/' !in head by {
        if !IsUnreserved(s[0]) && s[0] != ' ' {
          assert forall i :: 0 <= i < |head| ==> head[i] == '%' || head[i] in UpperHex;
          assert '/' !in UpperHex;
        }
      }
    }
  }

  /** Every character a valid identifier may hold is unreserved, so the
      escaper hands a valid identifier back unchanged. */
  lemma ValidIDEscapesToItself(id: string)
    ensures Validations.ValidStringID(Some(id)) ==> QueryEscape(id) == id
  {
    QueryEscapeFixedIff(id);
  }

  /** `fmt.Sprintf("<prefix>%s", url.QueryEscape(id))` with a prefix such as
      "shapes/": for a valid identifier the path is the prefix followed by
      the identifier itself, and for any identifier the part after the
      prefix holds no slash. */
  function ResourcePath(prefix: string, id: string): (u: string)
    ensures Validations.ValidStringID(Some(id)) ==> u == prefix + id
    ensures |u| >= |prefix| && u[..|prefix|] == prefix
    ensures '/' !in u[|prefix|..]
  {
    ValidIDEscapesToItself(id);
    QueryEscapeHasNoSlash(id);
    assert (prefix + QueryEscape(id))[|prefix|..] == QueryEscape(id);
    prefix + QueryEscape(id)
  }
}
