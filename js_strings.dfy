/**
 * `String.prototype.trim` as mongoose's `trim: true` option applies it: leading and
 * trailing white space and line terminators (ECMAScript's WhiteSpace and
 * LineTerminator code points) are removed, nothing else.
 */
module JsStrings {

  /** ECMAScript WhiteSpace (TAB, VT, FF, SP, NBSP, ZWNBSP, category Zs) and LineTerminator (LF, CR, LS, PS). */
  predicate IsWhiteSpace(c: char)
  {
    c == '\t' || c == '\n' || c == '\U{000B}' || c == '\U{000C}' || c == '\r' || c == ' ' ||
    c == '\U{00A0}' || c == '\U{1680}' || ('\U{2000}' <= c <= '\U{200A}') ||
    c == '\U{2028}' || c == '\U{2029}' || c == '\U{202F}' || c == '\U{205F}' ||
    c == '\U{3000}' || c == '\U{FEFF}'
  }

  /** True of a string with no white space at either end. */
  predicate IsTrimmed(s: string)
  {
    s == [] || (!IsWhiteSpace(s[0]) && !IsWhiteSpace(s[|s| - 1]))
  }

  /** Drops the leading white space: the result is a suffix of `s`, and only white space was dropped. */
  function TrimStart(s: string): (r: string)
    ensures |r| <= |s| && r == s[|s| - |r|..]
    ensures r != [] ==> !IsWhiteSpace(r[0])
    ensures forall k :: 0 <= k < |s| - |r| ==> IsWhiteSpace(s[k])
    decreases |s|
  {
    if s != [] && IsWhiteSpace(s[0]) then TrimStart(s[1..]) else s
  }

  /** Drops the trailing white space: the result is a prefix of `s`, and only white space was dropped. */
  function TrimEnd(s: string): (r: string)
    ensures |r| <= |s| && r == s[..|r|]
    ensures r != [] ==> !IsWhiteSpace(r[|r| - 1])
    ensures forall k :: |r| <= k < |s| ==> IsWhiteSpace(s[k])
    decreases |s|
  {
    if s != [] && IsWhiteSpace(s[|s| - 1]) then TrimEnd(s[..|s| - 1]) else s
  }

  /**
   * `s.trim()`: the result is the piece of `s` between `lead` and `|s| - trail`, the
   * characters cut off at both ends are all white space, and what is left starts
   * and ends with a character that is not.
   */
  function Trim(s: string): (r: string)
    ensures IsTrimmed(r)
    ensures exists lead :: 0 <= lead <= |s| - |r| && r == s[lead..lead + |r|] && EdgesAreWhiteSpace(s, lead, |r|)
  {
    var t := TrimStart(s);
    var r := TrimEnd(t);
    var lead := |s| - |t|;
    assert r == s[lead..lead + |r|];
    assert EdgesAreWhiteSpace(s, lead, |r|);
    r
  }

  /** Everything in `s` outside the piece `s[lead..lead + len]` is white space. */
  predicate EdgesAreWhiteSpace(s: string, lead: nat, len: nat)
    requires lead + len <= |s|
  {
    (forall k :: 0 <= k < lead ==> IsWhiteSpace(s[k])) &&
    (forall k :: lead + len <= k < |s| ==> IsWhiteSpace(s[k]))
  }

  /** Trimming a string that has no white space at its ends gives it back unchanged. */
  lemma TrimKeepsTrimmed(s: string)
    requires IsTrimmed(s)
    ensures Trim(s) == s
  {
    assert TrimStart(s) == s;
    assert TrimEnd(s) == s;
  }

  /** mongoose may trim a stored value again, on every save: doing so changes nothing. */
  lemma TrimIdempotent(s: string)
    ensures Trim(Trim(s)) == Trim(s)
  {
    TrimKeepsTrimmed(Trim(s));
  }
}
