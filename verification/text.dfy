/** String helpers shared by the client and the relay: JavaScript's `trim`
    and the concatenation of streamed pieces of text. */
module Text {

  /** The code points ECMAScript's String.prototype.trim strips: the
      WhiteSpace characters (tab, vertical tab, form feed, space, no-break
      space, the byte order mark and the Unicode space separators) and the
      LineTerminator characters (line feed, carriage return, line and
      paragraph separators). */
  predicate IsTrimmable(c: char)
  {
    || c == '\t' || c == '\n' || c == '\U{000B}' || c == '\U{000C}' || c == '\r'
    || c == ' ' || c == '\U{00A0}' || c == '\U{1680}'
    || ('\U{2000}' <= c <= '\U{200A}')
    || c == '\U{2028}' || c == '\U{2029}' || c == '\U{202F}' || c == '\U{205F}'
    || c == '\U{3000}' || c == '\U{FEFF}'
  }

  /** `s` with its leading trimmable characters removed. */
  function TrimStart(s: string): (r: string)
    ensures |r| <= |s| && r == s[|s| - |r|..]
    ensures forall i | 0 <= i < |s| - |r| :: IsTrimmable(s[i])
    ensures r != [] ==> !IsTrimmable(r[0])
  {
    if s != [] && IsTrimmable(s[0]) then TrimStart(s[1..]) else s
  }

  /** `s` with its trailing trimmable characters removed. */
  function TrimEnd(s: string): (r: string)
    ensures |r| <= |s| && r == s[..|r|]
    ensures forall i | |r| <= i < |s| :: IsTrimmable(s[i])
    ensures r != [] ==> !IsTrimmable(r[|r| - 1])
  {
    if s != [] && IsTrimmable(s[|s| - 1]) then TrimEnd(s[..|s| - 1]) else s
  }

  /** A string that `trim` empties: every character in it is trimmable. */
  predicate IsBlank(s: string)
  {
    forall i | 0 <= i < |s| :: IsTrimmable(s[i])
  }

  /** JavaScript's `s.trim()`. It is empty, and so falsy, exactly when the
      string is blank; otherwise it neither starts nor ends with a
      trimmable character. */
  function Trim(s: string): (r: string)
    ensures |r| <= |s|
    ensures r == "" <==> IsBlank(s)
    ensures r != "" ==> !IsTrimmable(r[0]) && !IsTrimmable(r[|r| - 1])
  {
    TrimEnd(TrimStart(s))
  }

  /** The in-order concatenation of a sequence of text pieces. */
  function Concat(parts: seq<string>): string
  {
    if parts == [] then "" else Concat(parts[..|parts| - 1]) + parts[|parts| - 1]
  }

  /** Concatenation distributes over appending sequences of pieces. */
  lemma {:induction false} ConcatAppend(a: seq<string>, b: seq<string>)
    ensures Concat(a + b) == Concat(a) + Concat(b)
  {
    if b == [] {
      assert a + b == a;
    } else {
      var n := |b| - 1;
      assert (a + b)[..|a + b| - 1] == a + b[..n];
      ConcatAppend(a, b[..n]);
    }
  }

  /** Reading one more piece extends the text read so far. */
  lemma ConcatSnoc(parts: seq<string>, i: nat)
    requires i < |parts|
    ensures Concat(parts[..i + 1]) == Concat(parts[..i]) + parts[i]
  {
    assert parts[..i + 1][..i] == parts[..i];
  }

  /** The text of the first `i` pieces is a prefix of the text of all of them. */
  lemma ConcatPrefix(parts: seq<string>, i: nat)
    requires i <= |parts|
    ensures Concat(parts[..i]) <= Concat(parts)
  {
    var done, rest := parts[..i], parts[i..];
    assert done + rest == parts;
    ConcatAppend(done, rest);
    var text := Concat(done) + Concat(rest);
    assert text[..|Concat(done)|] == Concat(done);
  }
}
