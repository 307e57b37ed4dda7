// Strings as the three services handle them: trimming, and the shape of the identifiers they generate.
module Text {

  datatype Option<+T> = None | Some(value: T)

  /** The characters that Go's strings.TrimSpace strips (Unicode White_Space). */
  predicate IsSpace(c: char) {
    var n := c as int;
    9 <= n <= 13 || n == 0x20 || n == 0x85 || n == 0xA0 || n == 0x1680 || 0x2000 <= n <= 0x200A ||
    n == 0x2028 || n == 0x2029 || n == 0x202F || n == 0x205F || n == 0x3000
  }

  function TrimLeft(s: string): (r: string)
    ensures |r| <= |s| && r == s[|s| - |r|..]
    ensures r != "" ==> !IsSpace(r[0])
    ensures forall i :: 0 <= i < |s| - |r| ==> IsSpace(s[i])
  {
    if s != "" && IsSpace(s[0]) then TrimLeft(s[1..]) else s
  }

  function TrimRight(s: string): (r: string)
    ensures r <= s
    ensures r != "" ==> !IsSpace(r[|r| - 1])
    ensures forall i :: |r| <= i < |s| ==> IsSpace(s[i])
  {
    if s != "" && IsSpace(s[|s| - 1]) then TrimRight(s[..|s| - 1]) else s
  }

  function TrimSpace(s: string): string {
    TrimRight(TrimLeft(s))
  }

  /** What is cut off at either end is all space, and what is left neither starts nor ends with any. */
  lemma TrimSpaceTrims(s: string) returns (i: nat, j: nat)
    ensures i <= j <= |s| && TrimSpace(s) == s[i..j]
    ensures forall k :: 0 <= k < i || j <= k < |s| ==> IsSpace(s[k])
    ensures i < j ==> !IsSpace(s[i]) && !IsSpace(s[j - 1])
  {
    hide IsSpace, TrimLeft, TrimRight;
    var l := TrimLeft(s);
    var t := TrimRight(l);
    i, j := |s| - |l|, |s| - |l| + |t|;
    forall k | 0 <= k < i || j <= k < |s| ensures IsSpace(s[k]) {
      assert k >= i ==> s[k] == l[k - i];
    }
    assert t == l[..|t|] == s[i..j];
    if i < j {
      assert s[i] == l[0] && s[j - 1] == t[|t| - 1];
    }
  }

  /** Text with no space at either end is left alone; trimming twice is trimming once. */
  lemma TrimFixes(s: string)
    ensures s == "" || (!IsSpace(s[0]) && !IsSpace(s[|s| - 1])) ==> TrimSpace(s) == s
    ensures TrimSpace(TrimSpace(s)) == TrimSpace(s)
  {
    var l := TrimLeft(s);
    var t := TrimRight(l);
    if t != "" {
      assert t[0] == l[0];
    }
  }

  /** The canonical text of a generated UUID: 36 characters, lower-case hexadecimal digits and dashes. */
  predicate IsUuid(s: string) {
    |s| == 36 && forall i :: 0 <= i < |s| ==> '0' <= s[i] <= '9' || 'a' <= s[i] <= 'f' || s[i] == '-'
  }

  lemma HexIsNotSpace(c: char)
    requires '0' <= c <= '9' || 'a' <= c <= 'f' || c == '-'
    ensures !IsSpace(c)
  {
    assert 0x2D <= c as int <= 0x66;
  }

  lemma UuidIsTrimmed(s: string)
    requires IsUuid(s)
    ensures s != "" && TrimSpace(s) == s
  {
    HexIsNotSpace(s[0]);
    HexIsNotSpace(s[35]);
    TrimFixes(s);
  }
}

/** Writes to a store that may fail. */
module Writes {

  /** How a write went: the caller is told of success only for Applied; AppliedNoReply is a commit whose reply was lost. */
  datatype WriteOutcome = Applied | Rejected | AppliedNoReply
}
