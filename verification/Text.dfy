/** JavaScript strings: sequences of UTF-16 code units. */
module Text {

  type Unit = u: int | 0 <= u < 0x10000 witness 0
  type Text = seq<Unit>

  datatype Option<+T> = None | Some(value: T)

  const NEWLINE: Unit := 10
  const RETURN: Unit := 13
  const SPACE: Unit := 32
  const QUOTE: Unit := 34
  const COMMA: Unit := 44
  const DASH: Unit := 45
  const ZERO: Unit := 48
  const COLON: Unit := 58
  const UPPER_R: Unit := 82
  const UPPER_S: Unit := 83
  const OPEN_BRACKET: Unit := 91
  const BACKSLASH: Unit := 92
  const CLOSE_BRACKET: Unit := 93
  const TICK: Unit := 96
  const TILDE: Unit := 126

  /** An ASCII literal as units. */
  function Ascii(s: string): (t: Text)
    ensures |t| == |s| && forall k :: 0 <= k < |t| ==> t[k] < 0x80
  {
    seq(|s|, k requires 0 <= k < |s| => if (s[k] as int) < 0x80 then s[k] as int else 63)
  }

  /** The ECMAScript whitespace and line terminator units, as \s and trim() read them. */
  predicate IsSpace(u: Unit) {
    9 <= u <= 13 || u == 32 || u == 160 || u == 0x1680 || 0x2000 <= u <= 0x200A ||
    u == 0x2028 || u == 0x2029 || u == 0x202F || u == 0x205F || u == 0x3000 || u == 0xFEFF
  }

  predicate IsDigit(u: Unit) { 48 <= u <= 57 }

  predicate IsHex(u: Unit) { IsDigit(u) || 65 <= u <= 70 || 97 <= u <= 102 }

  function TrimStart(s: Text): (r: Text)
    ensures |r| <= |s| && r == s[|s| - |r|..]
    ensures r != [] ==> !IsSpace(r[0])
    ensures forall k :: 0 <= k < |s| - |r| ==> IsSpace(s[k])
  {
    if s != [] && IsSpace(s[0]) then TrimStart(s[1..]) else s
  }

  function TrimEnd(s: Text): (r: Text)
    ensures |r| <= |s| && r == s[..|r|]
    ensures r != [] ==> !IsSpace(r[|r| - 1])
    ensures forall k :: |r| <= k < |s| ==> IsSpace(s[k])
  {
    if s != [] && IsSpace(s[|s| - 1]) then TrimEnd(s[..|s| - 1]) else s
  }

  function Trim(s: Text): Text { TrimEnd(TrimStart(s)) }

  /** Length of the run of `mark` that starts at `i`. */
  function RunLength(s: Text, i: nat, mark: Unit): (n: nat)
    requires i <= |s|
    ensures i + n <= |s|
    ensures forall k :: i <= k < i + n ==> s[k] == mark
    ensures i + n < |s| ==> s[i + n] != mark
    decreases |s| - i
  {
    if i < |s| && s[i] == mark then 1 + RunLength(s, i + 1, mark) else 0
  }

  /** The run is the only length with the properties its contract lists. */
  lemma {:induction false} RunLengthUnique(s: Text, i: nat, mark: Unit, n: nat)
    requires i + n <= |s|
    requires forall k :: i <= k < i + n ==> s[k] == mark
    requires i + n < |s| ==> s[i + n] != mark
    ensures RunLength(s, i, mark) == n
  {
  }
}
