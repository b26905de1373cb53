/**
 * The string operations of JavaScript that the request pipeline relies on:
 * `trim`, `split(",")`, `join`, `slice(0, n)` and the decimal rendering of an
 * integer. Strings are sequences of Unicode scalar values.
 */
module Text {

  /** The characters `String.prototype.trim` removes: the ECMAScript
      WhiteSpace and LineTerminator code points. */
  predicate IsSpace(c: char)
  {
    var k := c as int;
    k == 0x09 || k == 0x0A || k == 0x0B || k == 0x0C || k == 0x0D || k == 0x20 ||
    k == 0xA0 || k == 0x1680 || (0x2000 <= k <= 0x200A) || k == 0x2028 ||
    k == 0x2029 || k == 0x202F || k == 0x205F || k == 0x3000 || k == 0xFEFF
  }

  /** `s` starts and ends with a non-space character, or is empty. */
  predicate IsTrimmed(s: string)
  {
    s == [] || (!IsSpace(s[0]) && !IsSpace(s[|s| - 1]))
  }

  /** Drops the leading white space: what is dropped is all white space and
      what remains does not start with any. */
  function TrimStart(s: string): (r: string)
    ensures |r| <= |s| && r == s[|s| - |r|..]
    ensures r != [] ==> !IsSpace(r[0])
    ensures forall i :: 0 <= i < |s| - |r| ==> IsSpace(s[i])
  {
    if s != [] && IsSpace(s[0]) then TrimStart(s[1..]) else s
  }

  /** Drops the trailing white space: what is dropped is all white space and
      what remains does not end with any. */
  function TrimEnd(s: string): (r: string)
    ensures |r| <= |s| && r == s[..|r|]
    ensures r != [] ==> !IsSpace(r[|r| - 1])
    ensures forall i :: |r| <= i < |s| ==> IsSpace(s[i])
  {
    if s != [] && IsSpace(s[|s| - 1]) then TrimEnd(s[..|s| - 1]) else s
  }

  /** JavaScript's `s.trim()`. */
  function Trim(s: string): (r: string)
    ensures |r| <= |s|
    ensures IsTrimmed(r)
    ensures IsTrimmed(s) ==> r == s
  {
    TrimEnd(TrimStart(s))
  }

  lemma TrimIdempotent(s: string)
    ensures Trim(Trim(s)) == Trim(s)
  {
  }

  /** A string of white space only loses everything to `TrimStart`. */
  lemma {:induction false} TrimStartAllSpace(s: string)
    requires forall i :: 0 <= i < |s| ==> IsSpace(s[i])
    ensures TrimStart(s) == []
  {
    if s != [] {
      assert IsSpace(s[0]);
      forall i | 0 <= i < |s| - 1 ensures IsSpace(s[1..][i]) {
        assert s[1..][i] == s[i + 1];
      }
      TrimStartAllSpace(s[1..]);
    }
  }

  /** A string is blank after trimming iff it consists of white space only. */
  lemma {:induction false} TrimEmptyIffBlank(s: string)
    ensures Trim(s) == "" <==> forall i :: 0 <= i < |s| ==> IsSpace(s[i])
  {
    var a := TrimStart(s);
    if Trim(s) == "" {
      assert TrimEnd(a) == [];
      assert |a| == 0;
    }
    if forall i :: 0 <= i < |s| ==> IsSpace(s[i]) {
      TrimStartAllSpace(s);
    }
  }

  /** One space of padding on each side is trimmed away. */
  lemma TrimPadded(x: string)
    requires x != "" && IsTrimmed(x)
    ensures Trim(" " + x + " ") == x
  {
    var p := " " + x + " ";
    assert p[0] == ' ' && p[1..] == x + " ";
    assert (x + " ")[0] == x[0];
    assert TrimStart(x + " ") == x + " ";
    assert (x + " ")[..|x|] == x;
    assert TrimEnd(x + " ") == x;
  }

  /** `s.startsWith(p)`. */
  predicate StartsWith(s: string, p: string)
  {
    |p| <= |s| && s[..|p|] == p
  }

  /** `s.slice(0, n)`: the first `n` characters, or all of `s` when it is
      shorter. */
  function Take(s: string, n: nat): (r: string)
    ensures |r| == if |s| <= n then |s| else n
    ensures StartsWith(s, r)
  {
    if |s| <= n then s else s[..n]
  }

  /** `parts.join(sep)`. */
  function Join(parts: seq<string>, sep: string): string
  {
    if |parts| == 0 then ""
    else if |parts| == 1 then parts[0]
    else parts[0] + sep + Join(parts[1..], sep)
  }

  /** `s.split(",")`: the pieces between the commas, in order; there is
      always at least one piece and no piece holds a comma. */
  function SplitOnComma(s: string): (r: seq<string>)
    ensures |r| >= 1
    ensures forall k :: 0 <= k < |r| ==> ',' !in r[k]
  {
    if s == [] then [""]
    else
      var rest := SplitOnComma(s[1..]);
      if s[0] == ',' then [""] + rest
      else [[s[0]] + rest[0]] + rest[1..]
  }

  /** Splitting and joining back with the separator gives the string back. */
  lemma {:induction false} JoinSplitOnComma(s: string)
    ensures Join(SplitOnComma(s), ",") == s
  {
    if s != [] {
      var rest := SplitOnComma(s[1..]);
      JoinSplitOnComma(s[1..]);
      if s[0] == ',' {
        assert SplitOnComma(s) == [""] + rest;
        assert ([""] + rest)[1..] == rest;
      } else {
        var r := [[s[0]] + rest[0]] + rest[1..];
        assert SplitOnComma(s) == r;
        if |rest| == 1 {
          assert Join(r, ",") == [s[0]] + rest[0];
        } else {
          assert r[1..] == rest[1..];
          assert Join(r, ",") == [s[0]] + rest[0] + "," + Join(rest[1..], ",");
        }
      }
    }
  }

  /** A string without commas is a single piece. */
  lemma {:induction false} SplitWithoutComma(s: string)
    requires ',' !in s
    ensures SplitOnComma(s) == [s]
  {
    if s != [] {
      assert ',' !in s[1..] by {
        forall i | 0 <= i < |s| - 1 ensures s[1..][i] != ',' { assert s[1..][i] == s[i + 1]; }
      }
      SplitWithoutComma(s[1..]);
      assert [s[0]] + s[1..] == s;
    }
  }

  /** A comma-free piece followed by a comma splits off as the first piece. */
  lemma {:induction false} SplitAfterPiece(a: string, b: string)
    requires ',' !in a
    ensures SplitOnComma(a + "," + b) == [a] + SplitOnComma(b)
  {
    if a == [] {
      assert a + "," + b == [','] + b;
      assert ([','] + b)[1..] == b;
    } else {
      var t := a + "," + b;
      assert t[1..] == a[1..] + "," + b;
      assert ',' !in a[1..] by {
        forall i | 0 <= i < |a| - 1 ensures a[1..][i] != ',' { assert a[1..][i] == a[i + 1]; }
      }
      SplitAfterPiece(a[1..], b);
      assert t[0] == a[0];
      assert [a[0]] + a[1..] == a;
    }
  }

  /** Joining comma-free pieces with commas and splitting again gives the
      pieces back. */
  lemma {:induction false} SplitJoinOnComma(parts: seq<string>)
    requires |parts| >= 1
    requires forall k :: 0 <= k < |parts| ==> ',' !in parts[k]
    ensures SplitOnComma(Join(parts, ",")) == parts
  {
    if |parts| == 1 {
      SplitWithoutComma(parts[0]);
    } else {
      SplitJoinOnComma(parts[1..]);
      SplitAfterPiece(parts[0], Join(parts[1..], ","));
      assert [parts[0]] + parts[1..] == parts;
    }
  }

  /** The decimal digits of a natural number, as `String(n)` renders it. */
  function NatToString(n: nat): (r: string)
    ensures |r| >= 1
    ensures forall i :: 0 <= i < |r| ==> '0' <= r[i] <= '9'
    ensures |r| > 1 ==> r[0] != '0'
  {
    var d := ['0' + (n % 10) as char];
    if n < 10 then d else NatToString(n / 10) + d
  }

  /** The number a string of decimal digits denotes. */
  function DigitsValue(s: string): nat
    requires forall i :: 0 <= i < |s| ==> '0' <= s[i] <= '9'
  {
    if s == [] then 0 else DigitsValue(s[..|s| - 1]) * 10 + (s[|s| - 1] - '0') as nat
  }

  /** The rendered digits denote the number rendered. */
  lemma {:induction false} NatToStringValue(n: nat)
    ensures DigitsValue(NatToString(n)) == n
  {
    var d := ['0' + (n % 10) as char];
    if n >= 10 {
      var a := NatToString(n / 10);
      NatToStringValue(n / 10);
      assert (a + d)[..|a + d| - 1] == a;
      assert NatToString(n) == a + d;
    }
  }

  /** `String(n)` for an integer: the digits of `|n|`, after a minus sign
      when `n` is negative. */
  function IntToString(n: int): (r: string)
    ensures r != ""
    ensures n >= 0 ==> r == NatToString(n)
    ensures n < 0 ==> r[0] == '-' && r[1..] == NatToString(-n)
  {
    if n < 0 then "-" + NatToString(-n) else NatToString(n)
  }
}
