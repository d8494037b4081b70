/**
 * The parts of Go's `strings` package (and of Go's `len` on strings) that the
 * command layer relies on: white space as `unicode.IsSpace` defines it,
 * `strings.Fields`, `strings.TrimSpace`, `strings.Join`, `strings.HasPrefix`
 * and the byte length of a string's UTF-8 encoding.
 */
module GoStrings {

  /** `unicode.IsSpace`: the characters `strings.Fields` splits on and `strings.TrimSpace` trims. */
  predicate IsSpace(c: char) {
    c == ' ' || c == '\t' || c == '\n' || c == '\r'
    || c as int == 0x0B || c as int == 0x0C || c as int == 0x85 || c as int == 0xA0
    || c as int == 0x1680 || 0x2000 <= c as int <= 0x200A
    || c as int == 0x2028 || c as int == 0x2029 || c as int == 0x202F
    || c as int == 0x205F || c as int == 0x3000
  }

  /** Empty or white space only. */
  predicate IsBlank(s: string) {
    forall i :: 0 <= i < |s| ==> IsSpace(s[i])
  }

  /** A non-empty string without white space: what `strings.Fields` yields. */
  predicate IsWord(w: string) {
    |w| > 0 && forall i :: 0 <= i < |w| ==> !IsSpace(w[i])
  }

  predicate HasPrefix(s: string, prefix: string) {
    |prefix| <= |s| && s[..|prefix|] == prefix
  }

  // ---------------------------------------------------------------------------
  // Byte length

  /** Number of bytes in the UTF-8 encoding of `c`. */
  function Utf8Width(c: char): nat {
    if c as int < 0x80 then 1
    else if c as int < 0x800 then 2
    else if c as int < 0x10000 then 3
    else 4
  }

  /** Go's `len(s)`: the length of `s` in bytes, not in characters. */
  function ByteLen(s: string): (n: nat)
    ensures n >= |s|
    ensures n <= 4 * |s|
  {
    if s == [] then 0 else Utf8Width(s[0]) + ByteLen(s[1..])
  }

  /** A string is one byte long exactly when it is a single ASCII character. */
  lemma {:induction false} ByteLenOne(s: string)
    ensures ByteLen(s) == 1 <==> |s| == 1 && s[0] as int < 0x80
  {
    if |s| == 1 {
      assert s[1..] == [];
    }
  }

  lemma {:induction false} ByteLenAppend(a: string, b: string)
    ensures ByteLen(a + b) == ByteLen(a) + ByteLen(b)
    decreases |a|
  {
    if a == [] {
      assert a + b == b;
    } else {
      assert (a + b)[1..] == a[1..] + b;
      ByteLenAppend(a[1..], b);
    }
  }

  // ---------------------------------------------------------------------------
  // strings.TrimSpace

  function TrimLeft(s: string): (r: string)
    ensures |r| <= |s| && r == s[|s| - |r|..]
    ensures r == [] || !IsSpace(r[0])
    ensures IsBlank(s[..|s| - |r|])
  {
    if s != [] && IsSpace(s[0]) then
      var r := TrimLeft(s[1..]);
      assert s[1..][..|s[1..]| - |r|] == s[1..|s| - |r|];
      r
    else s
  }

  function TrimRight(s: string): (r: string)
    ensures |r| <= |s| && r == s[..|r|]
    ensures r == [] || !IsSpace(r[|r| - 1])
    ensures IsBlank(s[|r|..])
  {
    if s != [] && IsSpace(s[|s| - 1]) then TrimRight(s[..|s| - 1]) else s
  }

  /** `strings.TrimSpace`: drops leading and trailing white space. */
  function TrimSpace(s: string): string {
    TrimRight(TrimLeft(s))
  }

  /** `strings.TrimSpace(s) == ""` is the test for a blank string. */
  lemma TrimSpaceEmpty(s: string)
    ensures TrimSpace(s) == [] <==> IsBlank(s)
  {
    var t := TrimLeft(s);
    if t == [] {
      assert s[..|s|] == s;
    } else {
      var r := TrimRight(t);
      assert IsBlank(t[|r|..]) && !IsSpace(t[0]);
      assert !IsSpace(s[|s| - |t|]);
    }
  }

  // ---------------------------------------------------------------------------
  // strings.Fields

  /** Length of the run of non-space characters that starts `s`. */
  function WordLen(s: string): (n: nat)
    ensures n <= |s|
    ensures forall i :: 0 <= i < n ==> !IsSpace(s[i])
    ensures n < |s| ==> IsSpace(s[n])
  {
    if s == [] || IsSpace(s[0]) then 0 else 1 + WordLen(s[1..])
  }

  /** `strings.Fields`: the maximal runs of non-space characters of `s`, in order. */
  function Fields(s: string): (r: seq<string>)
    ensures forall i :: 0 <= i < |r| ==> IsWord(r[i])
    decreases |s|
  {
    if s == [] then []
    else if IsSpace(s[0]) then Fields(s[1..])
    else
      var n := WordLen(s);
      [s[..n]] + Fields(s[n..])
  }

  /** `strings.Fields` yields nothing exactly for blank strings. */
  lemma {:induction false} FieldsEmpty(s: string)
    ensures Fields(s) == [] <==> IsBlank(s)
    decreases |s|
  {
    if s != [] && IsSpace(s[0]) {
      FieldsEmpty(s[1..]);
      if IsBlank(s[1..]) {
        forall i | 0 <= i < |s| ensures IsSpace(s[i]) {
          if i > 0 { assert s[i] == s[1..][i - 1]; }
        }
      }
    }
  }

  lemma {:induction false} WordLenAppend(a: string, b: string)
    requires WordLen(a) < |a| || b == [] || IsSpace(b[0])
    ensures WordLen(a + b) == WordLen(a)
    decreases |a|
  {
    if a == [] {
    } else if IsSpace(a[0]) {
    } else {
      assert (a + b)[1..] == a[1..] + b;
      WordLenAppend(a[1..], b);
    }
  }

  /** A white space character separates the fields of its two sides. */
  lemma {:induction false} FieldsSplit(a: string, c: char, b: string)
    requires IsSpace(c)
    ensures Fields(a + [c] + b) == Fields(a) + Fields(b)
    decreases |a|
  {
    var s := a + [c] + b;
    if a == [] {
      assert s[1..] == b;
    } else if IsSpace(a[0]) {
      assert s[1..] == a[1..] + [c] + b;
      FieldsSplit(a[1..], c, b);
    } else {
      var n := WordLen(a);
      WordLenAppend(a, [c] + b);
      assert s == a + ([c] + b);
      assert s[..n] == a[..n];
      assert s[n..] == a[n..] + [c] + b;
      FieldsSplit(a[n..], c, b);
    }
  }

  /** A word is its own only field. */
  lemma FieldsOfWord(w: string)
    requires IsWord(w)
    ensures Fields(w) == [w]
  {
    assert WordLen(w) == |w| by {
      WordLenAppend(w, []);
      assert w + [] == w;
    }
    assert w[..|w|] == w;
    assert w[|w|..] == [];
    assert Fields(w) == [w[..WordLen(w)]] + Fields(w[WordLen(w)..]);
  }

  // ---------------------------------------------------------------------------
  // strings.Join

  /** `strings.Join`: the elements of `ss` separated by `sep`. */
  function Join(ss: seq<string>, sep: string): string {
    if |ss| == 0 then ""
    else if |ss| == 1 then ss[0]
    else ss[0] + sep + Join(ss[1..], sep)
  }

  function SumLen(ss: seq<string>): nat {
    if ss == [] then 0 else |ss[0]| + SumLen(ss[1..])
  }

  /** Joining n >= 1 strings adds n - 1 separators to their total length. */
  lemma {:induction false} JoinLength(ss: seq<string>, sep: string)
    requires |ss| >= 1
    ensures |Join(ss, sep)| == SumLen(ss) + (|ss| - 1) * |sep|
  {
    if |ss| > 1 {
      JoinLength(ss[1..], sep);
    }
  }

  lemma JoinAppend(ss: seq<string>, s: string, sep: string)
    ensures Join(ss + [s], sep) == if ss == [] then s else Join(ss, sep) + sep + s
    decreases |ss|
  {
    if |ss| > 1 {
      assert (ss + [s])[1..] == ss[1..] + [s];
      JoinAppend(ss[1..], s, sep);
    } else if |ss| == 1 {
      assert (ss + [s])[1..] == [s];
    }
  }

  /** The fields of every element, in order. */
  function FieldsOfAll(ps: seq<string>): seq<string> {
    if ps == [] then [] else Fields(ps[0]) + FieldsOfAll(ps[1..])
  }

  /** Splitting a space-joined list gives the fields of its elements, in order. */
  lemma {:induction false} FieldsOfJoin(ps: seq<string>)
    ensures Fields(Join(ps, " ")) == FieldsOfAll(ps)
  {
    if |ps| == 0 {
    } else if |ps| == 1 {
      assert FieldsOfAll(ps[1..]) == [];
    } else {
      FieldsOfJoin(ps[1..]);
      FieldsSplit(ps[0], ' ', Join(ps[1..], " "));
    }
  }

  /** Round trip: `strings.Fields` undoes `strings.Join(ws, " ")` for words. */
  lemma {:induction false} FieldsOfJoinWords(ws: seq<string>)
    requires forall i :: 0 <= i < |ws| ==> IsWord(ws[i])
    ensures Fields(Join(ws, " ")) == ws
  {
    FieldsOfJoin(ws);
    FieldsOfAllWords(ws);
  }

  lemma {:induction false} FieldsOfAllWords(ws: seq<string>)
    requires forall i :: 0 <= i < |ws| ==> IsWord(ws[i])
    ensures FieldsOfAll(ws) == ws
  {
    if ws != [] {
      FieldsOfWord(ws[0]);
      FieldsOfAllWords(ws[1..]);
    }
  }

  // ---------------------------------------------------------------------------
  // Counting a character

  function Count(s: string, c: char): nat {
    if s == [] then 0 else (if s[0] == c then 1 else 0) + Count(s[1..], c)
  }

  lemma {:induction false} CountAppend(a: string, b: string, c: char)
    ensures Count(a + b, c) == Count(a, c) + Count(b, c)
    decreases |a|
  {
    if a == [] {
      assert a + b == b;
    } else {
      assert (a + b)[1..] == a[1..] + b;
      CountAppend(a[1..], b, c);
    }
  }

  /** Joining n strings that do not contain `c` with `[c]` puts exactly n - 1 of them in. */
  lemma {:induction false} CountJoin(ss: seq<string>, c: char)
    requires |ss| >= 1
    requires forall i :: 0 <= i < |ss| ==> Count(ss[i], c) == 0
    ensures Count(Join(ss, [c]), c) == |ss| - 1
  {
    if |ss| > 1 {
      CountJoin(ss[1..], c);
      CountAppend(ss[0] + [c], Join(ss[1..], [c]), c);
      CountAppend(ss[0], [c], c);
    }
  }
}
