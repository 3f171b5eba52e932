/**
 * The Python string operations the quiz system relies on: `str.join`, slicing,
 * `startswith`, `strip`, `replace`, case mapping, `textwrap.dedent` and a simplified `str.format`.
 */
module Strings {

  /** `sep.join(parts)`. */
  function Join(sep: string, parts: seq<string>): string
    decreases |parts|
  {
    if |parts| == 0 then ""
    else if |parts| == 1 then parts[0]
    else parts[0] + sep + Join(sep, parts[1..])
  }

  /** Appending one more part adds the separator and the part at the end. */
  lemma {:induction false} JoinAppend(sep: string, parts: seq<string>, last: string)
    requires |parts| > 0
    ensures Join(sep, parts + [last]) == Join(sep, parts) + sep + last
  {
    if |parts| == 1 {
      assert parts + [last] == [parts[0], last];
      assert [parts[0], last][1..] == [last];
    } else {
      assert (parts + [last])[1..] == parts[1..] + [last];
      JoinAppend(sep, parts[1..], last);
    }
  }

  /** Concatenation of a sequence of strings, `"".join(parts)`. */
  function Concat(parts: seq<string>): string
    decreases |parts|
  {
    if |parts| == 0 then "" else parts[0] + Concat(parts[1..])
  }

  lemma {:induction false} ConcatAppend(parts: seq<string>, last: string)
    ensures Concat(parts + [last]) == Concat(parts) + last
  {
    if |parts| == 0 {
      assert parts + [last] == [last];
    } else {
      assert (parts + [last])[1..] == parts[1..] + [last];
      ConcatAppend(parts[1..], last);
    }
  }

  /** Python's `s[:n]`: at most the first `n` characters. */
  function Take(s: string, n: nat): (r: string)
    ensures |r| == if |s| <= n then |s| else n
    ensures r <= s
  {
    if |s| <= n then s else s[..n]
  }

  /** `s.startswith(p)`. */
  predicate StartsWith(s: string, p: string)
  {
    |p| <= |s| && s[..|p|] == p
  }

  lemma ConcatAssoc<T>(x: seq<T>, y: seq<T>, z: seq<T>)
    ensures x + (y + z) == (x + y) + z
  {
  }

  lemma TailConcat<T>(a: seq<T>, b: seq<T>)
    requires a != []
    ensures (a + b)[0] == a[0] && (a + b)[1..] == a[1..] + b
  {
  }

  lemma StartsWithConcat(p: string, q: string)
    ensures StartsWith(p + q, p)
  {
    assert (p + q)[..|p|] == p;
  }

  lemma StartsWithAppend(s: string, p: string, q: string)
    requires StartsWith(s, p)
    ensures StartsWith(s + q, p)
  {
    assert (s + q)[..|p|] == s[..|p|];
  }

  /** The whitespace characters `str.isspace` and the regular expression class `\s` accept, restricted
      to the first 256 code points. */
  predicate IsSpace(c: char)
  {
    c == ' ' || c == '\t' || c == '\n' || c == '\r' || c == '\U{000B}' || c == '\U{000C}'
    || ('\U{001C}' <= c <= '\U{001F}') || c == '\U{0085}' || c == '\U{00A0}'
  }

  predicate AllSpace(s: string)
  {
    forall i :: 0 <= i < |s| ==> IsSpace(s[i])
  }

  predicate NoSpace(s: string)
  {
    forall i :: 0 <= i < |s| ==> !IsSpace(s[i])
  }

  /** `s.lstrip()` */
  function LStrip(s: string): (r: string)
    ensures |r| <= |s|
    decreases |s|
  {
    if s != [] && IsSpace(s[0]) then LStrip(s[1..]) else s
  }

  /** `s.rstrip()` */
  function RStrip(s: string): (r: string)
    ensures |r| <= |s|
    decreases |s|
  {
    if s != [] && IsSpace(s[|s| - 1]) then RStrip(s[..|s| - 1]) else s
  }

  /** `s.strip()` */
  function Strip(s: string): string
  {
    RStrip(LStrip(s))
  }

  /** `LStrip` removes exactly a whitespace prefix and stops at a non-whitespace character. */
  lemma {:induction false} LStripSplit(s: string)
    ensures |LStrip(s)| <= |s|
    ensures LStrip(s) == s[|s| - |LStrip(s)|..]
    ensures AllSpace(s[..|s| - |LStrip(s)|])
    ensures LStrip(s) == [] || !IsSpace(LStrip(s)[0])
    decreases |s|
  {
    if s != [] && IsSpace(s[0]) {
      LStripSplit(s[1..]);
      var k := |s| - |LStrip(s)|;
      assert s[..k] == [s[0]] + s[1..][..k - 1];
    }
  }

  /** `RStrip` removes exactly a whitespace suffix and stops at a non-whitespace character. */
  lemma {:induction false} RStripSplit(s: string)
    ensures |RStrip(s)| <= |s|
    ensures RStrip(s) == s[..|RStrip(s)|]
    ensures AllSpace(s[|RStrip(s)|..])
    ensures RStrip(s) == [] || !IsSpace(RStrip(s)[|RStrip(s)| - 1])
    decreases |s|
  {
    if s != [] && IsSpace(s[|s| - 1]) {
      var t := s[..|s| - 1];
      RStripSplit(t);
      var k := |RStrip(s)|;
      assert s[k..] == t[k..] + [s[|s| - 1]];
    }
  }

  /** `s` is the whitespace `strip` removes in front, the stripped text, and the whitespace it removes
      behind; the stripped text is empty or starts and ends with non-whitespace. */
  lemma StripSplit(s: string)
    ensures |Strip(s)| <= |LStrip(s)| <= |s|
    ensures s == s[..|s| - |LStrip(s)|] + Strip(s) + LStrip(s)[|Strip(s)|..]
    ensures AllSpace(s[..|s| - |LStrip(s)|]) && AllSpace(LStrip(s)[|Strip(s)|..])
    ensures Strip(s) == [] || (!IsSpace(Strip(s)[0]) && !IsSpace(Strip(s)[|Strip(s)| - 1]))
  {
    StripConcat(s);
    StripEnds(s);
  }

  lemma StripConcat(s: string)
    ensures |Strip(s)| <= |LStrip(s)| <= |s|
    ensures s == s[..|s| - |LStrip(s)|] + Strip(s) + LStrip(s)[|Strip(s)|..]
    ensures AllSpace(s[..|s| - |LStrip(s)|]) && AllSpace(LStrip(s)[|Strip(s)|..])
  {
    var l := LStrip(s);
    LStripSplit(s);
    RStripSplit(l);
    SuffixPrefixConcat(s, l, RStrip(l));
  }

  /** A suffix `l` of `s` and a prefix `t` of `l` cut `s` into three consecutive pieces. */
  lemma SuffixPrefixConcat(s: string, l: string, t: string)
    requires |t| <= |l| <= |s| && l == s[|s| - |l|..] && t == l[..|t|]
    ensures s == s[..|s| - |l|] + t + l[|t|..]
  {
    var p, w := s[..|s| - |l|], l[|t|..];
    assert l == t + w;
    assert s == p + l;
  }

  lemma StripEnds(s: string)
    ensures Strip(s) == [] || (!IsSpace(Strip(s)[0]) && !IsSpace(Strip(s)[|Strip(s)| - 1]))
  {
    var l := LStrip(s);
    LStripSplit(s);
    RStripSplit(l);
    var t := RStrip(l);
    if t != [] {
      assert t[0] == l[0];
    }
  }

  /** Leading whitespace before text that starts with a non-whitespace character is removed, nothing more. */
  lemma {:induction false} LStripPrefix(w: string, x: string)
    requires AllSpace(w)
    requires x == [] || !IsSpace(x[0])
    ensures LStrip(w + x) == x
    decreases |w|
  {
    if w == [] {
      assert w + x == x;
    } else {
      assert (w + x)[1..] == w[1..] + x;
      LStripPrefix(w[1..], x);
    }
  }

  /** Trailing whitespace after text that ends with a non-whitespace character is removed, nothing more. */
  lemma {:induction false} RStripSuffix(x: string, w: string)
    requires AllSpace(w)
    requires x == [] || !IsSpace(x[|x| - 1])
    ensures RStrip(x + w) == x
    decreases |w|
  {
    if w == [] {
      assert x + w == x;
    } else {
      assert (x + w)[..|x + w| - 1] == x + w[..|w| - 1];
      RStripSuffix(x, w[..|w| - 1]);
    }
  }

  /** Stripping surrounding whitespace off text whose own ends are not whitespace gives back that text. */
  lemma StripExact(w1: string, x: string, w2: string)
    requires AllSpace(w1) && AllSpace(w2)
    requires x != [] && !IsSpace(x[0]) && !IsSpace(x[|x| - 1])
    ensures Strip(w1 + x + w2) == x
  {
    assert w1 + x + w2 == w1 + (x + w2);
    LStripPrefix(w1, x + w2);
    RStripSuffix(x, w2);
  }

  /** `isupper()` of one character among the first 256 code points: the ASCII capitals and the
      Latin-1 capitals `À` to `Þ` except the multiplication sign. */
  predicate IsUpper(c: char)
  {
    'A' <= c <= 'Z' || ('\U{00C0}' <= c <= '\U{00DE}' && c != '\U{00D7}')
  }

  /** The lowercase letters `lower()` produces from those capitals. */
  predicate IsLower(c: char)
  {
    'a' <= c <= 'z' || ('\U{00E0}' <= c <= '\U{00FE}' && c != '\U{00F7}')
  }

  /** `lower()` of one character among the first 256 code points: each capital moves 32 code points
      up to its lowercase letter. */
  function Lower(c: char): (r: char)
    ensures IsUpper(c) ==> IsLower(r) && r as int == c as int + 32
    ensures !IsUpper(c) ==> r == c
  {
    if IsUpper(c) then (c as int + 32) as char else c
  }

  /** `p` occurs in `s` starting at index `i`. */
  predicate OccursAt(s: string, p: string, i: int)
  {
    0 <= i && i + |p| <= |s| && s[i..i + |p|] == p
  }

  /** True when `p` occurs nowhere in `s`. */
  predicate Absent(s: string, p: string)
  {
    forall i :: 0 <= i <= |s| ==> !OccursAt(s, p, i)
  }

  /** `s.replace(p, r)`: every non-overlapping occurrence of `p`, scanning left to right, becomes `r`. */
  function ReplaceAll(s: string, p: string, r: string): string
    requires |p| > 0
    decreases |s|
  {
    if |s| < |p| then s
    else if s[..|p|] == p then r + ReplaceAll(s[|p|..], p, r)
    else [s[0]] + ReplaceAll(s[1..], p, r)
  }

  /** A string in which the pattern does not occur is returned unchanged. */
  lemma {:induction false} ReplaceAbsent(s: string, p: string, r: string)
    requires |p| > 0
    requires Absent(s, p)
    ensures ReplaceAll(s, p, r) == s
    decreases |s|
  {
    if |s| >= |p| {
      assert !OccursAt(s, p, 0);
      assert Absent(s[1..], p) by {
        forall i | 0 <= i <= |s[1..]| ensures !OccursAt(s[1..], p, i) {
          if 0 <= i && i + |p| <= |s[1..]| {
            assert s[1..][i..i + |p|] == s[i + 1..i + 1 + |p|];
            assert !OccursAt(s, p, i + 1);
          }
        }
      }
      ReplaceAbsent(s[1..], p, r);
    }
  }

  /** Replacing with the empty string never makes a string longer. */
  lemma {:induction false} ReplaceShrinks(s: string, p: string)
    requires |p| > 0
    ensures |ReplaceAll(s, p, "")| <= |s|
    decreases |s|
  {
    if |s| >= |p| {
      if s[..|p|] == p {
        ReplaceShrinks(s[|p|..], p);
      } else {
        ReplaceShrinks(s[1..], p);
      }
    }
  }

  /** An occurrence at the very start is replaced, and scanning resumes right after it. */
  lemma ReplaceLeading(p: string, s: string, r: string)
    requires |p| > 0
    ensures ReplaceAll(p + s, p, r) == r + ReplaceAll(s, p, r)
  {
    assert (p + s)[..|p|] == p;
    assert (p + s)[|p|..] == s;
  }

  function DigitChar(d: nat): char
    requires d < 10
  {
    ('0' as int + d) as char
  }

  /** `str(n)` for a natural number. */
  function NatToString(n: nat): string
    decreases n
  {
    if n < 10 then [DigitChar(n)] else NatToString(n / 10) + [DigitChar(n % 10)]
  }

  /** `str(i)` for an integer. */
  function IntToString(i: int): string
  {
    if i < 0 then "-" + NatToString(-i) else NatToString(i)
  }

  /** The first index of `c` in `s`, or `|s|` when it does not occur. */
  function FirstIndex(s: string, c: char): (r: nat)
    ensures r <= |s|
    ensures r < |s| ==> s[r] == c
    ensures forall i :: 0 <= i < r ==> s[i] != c
    decreases |s|
  {
    if s == [] then 0 else if s[0] == c then 0 else 1 + FirstIndex(s[1..], c)
  }

  /** Outcome of `template.format(**values)` under a simplified grammar: `{{` and `}}` are literal
      braces and `{key}` is a replacement field whose whole text is the key. `Positional` is a field
      that names a positional argument, of which `format(**values)` has none (`IndexError`). */
  datatype Formatted = Formatted(text: string) | MissingKey(key: string) | Malformed | Positional

  /** A field name that Python reads as a positional index: empty (automatic numbering) or all
      digits. */
  predicate PositionalField(key: string)
  {
    forall i :: 0 <= i < |key| ==> '0' <= key[i] <= '9'
  }

  function Prefixed(p: string, f: Formatted): Formatted
  {
    match f
    case Formatted(s) => Formatted(p + s)
    case _ => f
  }

  predicate BraceFree(s: string)
  {
    '{' !in s && '}' !in s
  }

  /** `template.format(**values)`; the first problem found scanning left to right is reported, as
      Python's formatter does (a missing key raises `KeyError`, a positional field `IndexError`, a
      stray brace `ValueError`). */
  function Format(t: string, vals: map<string, string>): Formatted
    decreases |t|
  {
    if t == [] then Formatted("")
    else if t[0] == '{' then
      if |t| > 1 && t[1] == '{' then Prefixed("{", Format(t[2..], vals))
      else
        var j := FirstIndex(t[1..], '}');
        if j == |t| - 1 then Malformed
        else
          var key := t[1..1 + j];
          if '{' in key then Malformed
          else if PositionalField(key) then Positional
          else if key !in vals then MissingKey(key)
          else Prefixed(vals[key], Format(t[2 + j..], vals))
    else if t[0] == '}' then
      if |t| > 1 && t[1] == '}' then Prefixed("}", Format(t[2..], vals)) else Malformed
    else Prefixed([t[0]], Format(t[1..], vals))
  }

  /** Text without braces formats to itself. */
  lemma {:induction false} FormatPlain(t: string, vals: map<string, string>)
    requires BraceFree(t)
    ensures Format(t, vals) == Formatted(t)
    decreases |t|
  {
    if t != [] {
      assert t[0] != '{' && t[0] != '}';
      assert BraceFree(t[1..]) by {
        assert forall c :: c in t[1..] ==> c in t;
      }
      FormatPlain(t[1..], vals);
      assert [t[0]] + t[1..] == t;
    }
  }

  /** Whether formatting succeeds, and which key it reports as missing, depends only on the set of keys
      supplied, not on their values. */
  lemma {:induction false} FormatDependsOnKeys(t: string, v1: map<string, string>, v2: map<string, string>)
    requires v1.Keys == v2.Keys
    ensures Format(t, v1).Formatted? <==> Format(t, v2).Formatted?
    ensures Format(t, v1).MissingKey? ==> Format(t, v2) == Format(t, v1)
    ensures Format(t, v1).Malformed? ==> Format(t, v2).Malformed?
    ensures Format(t, v1).Positional? ==> Format(t, v2).Positional?
    decreases |t|
  {
    if t != [] {
      if t[0] == '{' {
        if |t| > 1 && t[1] == '{' {
          FormatDependsOnKeys(t[2..], v1, v2);
        } else {
          var j := FirstIndex(t[1..], '}');
          if j != |t| - 1 {
            FormatDependsOnKeys(t[2 + j..], v1, v2);
          }
        }
      } else if t[0] == '}' {
        if |t| > 1 && t[1] == '}' {
          FormatDependsOnKeys(t[2..], v1, v2);
        }
      } else {
        FormatDependsOnKeys(t[1..], v1, v2);
      }
    }
  }

  /** A template that opens with the placeholder `{k}` followed by plain text. */
  lemma FormatLeadingPlaceholder(k: string, b: string, vals: map<string, string>)
    requires BraceFree(b) && BraceFree(k)
    ensures PositionalField(k) ==> Format("{" + k + "}" + b, vals) == Positional
    ensures !PositionalField(k) && k in vals ==> Format("{" + k + "}" + b, vals) == Formatted(vals[k] + b)
    ensures !PositionalField(k) && k !in vals ==> Format("{" + k + "}" + b, vals) == MissingKey(k)
  {
    var t := "{" + k + "}" + b;
    var u := k + "}" + b;
    assert t[1..] == u;
    assert u[|k|] == '}';
    assert forall i :: 0 <= i < |k| ==> u[i] == k[i];
    assert FirstIndex(u, '}') == |k|;
    assert t[1..1 + |k|] == k;
    assert t[2 + |k|..] == b;
    FormatPlain(b, vals);
  }

  /** Text without braces in front of a template is copied through to the output. */
  lemma {:induction false} FormatPlainPrefix(a: string, s: string, vals: map<string, string>)
    requires BraceFree(a)
    ensures Format(a + s, vals) == Prefixed(a, Format(s, vals))
    decreases |a|
  {
    if a != [] {
      var t := a + s;
      assert t[0] == a[0] && t[1..] == a[1..] + s;
      assert a[0] != '{' && a[0] != '}';
      assert BraceFree(a[1..]) by {
        assert forall c :: c in a[1..] ==> c in a;
      }
      FormatPlainPrefix(a[1..], s, vals);
      if Format(s, vals).Formatted? {
        var f := Format(s, vals).text;
        assert [a[0]] + (a[1..] + f) == a + f;
      }
    } else {
      assert a + s == s;
    }
  }

  /** A template with one placeholder `{k}` surrounded by plain text: the value of `k` is substituted
      when `k` is supplied, and `k` is reported missing otherwise; an empty or numeric `k` is a
      positional field. */
  lemma FormatOnePlaceholder(a: string, k: string, b: string, vals: map<string, string>)
    requires BraceFree(a) && BraceFree(b) && BraceFree(k)
    ensures PositionalField(k) ==> Format(a + "{" + k + "}" + b, vals) == Positional
    ensures !PositionalField(k) && k in vals ==> Format(a + "{" + k + "}" + b, vals) == Formatted(a + vals[k] + b)
    ensures !PositionalField(k) && k !in vals ==> Format(a + "{" + k + "}" + b, vals) == MissingKey(k)
  {
    var u := "{" + k + "}" + b;
    assert a + "{" + k + "}" + b == a + u;
    FormatPlainPrefix(a, u, vals);
    FormatLeadingPlaceholder(k, b, vals);
    if !PositionalField(k) && k in vals {
      assert a + (vals[k] + b) == a + vals[k] + b;
    }
  }

  // ---------------------------------------------------------------- `textwrap.dedent`

  /** The characters `textwrap.dedent` treats as indentation. */
  predicate IsIndent(c: char)
  {
    c == ' ' || c == '\t'
  }

  /** A line made only of indentation, the empty line included: `dedent` counts it as blank. */
  predicate AllIndent(s: string)
  {
    forall i :: 0 <= i < |s| ==> IsIndent(s[i])
  }

  /** `s.split("\n")`. */
  function Lines(s: string): (ls: seq<string>)
    ensures |ls| >= 1
    decreases |s|
  {
    var n := FirstIndex(s, '\n');
    if n == |s| then [s] else [s[..n]] + Lines(s[n + 1..])
  }

  /** Joining the lines with newlines gives the text back, and no line holds a newline. */
  lemma LinesJoin(s: string)
    ensures Join("\n", Lines(s)) == s
    ensures forall i :: 0 <= i < |Lines(s)| ==> '\n' !in Lines(s)[i]
  {
    LinesJoinBack(s);
    LinesNoNewline(s);
  }

  lemma {:induction false} LinesJoinBack(s: string)
    ensures Join("\n", Lines(s)) == s
    decreases |s|
  {
    var n := FirstIndex(s, '\n');
    if n < |s| {
      var rest := s[n + 1..];
      var tail := Lines(rest);
      LinesJoinBack(rest);
      var ls := Lines(s);
      assert ls == [s[..n]] + tail;
      assert |ls| >= 2 && ls[0] == s[..n] && ls[1..] == tail;
      assert Join("\n", ls) == s[..n] + "\n" + Join("\n", tail);
      assert s == s[..n] + "\n" + rest;
    }
  }

  lemma {:induction false} LinesNoNewline(s: string)
    ensures forall i :: 0 <= i < |Lines(s)| ==> '\n' !in Lines(s)[i]
    decreases |s|
  {
    var n := FirstIndex(s, '\n');
    NoNewlineBefore(s, n);
    if n < |s| {
      var rest := s[n + 1..];
      LinesNoNewline(rest);
      var ls := Lines(s);
      assert ls == [s[..n]] + Lines(rest);
      forall i | 1 <= i < |ls|
        ensures '\n' !in ls[i]
      {
        assert ls[i] == Lines(rest)[i - 1];
      }
    } else {
      assert s[..n] == s;
    }
  }

  lemma NoNewlineBefore(s: string, n: nat)
    requires n == FirstIndex(s, '\n')
    ensures '\n' !in s[..n]
  {
    forall c | c in s[..n]
      ensures c != '\n'
    {
      var i :| 0 <= i < n && s[..n][i] == c;
    }
  }

  /** The indentation of a line: its leading run of spaces and tabs. */
  function Indent(l: string): (r: string)
    ensures AllIndent(r) && StartsWith(l, r)
    ensures r != l ==> !IsIndent(l[|r|])
    decreases |l|
  {
    if l != [] && IsIndent(l[0]) then [l[0]] + Indent(l[1..]) else []
  }

  /** The longest common prefix of two strings. */
  function CommonPrefix(a: string, b: string): (r: string)
    ensures StartsWith(a, r) && StartsWith(b, r)
    decreases |a|
  {
    if a != [] && b != [] && a[0] == b[0] then [a[0]] + CommonPrefix(a[1..], b[1..]) else []
  }

  /** Every common prefix of the two strings is a prefix of `CommonPrefix`. */
  lemma {:induction false} CommonPrefixLongest(a: string, b: string, p: string)
    requires StartsWith(a, p) && StartsWith(b, p)
    ensures StartsWith(CommonPrefix(a, b), p)
    decreases |a|
  {
    if p != [] {
      assert a[0] == p[0] == b[0];
      assert StartsWith(a[1..], p[1..]) && StartsWith(b[1..], p[1..]);
      CommonPrefixLongest(a[1..], b[1..], p[1..]);
    }
  }

  /** The margin `dedent` removes: the longest common prefix of the indentation of the lines that are
      not blank; `found` is false when every line is blank. */
  function Margin(ls: seq<string>): (r: (bool, string))
    decreases |ls|
  {
    if ls == [] then (false, "")
    else
      var rest := Margin(ls[1..]);
      if AllIndent(ls[0]) then rest
      else if rest.0 then (true, CommonPrefix(Indent(ls[0]), rest.1))
      else (true, Indent(ls[0]))
  }

  /** The margin is indentation that every non-blank line starts with, and it is the longest such:
      any indentation they all start with is part of it. */
  lemma {:induction false} MarginShared(ls: seq<string>)
    ensures AllIndent(Margin(ls).1)
    ensures Margin(ls).0 <==> exists i :: 0 <= i < |ls| && !AllIndent(ls[i])
    ensures forall i :: 0 <= i < |ls| && !AllIndent(ls[i]) ==> StartsWith(Indent(ls[i]), Margin(ls).1)
    ensures forall p :: ((forall i :: 0 <= i < |ls| && !AllIndent(ls[i]) ==> StartsWith(Indent(ls[i]), p))
                         && Margin(ls).0) ==> StartsWith(Margin(ls).1, p)
    decreases |ls|
  {
    if ls != [] {
      var rest := Margin(ls[1..]);
      MarginShared(ls[1..]);
      assert forall i :: 1 <= i < |ls| ==> ls[i] == ls[1..][i - 1];
      var m := Margin(ls).1;
      if !AllIndent(ls[0]) && rest.0 {
        var ind := Indent(ls[0]);
        assert forall i :: 0 <= i < |m| ==> m[i] == ind[i];
        forall i | 1 <= i < |ls| && !AllIndent(ls[i])
          ensures StartsWith(Indent(ls[i]), m)
        {
          assert StartsWith(Indent(ls[1..][i - 1]), rest.1);
          PrefixTrans(Indent(ls[i]), rest.1, m);
        }
        forall p | (forall i :: 0 <= i < |ls| && !AllIndent(ls[i]) ==> StartsWith(Indent(ls[i]), p))
          ensures StartsWith(m, p)
        {
          assert forall i :: 0 <= i < |ls[1..]| && !AllIndent(ls[1..][i]) ==> StartsWith(Indent(ls[1..][i]), p);
          CommonPrefixLongest(ind, rest.1, p);
        }
      }
    }
  }

  lemma PrefixTrans(a: string, b: string, c: string)
    requires StartsWith(a, b) && StartsWith(b, c)
    ensures StartsWith(a, c)
  {
    assert a[..|c|] == b[..|b|][..|c|];
  }

  /** One line as `dedent` leaves it: emptied when blank, otherwise without the margin. */
  function DedentLine(l: string, m: string): string
  {
    if AllIndent(l) then "" else if StartsWith(l, m) then l[|m|..] else l
  }

  function DedentLines(ls: seq<string>, m: string): (ds: seq<string>)
    ensures |ds| == |ls|
    decreases |ls|
  {
    if ls == [] then [] else [DedentLine(ls[0], m)] + DedentLines(ls[1..], m)
  }

  /** `textwrap.dedent(s)`: lines of only spaces and tabs become empty, and the margin is removed
      from the start of every other line. */
  function Dedent(s: string): string
  {
    var ls := Lines(s);
    Join("\n", DedentLines(ls, Margin(ls).1))
  }

  /** What `dedent` removes from a line is indentation in front of what it keeps. */
  lemma DedentLineSplit(l: string, m: string)
    requires AllIndent(m)
    ensures var d := DedentLine(l, m);
            |d| <= |l| && l == l[..|l| - |d|] + d && AllIndent(l[..|l| - |d|])
  {
    var d := DedentLine(l, m);
    if !AllIndent(l) && StartsWith(l, m) {
      assert l[..|l| - |d|] == m;
    }
  }

  lemma IndentBraceFree(w: string)
    requires AllIndent(w)
    ensures BraceFree(w) && '\n' !in w
  {
    forall c | c in w
      ensures c != '{' && c != '}' && c != '\n'
    {
      var i :| 0 <= i < |w| && w[i] == c;
    }
  }

  /** Scanning `t` as `Format` does never meets a `{` that opens a field without its `}`. */
  predicate FieldsClosed(t: string)
    decreases |t|
  {
    if t == [] then true
    else if t[0] == '{' then
      if |t| > 1 && t[1] == '{' then FieldsClosed(t[2..])
      else FirstIndex(t[1..], '}') < |t| - 1 && FieldsClosed(t[2 + FirstIndex(t[1..], '}')..])
    else if t[0] == '}' then |t| > 1 && t[1] == '}' ==> FieldsClosed(t[2..])
    else FieldsClosed(t[1..])
  }

  /** Every replacement field closes on the line it opens on; the last line may end inside one. */
  predicate FieldsWithinLines(t: string)
  {
    var ls := Lines(t);
    forall i :: 0 <= i < |ls| - 1 ==> FieldsClosed(ls[i])
  }

  /** Text without braces in front does not change whether the fields close. */
  lemma {:induction false} FieldsClosedSuffix(w: string, x: string)
    requires BraceFree(w) && FieldsClosed(w + x)
    ensures FieldsClosed(x)
    decreases |w|
  {
    if w != [] {
      assert w[0] in w;
      assert (w + x)[1..] == w[1..] + x;
      assert BraceFree(w[1..]) by {
        assert forall c :: c in w[1..] ==> c in w;
      }
      FieldsClosedSuffix(w[1..], x);
    } else {
      assert w + x == x;
    }
  }

  /** The first occurrence in a prefix is the first occurrence in the whole string. */
  lemma FirstIndexConcat(a: string, b: string, c: char)
    requires FirstIndex(a, c) < |a|
    ensures FirstIndex(a + b, c) == FirstIndex(a, c)
  {
    var r, r' := FirstIndex(a, c), FirstIndex(a + b, c);
    assert (a + b)[r] == c;
    if r' < r {
      assert (a + b)[r'] == a[r'];
    }
  }

  /** Formatting a line, a newline and the rest: the line's text, the newline and the rest's
      outcome, or the line's own failure. */
  function Joined(f: Formatted, g: Formatted): Formatted
  {
    match f
    case Formatted(a) => Prefixed(a + "\n", g)
    case _ => f
  }

  lemma PrefixedJoined(p: string, f: Formatted, g: Formatted)
    ensures Prefixed(p, Joined(f, g)) == Joined(Prefixed(p, f), g)
  {
    if f.Formatted? && g.Formatted? {
      assert p + (f.text + "\n" + g.text) == p + f.text + "\n" + g.text;
    }
  }

  /** A line whose fields all close is formatted on its own: what follows the newline cannot
      change it. */
  lemma {:induction false} FormatNewline(x: string, y: string, vals: map<string, string>)
    requires '\n' !in x && FieldsClosed(x)
    ensures Format(x + "\n" + y, vals) == Joined(Format(x, vals), Format(y, vals))
    decreases |x|, 1
  {
    var t := x + "\n" + y;
    if x == [] {
      assert t == "\n" + y && t[1..] == y;
      assert "" + "\n" == "\n";
    } else {
      assert forall k :: 0 < k <= |x| ==> '\n' !in x[k..] by {
        forall k | 0 < k <= |x| ensures '\n' !in x[k..] {
          assert forall c :: c in x[k..] ==> c in x;
        }
      }
      assert t[0] == x[0];
      if x[0] == '{' {
        if |x| > 1 && x[1] == '{' {
          assert t[1] == '{' && t[2..] == x[2..] + "\n" + y;
          FormatNewline(x[2..], y, vals);
          PrefixedJoined("{", Format(x[2..], vals), Format(y, vals));
        } else {
          FormatNewlineField(x, y, vals);
        }
      } else if x[0] == '}' {
        if |x| > 1 && x[1] == '}' {
          assert t[1] == '}' && t[2..] == x[2..] + "\n" + y;
          FormatNewline(x[2..], y, vals);
          PrefixedJoined("}", Format(x[2..], vals), Format(y, vals));
        } else {
          assert t[1] != '}';
        }
      } else {
        assert t[1..] == x[1..] + "\n" + y;
        FormatNewline(x[1..], y, vals);
        PrefixedJoined([x[0]], Format(x[1..], vals), Format(y, vals));
      }
    }
  }

  /** `FormatNewline` for a line that opens with a replacement field. */
  lemma {:induction false} FormatNewlineField(x: string, y: string, vals: map<string, string>)
    requires '\n' !in x && FieldsClosed(x)
    requires x != [] && x[0] == '{' && !(|x| > 1 && x[1] == '{')
    ensures Format(x + "\n" + y, vals) == Joined(Format(x, vals), Format(y, vals))
    decreases |x|, 0
  {
    var t := x + "\n" + y;
    assert t[0] == x[0];
    var j := FirstIndex(x[1..], '}');
    assert t[1..] == x[1..] + ("\n" + y);
    FirstIndexConcat(x[1..], "\n" + y, '}');
    assert t[1] == x[1];
    assert t[1..1 + j] == x[1..1 + j];
    assert t[2 + j..] == x[2 + j..] + "\n" + y;
    assert '\n' !in x[2 + j..] by {
      assert forall c :: c in x[2 + j..] ==> c in x;
    }
    FormatNewline(x[2 + j..], y, vals);
    var key := x[1..1 + j];
    if key != [] && '{' !in key && key in vals {
      PrefixedJoined(vals[key], Format(x[2 + j..], vals), Format(y, vals));
    }
  }

  /** Two outcomes of `Format` that agree on success, and on the error when there is one. */
  predicate SameOutcome(f: Formatted, g: Formatted)
  {
    f.Formatted? == g.Formatted? && (!f.Formatted? ==> f == g)
  }

  lemma {:induction false} FormatDedentLines(ls: seq<string>, m: string, vals: map<string, string>)
    requires |ls| >= 1 && AllIndent(m)
    requires forall i :: 0 <= i < |ls| ==> '\n' !in ls[i]
    requires forall i :: 0 <= i < |ls| - 1 ==> FieldsClosed(ls[i])
    ensures SameOutcome(Format(Join("\n", DedentLines(ls, m)), vals), Format(Join("\n", ls), vals))
    decreases |ls|
  {
    var l := ls[0];
    var d := DedentLine(l, m);
    var w := l[..|l| - |d|];
    DedentLineSplit(l, m);
    IndentBraceFree(w);
    FormatPlainPrefix(w, d, vals);
    var ds := DedentLines(ls, m);
    assert ds[0] == d && ds[1..] == DedentLines(ls[1..], m);
    if |ls| > 1 {
      assert forall i :: 1 <= i < |ls| ==> ls[1..][i - 1] == ls[i];
      FormatDedentLines(ls[1..], m, vals);
      FieldsClosedSuffix(w, d);
      assert '\n' !in d by {
        assert forall c :: c in d ==> c in l;
      }
      FormatNewline(l, Join("\n", ls[1..]), vals);
      FormatNewline(d, Join("\n", ds[1..]), vals);
    }
  }

  /** Dedenting a template whose fields close on their own lines changes neither whether it formats
      nor the error it raises: `dedent` only removes indentation, which lies outside every field. */
  lemma FormatDedent(t: string, vals: map<string, string>)
    requires FieldsWithinLines(t)
    ensures Format(Dedent(t), vals).Formatted? <==> Format(t, vals).Formatted?
    ensures !Format(t, vals).Formatted? ==> Format(Dedent(t), vals) == Format(t, vals)
  {
    var ls := Lines(t);
    LinesJoin(t);
    MarginShared(ls);
    FormatDedentLines(ls, Margin(ls).1, vals);
  }
}
