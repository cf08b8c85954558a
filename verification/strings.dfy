/** The JavaScript string operations the modelled code relies on: `trim`,
    `split(/\s+/)`, `join`, ASCII `toLowerCase`/`toUpperCase`, `includes`,
    `startsWith`, decimal `toString` and `padStart`. Strings are sequences of
    characters; `\s` and `trim` use the same whitespace set. */
module Strings {

  /** The characters JavaScript's `\s` class and `String.prototype.trim` treat as
      whitespace (WhiteSpace and LineTerminator of ECMAScript). */
  predicate IsSpace(c: char) {
    || c == ' ' || c == '\t' || c == '\n' || c == '\r'
    || c == '\U{000B}' || c == '\U{000C}' || c == '\U{00A0}' || c == '\U{1680}'
    || ('\U{2000}' <= c <= '\U{200A}')
    || c == '\U{2028}' || c == '\U{2029}' || c == '\U{202F}' || c == '\U{205F}'
    || c == '\U{3000}' || c == '\U{FEFF}'
  }

  predicate AllSpace(s: string) {
    forall i :: 0 <= i < |s| ==> IsSpace(s[i])
  }

  predicate NoSpace(s: string) {
    forall i :: 0 <= i < |s| ==> !IsSpace(s[i])
  }

  /** Non-empty tokens without whitespace: what splitting a trimmed, non-blank line yields. */
  predicate Words(ts: seq<string>) {
    forall i :: 0 <= i < |ts| ==> ts[i] != "" && NoSpace(ts[i])
  }

  /** Number of whitespace characters at the front of `s`. */
  function LeadingSpaces(s: string): (n: nat)
    ensures n <= |s|
    ensures AllSpace(s[..n])
    ensures n < |s| ==> !IsSpace(s[n])
  {
    if s == [] || !IsSpace(s[0]) then 0
    else
      var n := 1 + LeadingSpaces(s[1..]);
      assert s[..n] == [s[0]] + s[1..][..n - 1];
      n
  }

  /** Number of whitespace characters at the end of `s`. */
  function TrailingSpaces(s: string): (n: nat)
    ensures n <= |s|
    ensures AllSpace(s[|s| - n..])
    ensures n < |s| ==> !IsSpace(s[|s| - 1 - n])
  {
    if s == [] || !IsSpace(s[|s| - 1]) then 0
    else
      var init := s[..|s| - 1];
      var n := 1 + TrailingSpaces(init);
      assert s[|s| - n..] == init[|init| - (n - 1)..] + [s[|s| - 1]];
      n
  }

  /** `s.trim()`: `s` without its leading and trailing whitespace. */
  function Trim(s: string): (r: string)
    ensures r == [] <==> AllSpace(s)
    ensures r != [] ==> !IsSpace(r[0]) && !IsSpace(r[|r| - 1])
    ensures exists i :: 0 <= i <= |s| - |r| && r == s[i..i + |r|]
                        && AllSpace(s[..i]) && AllSpace(s[i + |r|..])
  {
    var a := LeadingSpaces(s);
    var t := s[a..];
    var r := t[..|t| - TrailingSpaces(t)];
    TrimSlice(s, a, t, r);
    TrimBlank(s, a, t, r);
    TrimEnds(s, a, t, r);
    r
  }

  lemma TrimSlice(s: string, a: nat, t: string, r: string)
    requires a == LeadingSpaces(s) && t == s[a..] && r == t[..|t| - TrailingSpaces(t)]
    ensures r == s[a..a + |r|] && AllSpace(s[..a]) && AllSpace(s[a + |r|..])
  {
    assert s[a + |r|..] == t[|t| - TrailingSpaces(t)..];
  }

  lemma TrimBlank(s: string, a: nat, t: string, r: string)
    requires a == LeadingSpaces(s) && t == s[a..] && r == t[..|t| - TrailingSpaces(t)]
    ensures r == [] <==> AllSpace(s)
  {
    if r == [] {
      assert t == t[|t| - TrailingSpaces(t)..];
      AllSpaceConcat(s[..a], t);
      assert s == s[..a] + t;
    } else {
      assert a < |s| && !IsSpace(s[a]);
    }
  }

  lemma TrimEnds(s: string, a: nat, t: string, r: string)
    requires a == LeadingSpaces(s) && t == s[a..] && r == t[..|t| - TrailingSpaces(t)]
    ensures r != [] ==> !IsSpace(r[0]) && !IsSpace(r[|r| - 1])
  {
    if r != [] {
      assert r[0] == s[a];
      assert r[|r| - 1] == t[|t| - 1 - TrailingSpaces(t)];
    }
  }

  lemma AllSpaceConcat(x: string, y: string)
    requires AllSpace(x) && AllSpace(y)
    ensures AllSpace(x + y)
  {
  }

  /** Trimming is idempotent. */
  lemma TrimIdempotent(s: string)
    ensures Trim(Trim(s)) == Trim(s)
  {
    var r := Trim(s);
    assert LeadingSpaces(r) == 0;
    assert TrailingSpaces(r) == 0;
    assert r[..|r|] == r;
  }

  /** The longest prefix of `s` that holds no whitespace. */
  function Word(s: string): (w: string)
    ensures |w| <= |s| && w == s[..|w|]
    ensures NoSpace(w)
    ensures |w| < |s| ==> IsSpace(s[|w|])
  {
    if s == [] || IsSpace(s[0]) then ""
    else
      var w := [s[0]] + Word(s[1..]);
      assert s[..|w|] == [s[0]] + s[1..][..|w| - 1];
      w
  }

  /** `s.split(/\s+/)`: the pieces of `s` between runs of whitespace, in order. Like
      JavaScript, a leading run gives an empty first piece and a trailing run an empty
      last piece; the empty string gives `[""]`. */
  function SplitOnSpaceRuns(s: string): (ts: seq<string>)
    ensures |ts| >= 1
    decreases |s|
  {
    var w := Word(s);
    var rest := s[|w|..];
    if rest == [] then [w]
    else
      assert IsSpace(rest[0]);
      [w] + SplitOnSpaceRuns(rest[LeadingSpaces(rest)..])
  }

  /** `ts.join(sep)`: an empty list joins to "". */
  function Join(ts: seq<string>, sep: string): (r: string)
    ensures |ts| == 1 ==> r == ts[0]
  {
    if |ts| == 0 then ""
    else if |ts| == 1 then ts[0]
    else ts[0] + sep + Join(ts[1..], sep)
  }

  /** Concatenation of all pieces, with no separator. */
  function Concat(ts: seq<string>): string {
    if ts == [] then "" else ts[0] + Concat(ts[1..])
  }

  /** The non-whitespace characters of `s`, in order. */
  function NonSpaces(s: string): string {
    if s == [] then ""
    else if IsSpace(s[0]) then NonSpaces(s[1..])
    else [s[0]] + NonSpaces(s[1..])
  }

  lemma {:induction false} NonSpacesAppend(a: string, b: string)
    ensures NonSpaces(a + b) == NonSpaces(a) + NonSpaces(b)
  {
    if a != [] {
      assert (a + b)[1..] == a[1..] + b;
      NonSpacesAppend(a[1..], b);
    } else {
      assert a + b == b;
    }
  }

  lemma {:induction false} NonSpacesOfNoSpace(s: string)
    requires NoSpace(s)
    ensures NonSpaces(s) == s
  {
    if s != [] { NonSpacesOfNoSpace(s[1..]); }
  }

  lemma {:induction false} NonSpacesOfAllSpace(s: string)
    requires AllSpace(s)
    ensures NonSpaces(s) == ""
  {
    if s != [] { NonSpacesOfAllSpace(s[1..]); }
  }

  /** Splitting loses only whitespace: the pieces, put back together, are exactly the
      non-whitespace characters of the input, in their original order and case. */
  lemma {:induction false} SplitKeepsEveryOtherCharacter(s: string)
    ensures Concat(SplitOnSpaceRuns(s)) == NonSpaces(s)
    decreases |s|
  {
    var w := Word(s);
    var rest := s[|w|..];
    NonSpacesOfWordAndRest(s, w, rest);
    if rest == [] {
      assert SplitOnSpaceRuns(s) == [w];
      assert Concat([w]) == w + Concat([]);
    } else {
      var tail := rest[LeadingSpaces(rest)..];
      NonSpacesAfterRun(rest, tail);
      SplitKeepsEveryOtherCharacter(tail);
      assert SplitOnSpaceRuns(s) == [w] + SplitOnSpaceRuns(tail);
      ConcatCons(w, SplitOnSpaceRuns(tail));
    }
  }

  lemma NonSpacesOfWordAndRest(s: string, w: string, rest: string)
    requires w == Word(s) && rest == s[|w|..]
    ensures NonSpaces(s) == w + NonSpaces(rest)
  {
    assert s == w + rest;
    NonSpacesAppend(w, rest);
    NonSpacesOfNoSpace(w);
  }

  lemma NonSpacesAfterRun(rest: string, tail: string)
    requires tail == rest[LeadingSpaces(rest)..]
    ensures NonSpaces(rest) == NonSpaces(tail)
  {
    var n := LeadingSpaces(rest);
    assert rest == rest[..n] + tail;
    NonSpacesAppend(rest[..n], tail);
    NonSpacesOfAllSpace(rest[..n]);
  }

  lemma ConcatCons(w: string, ts: seq<string>)
    ensures Concat([w] + ts) == w + Concat(ts)
  {
    assert ([w] + ts)[1..] == ts;
  }

  /** Splitting a trimmed, non-blank string yields only non-empty, whitespace-free tokens. */
  lemma {:induction false} SplitTrimmedGivesWords(s: string)
    requires s != [] && !IsSpace(s[0]) && !IsSpace(s[|s| - 1])
    ensures Words(SplitOnSpaceRuns(s))
    decreases |s|
  {
    var w := Word(s);
    var rest := s[|w|..];
    assert w != "";
    if rest != [] {
      var n := LeadingSpaces(rest);
      var tail := rest[n..];
      assert rest[|rest| - 1] == s[|s| - 1];
      assert tail != [];
      assert tail[0] == rest[n] && tail[|tail| - 1] == s[|s| - 1];
      SplitTrimmedGivesWords(tail);
    }
  }

  /** Separators made of one or more whitespace characters. */
  predicate SpaceRuns(seps: seq<string>) {
    forall i :: 0 <= i < |seps| ==> seps[i] != "" && AllSpace(seps[i])
  }

  /** The words `ws` written out with the whitespace run `seps[i]` between
      `ws[i]` and `ws[i + 1]`. */
  function Interleave(ws: seq<string>, seps: seq<string>): string
    requires |ws| >= 1 && |seps| == |ws| - 1
  {
    if |ws| == 1 then ws[0] else ws[0] + seps[0] + Interleave(ws[1..], seps[1..])
  }

  /** Joining with single spaces is interleaving with one-space runs. */
  lemma {:induction false} JoinIsInterleave(ws: seq<string>)
    requires |ws| >= 1
    ensures Join(ws, " ") == Interleave(ws, seq(|ws| - 1, _ => " "))
  {
    if |ws| > 1 {
      JoinIsInterleave(ws[1..]);
      assert seq(|ws| - 1, _ => " ")[1..] == seq(|ws| - 2, _ => " ");
    }
  }

  /** Splitting undoes interleaving words with whitespace runs of any length: runs
      collapse and only the words come back, in order. */
  lemma {:induction false} SplitInterleaveRoundTrip(ws: seq<string>, seps: seq<string>)
    requires |ws| >= 1 && |seps| == |ws| - 1 && Words(ws) && SpaceRuns(seps)
    ensures SplitOnSpaceRuns(Interleave(ws, seps)) == ws
    decreases |ws|
  {
    if |ws| == 1 {
      WordOfNoSpace(ws[0], "");
      assert ws[0] + "" == ws[0];
    } else {
      var tail := Interleave(ws[1..], seps[1..]);
      assert Interleave(ws, seps) == ws[0] + (seps[0] + tail);
      InterleaveStartsWithFirst(ws[1..], seps[1..]);
      SplitWordRunTail(ws[0], seps[0], tail);
      SplitInterleaveRoundTrip(ws[1..], seps[1..]);
    }
  }

  /** A word, a whitespace run, and a tail starting with a non-space split into the word
      followed by the tail's pieces. */
  lemma SplitWordRunTail(w: string, run: string, tail: string)
    requires w != "" && NoSpace(w) && run != "" && AllSpace(run)
    requires tail != [] && !IsSpace(tail[0])
    ensures SplitOnSpaceRuns(w + (run + tail)) == [w] + SplitOnSpaceRuns(tail)
  {
    var s := w + (run + tail);
    WordOfNoSpace(w, run + tail);
    assert s[|w|..] == run + tail;
    LeadingSpacesOfRun(run, tail);
    assert (run + tail)[|run|..] == tail;
  }

  lemma {:induction false} LeadingSpacesOfRun(run: string, tail: string)
    requires AllSpace(run)
    requires tail == [] || !IsSpace(tail[0])
    ensures LeadingSpaces(run + tail) == |run|
  {
    if run != [] {
      assert (run + tail)[1..] == run[1..] + tail;
      LeadingSpacesOfRun(run[1..], tail);
    } else {
      assert run + tail == tail;
    }
  }

  lemma InterleaveStartsWithFirst(ws: seq<string>, seps: seq<string>)
    requires |ws| >= 1 && |seps| == |ws| - 1 && ws[0] != ""
    ensures Interleave(ws, seps) != [] && Interleave(ws, seps)[0] == ws[0][0]
  {
  }

  /** Splitting on whitespace undoes joining words with single spaces. */
  lemma SplitJoinRoundTrip(ws: seq<string>)
    requires |ws| >= 1 && Words(ws)
    ensures SplitOnSpaceRuns(Join(ws, " ")) == ws
  {
    var seps := seq(|ws| - 1, _ => " ");
    JoinIsInterleave(ws);
    SplitInterleaveRoundTrip(ws, seps);
  }

  /** Trimming removes exactly the whitespace padding around a string that starts
      and ends with a non-whitespace character. */
  lemma {:induction false} TrimPadded(pre: string, x: string, post: string)
    requires AllSpace(pre) && AllSpace(post)
    requires x != [] && !IsSpace(x[0]) && !IsSpace(x[|x| - 1])
    ensures Trim(pre + x + post) == x
  {
    var s := pre + x + post;
    LeadingSpacesOfRun(pre, x + post);
    assert s == pre + (x + post);
    var t := s[|pre|..];
    assert t == x + post;
    TrailingSpacesOfRun(x, post);
  }

  lemma {:induction false} TrailingSpacesOfRun(x: string, run: string)
    requires AllSpace(run)
    requires x == [] || !IsSpace(x[|x| - 1])
    ensures TrailingSpaces(x + run) == |run|
    decreases |run|
  {
    if run != [] {
      var init := (x + run)[..|x + run| - 1];
      assert init == x + run[..|run| - 1];
      TrailingSpacesOfRun(x, run[..|run| - 1]);
    } else {
      assert x + run == x;
    }
  }

  /** The first word of `w + rest` is `w` when `w` is whitespace-free and `rest` is
      empty or starts with whitespace. */
  lemma {:induction false} WordOfNoSpace(w: string, rest: string)
    requires NoSpace(w)
    requires rest == [] || IsSpace(rest[0])
    ensures Word(w + rest) == w
  {
    if w != [] {
      assert (w + rest)[1..] == w[1..] + rest;
      WordOfNoSpace(w[1..], rest);
    } else {
      assert w + rest == rest;
    }
  }

  /** ASCII case mapping of one character. */
  function LowerChar(c: char): (d: char)
    ensures 'A' <= c <= 'Z' ==> d as int == c as int + 32
    ensures !('A' <= c <= 'Z') ==> d == c
  {
    if 'A' <= c <= 'Z' then (c as int + 32) as char else c
  }

  function UpperChar(c: char): (d: char)
    ensures 'a' <= c <= 'z' ==> d as int == c as int - 32
    ensures !('a' <= c <= 'z') ==> d == c
  {
    if 'a' <= c <= 'z' then (c as int - 32) as char else c
  }

  /** `s.toLowerCase()`, restricted to ASCII letters. */
  function ToLower(s: string): (r: string)
    ensures |r| == |s|
    ensures forall i :: 0 <= i < |s| ==> r[i] == LowerChar(s[i])
  {
    seq(|s|, i requires 0 <= i < |s| => LowerChar(s[i]))
  }

  /** `s.toUpperCase()`, restricted to ASCII letters. */
  function ToUpper(s: string): (r: string)
    ensures |r| == |s|
    ensures forall i :: 0 <= i < |s| ==> r[i] == UpperChar(s[i])
  {
    seq(|s|, i requires 0 <= i < |s| => UpperChar(s[i]))
  }

  /** Lower-casing forgets any earlier upper-casing: `s` and its upper-case variant
      lower-case to the same string. */
  lemma LowerOfUpper(s: string)
    ensures ToLower(ToUpper(s)) == ToLower(s)
  {
    forall i | 0 <= i < |s|
      ensures ToLower(ToUpper(s))[i] == ToLower(s)[i]
    {
      var c := s[i];
      assert ToUpper(s)[i] == UpperChar(c);
      if 'a' <= c <= 'z' {
        assert LowerChar(UpperChar(c)) == c;
      }
    }
  }

  /** A string without upper-case ASCII letters is its own lower-case form. */
  lemma LowerOfNoUpper(s: string)
    requires forall i :: 0 <= i < |s| ==> !('A' <= s[i] <= 'Z')
    ensures ToLower(s) == s
  {
    forall i | 0 <= i < |s|
      ensures ToLower(s)[i] == s[i]
    {
    }
  }

  predicate StartsWith(s: string, prefix: string) {
    |prefix| <= |s| && s[..|prefix|] == prefix
  }

  /** `s.includes(sub)`. */
  predicate Contains(s: string, sub: string)
    decreases |s|
  {
    StartsWith(s, sub) || (s != [] && Contains(s[1..], sub))
  }

  /** `sub` occurs in `s` starting at position `i`. */
  predicate OccursAt(s: string, sub: string, i: int) {
    0 <= i <= |s| - |sub| && s[i..i + |sub|] == sub
  }

  /** `Contains` agrees with the positional definition of an occurrence. */
  lemma {:induction false} ContainsAt(s: string, sub: string)
    ensures Contains(s, sub) <==> exists i :: OccursAt(s, sub, i)
    decreases |s|
  {
    if StartsWith(s, sub) {
      assert OccursAt(s, sub, 0);
    } else if s == [] {
    } else {
      ContainsAt(s[1..], sub);
      if exists i :: OccursAt(s, sub, i) {
        var i :| OccursAt(s, sub, i);
        assert i != 0;
        assert OccursAt(s[1..], sub, i - 1) by {
          assert s[1..][i - 1..i - 1 + |sub|] == s[i..i + |sub|];
        }
      }
      if Contains(s[1..], sub) {
        var j :| OccursAt(s[1..], sub, j);
        assert OccursAt(s, sub, j + 1) by {
          assert s[1..][j..j + |sub|] == s[j + 1..j + 1 + |sub|];
        }
      }
    }
  }

  /** Every character of a contained string occurs in the containing one. */
  lemma {:induction false} ContainsChar(s: string, sub: string, k: int)
    requires Contains(s, sub) && 0 <= k < |sub|
    ensures sub[k] in s
    decreases |s|
  {
    if StartsWith(s, sub) {
      assert s[k] == sub[k];
    } else {
      ContainsChar(s[1..], sub, k);
      assert sub[k] in s[1..];
    }
  }

  /** A string contains itself inside any larger string built around it. */
  lemma {:induction false} ContainsInside(a: string, sub: string, b: string)
    ensures Contains(a + sub + b, sub)
    decreases |a|
  {
    if a == [] {
      assert a + sub + b == sub + b;
      assert (sub + b)[..|sub|] == sub;
    } else {
      assert (a + sub + b)[1..] == a[1..] + sub + b;
      ContainsInside(a[1..], sub, b);
    }
  }

  function DigitChar(d: nat): (c: char)
    requires d < 10
    ensures '0' <= c <= '9'
  {
    ('0' as int + d) as char
  }

  function DigitValue(c: char): nat
    requires '0' <= c <= '9'
  {
    c as int - '0' as int
  }

  predicate AllDigits(s: string) {
    forall i :: 0 <= i < |s| ==> '0' <= s[i] <= '9'
  }

  /** `n.toString()` for a non-negative integer: its decimal digits, no leading zero. */
  function Decimal(n: nat): (s: string)
    ensures s != [] && AllDigits(s)
    ensures |s| == 1 <==> n < 10
    ensures |s| > 1 ==> s[0] != '0'
  {
    if n < 10 then [DigitChar(n)]
    else
      var s := Decimal(n / 10) + [DigitChar(n % 10)];
      assert s[0] == Decimal(n / 10)[0];
      s
  }

  /** Reads a string of decimal digits back into its value. */
  function ParseDecimal(s: string): nat
    requires AllDigits(s)
  {
    if s == [] then 0
    else ParseDecimal(s[..|s| - 1]) * 10 + DigitValue(s[|s| - 1])
  }

  /** Reading back the decimal text of a number gives the number. */
  lemma {:induction false} DecimalRoundTrip(n: nat)
    ensures ParseDecimal(Decimal(n)) == n
  {
    if n >= 10 {
      var s := Decimal(n);
      assert s[..|s| - 1] == Decimal(n / 10);
      DecimalRoundTrip(n / 10);
    }
  }

  /** `s.padStart(width, fill)` for a one-character fill. */
  function PadStart(s: string, width: nat, fill: char): (r: string)
    ensures |r| == if |s| >= width then |s| else width
    ensures r[|r| - |s|..] == s
    ensures forall i :: 0 <= i < |r| - |s| ==> r[i] == fill
  {
    if |s| >= width then s else seq(width - |s|, _ => fill) + s
  }
}
