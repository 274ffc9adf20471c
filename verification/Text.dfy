/** The string operations the model needs: whitespace, stripping, case and splitting. */
module Text {
  /** `str.isspace` on one character, which `strip` and the regular expressions' `\s` share. */
  predicate IsSpace(c: char) {
    var n := c as int;
    || 9 <= n <= 13 || 28 <= n <= 32 || n == 0x85 || n == 0xA0 || n == 0x1680
    || 0x2000 <= n <= 0x200A || n == 0x2028 || n == 0x2029 || n == 0x202F || n == 0x205F || n == 0x3000
  }

  /** The number of leading whitespace characters. */
  function LeadingSpaces(s: string): (n: nat)
    ensures n <= |s| && (n < |s| ==> !IsSpace(s[n]))
    ensures forall i :: 0 <= i < n ==> IsSpace(s[i])
  {
    if s != [] && IsSpace(s[0]) then 1 + LeadingSpaces(s[1..]) else 0
  }

  function LStrip(s: string): (r: string)
    ensures r != [] ==> !IsSpace(r[0])
  {
    s[LeadingSpaces(s)..]
  }

  function RStrip(s: string): (r: string)
    ensures r <= s && (r != [] ==> !IsSpace(r[|r| - 1]))
    ensures forall i :: |r| <= i < |s| ==> IsSpace(s[i])
  {
    if s != [] && IsSpace(s[|s| - 1]) then RStrip(s[..|s| - 1]) else s
  }

  function Strip(s: string): string {
    RStrip(LStrip(s))
  }

  ghost predicate AllSpaces(s: string) {
    forall i :: 0 <= i < |s| ==> IsSpace(s[i])
  }

  lemma {:induction false} LStripCuts(before: string, rest: string)
    requires AllSpaces(before) && (rest != "" ==> !IsSpace(rest[0]))
    ensures LStrip(before + rest) == rest && LeadingSpaces(before + rest) == |before|
  {
    var s := before + rest;
    if before == "" {
      assert s == rest;
    } else {
      assert s[0] == before[0] && s[1..] == before[1..] + rest;
      LStripCuts(before[1..], rest);
    }
  }

  lemma {:induction false} RStripCuts(rest: string, after: string)
    requires AllSpaces(after) && (rest != "" ==> !IsSpace(rest[|rest| - 1]))
    ensures RStrip(rest + after) == rest
    decreases |after|
  {
    var s := rest + after;
    if after == "" {
      assert s == rest;
    } else {
      assert s[|s| - 1] == after[|after| - 1] && s[..|s| - 1] == rest + after[..|after| - 1];
      RStripCuts(rest, after[..|after| - 1]);
    }
  }

  /** Stripping takes the whitespace off both ends and nothing else. */
  lemma StripCuts(before: string, core: string, after: string)
    requires AllSpaces(before) && AllSpaces(after)
    requires core != "" && !IsSpace(core[0]) && !IsSpace(core[|core| - 1])
    ensures Strip(before + core + after) == core
  {
    assert before + core + after == before + (core + after);
    LStripCuts(before, core + after);
    RStripCuts(core, after);
  }

  /** What is left of a text that is not blank has no whitespace at its ends, and the rest was whitespace. */
  lemma StripLeaves(s: string) returns (before: string, after: string)
    requires Strip(s) != ""
    ensures s == before + Strip(s) + after && AllSpaces(before) && AllSpaces(after)
    ensures !IsSpace(Strip(s)[0]) && !IsSpace(Strip(s)[|Strip(s)| - 1])
  {
    var rest := LStrip(s);
    before, after := s[..LeadingSpaces(s)], rest[|Strip(s)|..];
    assert rest == Strip(s) + after && s == before + rest;
    assert rest[0] == Strip(s)[0];
  }

  /** Only blank text strips to nothing. */
  lemma BlankStrips(s: string)
    ensures Strip(s) == "" <==> AllSpaces(s)
  {
    if AllSpaces(s) {
      LStripCuts(s, "");
      assert s + "" == s;
    }
  }

  /** ASCII lower case: no other character folds to the letters looked for here. */
  function Lower(s: string): (r: string)
    ensures |r| == |s|
  {
    if s == [] then []
    else [if 'A' <= s[0] <= 'Z' then s[0] - 'A' + 'a' else s[0]] + Lower(s[1..])
  }

  /** Character by character; a character that is no capital stays. */
  lemma {:induction false} LowerMeans(s: string, i: nat)
    requires i < |s|
    ensures !('A' <= s[i] <= 'Z') ==> Lower(s)[i] == s[i]
    ensures 'A' <= s[i] <= 'Z' ==> Lower(s)[i] as int == s[i] as int + 32
  {
    if i > 0 {
      LowerMeans(s[1..], i - 1);
    }
  }

  const DUNDER := "__"

  /** Position of the first `__`, or the length. */
  function FirstDunder(s: string): (i: nat)
    ensures i <= |s| && (i < |s| ==> DUNDER <= s[i..])
  {
    if s == [] then 0 else if DUNDER <= s then 0 else 1 + FirstDunder(s[1..])
  }

  /** `s.split("__")`. */
  function SplitDunder(s: string): (parts: seq<string>)
    ensures |parts| >= 1
    decreases |s|
  {
    var i := FirstDunder(s);
    if i == |s| then [s] else [s[..i]] + SplitDunder(s[i + 2..])
  }

  ghost predicate NoDunder(s: string) {
    forall i :: 0 <= i < |s| - 1 ==> !(s[i] == '_' && s[i + 1] == '_')
  }

  /** A first segment without `__`, and not ending in `_`, is cut off exactly. */
  lemma {:induction false} DunderAfter(head: string, tail: string)
    requires NoDunder(head) && (head != [] ==> head[|head| - 1] != '_')
    ensures FirstDunder(head + DUNDER + tail) == |head|
  {
    var s := head + DUNDER + tail;
    if head == [] {
      assert s == DUNDER + tail;
    } else {
      assert s[1..] == head[1..] + DUNDER + tail;
      forall i | 0 <= i < |head[1..]| - 1 ensures !(head[1..][i] == '_' && head[1..][i + 1] == '_') {
        assert head[1..][i] == head[i + 1];
      }
      DunderAfter(head[1..], tail);
      assert s[0] == head[0] && (|head| > 1 ==> s[1] == head[1]);
    }
  }

  lemma {:induction false} NoDunderToFind(s: string)
    requires NoDunder(s)
    ensures FirstDunder(s) == |s|
  {
    if s != [] {
      forall i | 0 <= i < |s[1..]| - 1 ensures !(s[1..][i] == '_' && s[1..][i + 1] == '_') {
        assert s[1..][i] == s[i + 1];
      }
      NoDunderToFind(s[1..]);
      assert |s| > 1 ==> !(s[0] == '_' && s[1] == '_');
    }
  }

  lemma {:induction false} SplitHead(head: string, tail: string)
    requires NoDunder(head) && (head != [] ==> head[|head| - 1] != '_')
    ensures SplitDunder(head + DUNDER + tail) == [head] + SplitDunder(tail)
  {
    DunderAfter(head, tail);
    var s := head + DUNDER + tail;
    assert s[..|head|] == head && s[|head| + 2..] == tail;
  }
}
