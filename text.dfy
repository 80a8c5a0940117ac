/**
 * The `java.lang.String` operations the integration uses, on strings as
 * sequences of characters: `indexOf`, `contains`, `trim`, and the helper
 * `repeatString` that draws the report banners.
 */
module Text {

  /** `pat` occurs in `s` starting at position `i`. */
  predicate OccursAt(s: string, pat: string, i: int) {
    0 <= i && i + |pat| <= |s| && s[i..i + |pat|] == pat
  }

  /**
   * `s.indexOf(pat, from)`: the first position at or after `from` where
   * `pat` occurs, or -1 when there is none.
   */
  function IndexOf(s: string, pat: string, from: nat): (r: int)
    ensures r == -1 || (from <= r && OccursAt(s, pat, r))
    decreases |s| - from
  {
    if from + |pat| > |s| then -1
    else if OccursAt(s, pat, from) then from
    else IndexOf(s, pat, from + 1)
  }

  /** An occurrence at `k` is found by a search from `from`, at `k` or earlier. */
  lemma {:induction false} IndexOfFindsEarlier(s: string, pat: string, from: nat, k: int)
    requires from <= k && OccursAt(s, pat, k)
    ensures from <= IndexOf(s, pat, from) <= k
    decreases k - from
  {
    if !OccursAt(s, pat, from) {
      IndexOfFindsEarlier(s, pat, from + 1, k);
    }
  }

  /** The search finds exactly the first occurrence at or after `from`. */
  lemma IndexOfFirst(s: string, pat: string, from: nat, k: int)
    requires from <= k && OccursAt(s, pat, k)
    requires forall i :: from <= i < k ==> !OccursAt(s, pat, i)
    ensures IndexOf(s, pat, from) == k
  {
    IndexOfFindsEarlier(s, pat, from, k);
  }

  /** A one-character pattern occurs exactly where that character stands. */
  lemma OccursAtChar(s: string, c: char, i: int)
    ensures OccursAt(s, [c], i) <==> 0 <= i < |s| && s[i] == c
  {
    if 0 <= i < |s| {
      assert s[i..i + 1] == [s[i]];
    }
  }

  /** `s.contains(t)`. */
  predicate Contains(s: string, t: string) {
    IndexOf(s, t, 0) != -1
  }

  /** `s.contains(t)` holds exactly when `t` occurs somewhere in `s`. */
  lemma ContainsOccurs(s: string, t: string, k: int)
    requires OccursAt(s, t, k)
    ensures Contains(s, t)
  {
    IndexOfFindsEarlier(s, t, 0, k);
  }

  /** The characters `String.trim` strips: code points up to U+0020. */
  predicate IsSpace(c: char) {
    c <= ' '
  }

  /** Neither end of `s` is a strippable character. */
  predicate Trimmed(s: string) {
    s == [] || (!IsSpace(s[0]) && !IsSpace(s[|s| - 1]))
  }

  /** `s` with its leading strippable characters removed. */
  function TrimStart(s: string): (r: string)
    ensures |r| <= |s|
  {
    if s != [] && IsSpace(s[0]) then TrimStart(s[1..]) else s
  }

  /** Only leading strippable characters go: what remains is a suffix that starts with a kept character. */
  lemma {:induction false} TrimStartSuffix(s: string)
    ensures |TrimStart(s)| <= |s| && TrimStart(s) == s[|s| - |TrimStart(s)|..]
    ensures TrimStart(s) != [] ==> !IsSpace(TrimStart(s)[0])
    ensures forall i :: 0 <= i < |s| - |TrimStart(s)| ==> IsSpace(s[i])
  {
    if s != [] && IsSpace(s[0]) {
      TrimStartSuffix(s[1..]);
      assert s[1..][|s| - 1 - |TrimStart(s)|..] == s[|s| - |TrimStart(s)|..];
    }
  }

  /** `s` with its trailing strippable characters removed. */
  function TrimEnd(s: string): (r: string)
    ensures |r| <= |s|
  {
    if s != [] && IsSpace(s[|s| - 1]) then TrimEnd(s[..|s| - 1]) else s
  }

  /** Only trailing strippable characters go: what remains is a prefix that ends with a kept character. */
  lemma {:induction false} TrimEndPrefix(s: string)
    ensures |TrimEnd(s)| <= |s| && TrimEnd(s) == s[..|TrimEnd(s)|]
    ensures TrimEnd(s) != [] ==> !IsSpace(TrimEnd(s)[|TrimEnd(s)| - 1])
    ensures forall i :: |TrimEnd(s)| <= i < |s| ==> IsSpace(s[i])
  {
    if s != [] && IsSpace(s[|s| - 1]) {
      TrimEndPrefix(s[..|s| - 1]);
      assert s[..|s| - 1][..|TrimEnd(s)|] == s[..|TrimEnd(s)|];
    }
  }

  /**
   * `s.trim()`: the slice of `s` left once strippable characters are removed
   * from both ends.
   */
  function Trim(s: string): string
  {
    TrimEnd(TrimStart(s))
  }

  /**
   * The trimmed text is a slice of `s` with no strippable character at
   * either end, and everything cut off is strippable.
   */
  lemma TrimSlice(s: string)
    ensures Trimmed(Trim(s))
    ensures var a := |s| - |TrimStart(s)|;
            a + |Trim(s)| <= |s| && Trim(s) == s[a..a + |Trim(s)|]
            && (forall i :: 0 <= i < a ==> IsSpace(s[i]))
            && (forall i :: a + |Trim(s)| <= i < |s| ==> IsSpace(s[i]))
  {
    var t := TrimStart(s);
    var r := TrimEnd(t);
    TrimStartSuffix(s);
    TrimEndPrefix(t);
    var a := |s| - |t|;
    if r != [] {
      assert r[0] == t[0];
    }
    assert r == s[a..a + |r|];
    forall i | a + |r| <= i < |s|
      ensures IsSpace(s[i])
    {
      assert s[i] == t[i - a];
    }
  }

  /** Trimming only removes characters: one absent from `s` is absent from `s.trim()`. */
  lemma TrimAbsent(s: string, c: char)
    requires c !in s
    ensures c !in Trim(s)
  {
    TrimSlice(s);
    var a := |s| - |TrimStart(s)|;
    var r := Trim(s);
    forall k | 0 <= k < |r|
      ensures r[k] != c
    {
      assert r[k] == s[a + k];
    }
  }

  /** Trimming a string that is already trimmed leaves it unchanged. */
  lemma TrimTrimmed(s: string)
    requires Trimmed(s)
    ensures Trim(s) == s
  {
    assert TrimStart(s) == s;
  }

  /** Trimming twice is trimming once. */
  lemma TrimIdempotent(s: string)
    ensures Trim(Trim(s)) == Trim(s)
  {
    TrimSlice(s);
    TrimTrimmed(Trim(s));
  }

  /** Every character of `s` is strippable. */
  predicate Blank(s: string) {
    forall i :: 0 <= i < |s| ==> IsSpace(s[i])
  }

  /** Leading strippable characters make no difference to `TrimStart`. */
  lemma {:induction false} TrimStartBlank(ws: string, t: string)
    requires Blank(ws)
    ensures TrimStart(ws + t) == TrimStart(t)
  {
    if ws != [] {
      var s := ws + t;
      var w := ws[1..];
      assert s[0] == ws[0] && IsSpace(s[0]);
      assert s[1..] == w + t;
      assert TrimStart(s) == TrimStart(w + t);
      assert Blank(w) by {
        forall i | 0 <= i < |w|
          ensures IsSpace(w[i])
        {
          assert w[i] == ws[i + 1];
        }
      }
      TrimStartBlank(w, t);
    } else {
      assert ws + t == t;
    }
  }

  /** Trailing strippable characters make no difference to `TrimEnd`. */
  lemma {:induction false} TrimEndBlank(t: string, ws: string)
    requires Blank(ws)
    ensures TrimEnd(t + ws) == TrimEnd(t)
  {
    if ws != [] {
      var s := t + ws;
      var w := ws[..|ws| - 1];
      assert s[|s| - 1] == ws[|ws| - 1] && IsSpace(s[|s| - 1]);
      assert s[..|s| - 1] == t + w;
      assert TrimEnd(s) == TrimEnd(t + w);
      assert Blank(w) by {
        forall i | 0 <= i < |w|
          ensures IsSpace(w[i])
        {
          assert w[i] == ws[i];
        }
      }
      TrimEndBlank(t, w);
    } else {
      assert t + ws == t;
    }
  }

  /** A trimmed text padded with strippable characters on either side trims back to itself. */
  lemma TrimPadded(ws1: string, text: string, ws2: string)
    requires Blank(ws1) && Trimmed(text) && Blank(ws2)
    ensures Trim(ws1 + text + ws2) == text
  {
    assert ws1 + text + ws2 == ws1 + (text + ws2);
    TrimStartBlank(ws1, text + ws2);
    if text == [] {
      assert text + ws2 == ws2 + [];
      TrimStartBlank(ws2, []);
    } else {
      assert TrimStart(text + ws2) == text + ws2;
      TrimEndBlank(text, ws2);
      TrimTrimmed(text);
    }
  }

  /** `count` copies of `s` laid end to end (none when `count` <= 0). */
  function Repeat(s: string, count: int): string
    decreases count
  {
    if count <= 0 then [] else Repeat(s, count - 1) + s
  }

  /** The repetition is `count` times as long as `s`. */
  lemma {:induction false} RepeatLength(s: string, count: nat)
    ensures |Repeat(s, count)| == count * |s|
  {
    if count > 0 {
      RepeatLength(s, count - 1);
    }
  }

  /** Scaling both sides of `a <= b` by the same length. */
  lemma {:induction false} MulMonotonic(a: nat, b: nat, n: nat)
    requires a <= b
    ensures a * n <= b * n
  {
    if a < b {
      MulMonotonic(a, b - 1, n);
    }
  }

  /** Every block of `|s|` characters of the repetition is `s` itself. */
  lemma {:induction false} RepeatBlock(s: string, count: nat, k: nat)
    requires k < count
    ensures |Repeat(s, count)| == count * |s|
    ensures Repeat(s, count)[k * |s|..(k + 1) * |s|] == s
  {
    RepeatLength(s, count);
    RepeatLength(s, count - 1);
    var r := Repeat(s, count - 1);
    var lo := k * |s|;
    var hi := (k + 1) * |s|;
    assert hi == lo + |s|;
    if k < count - 1 {
      RepeatBlock(s, count - 1, k);
      MulMonotonic(k + 1, count - 1, |s|);
      assert (r + s)[lo..hi] == r[lo..hi];
    } else {
      assert lo == |r|;
      assert (r + s)[lo..hi] == s;
    }
  }

  /** A repeated single character: every position holds that character. */
  lemma {:induction false} RepeatChar(c: char, count: nat, i: nat)
    requires i < count
    ensures |Repeat([c], count)| == count && Repeat([c], count)[i] == c
  {
    RepeatBlock([c], count, i);
  }

  /** `repeatString(str, count)`: appends `str` to a builder `count` times. */
  method RepeatString(str: string, count: int) returns (r: string)
    ensures r == Repeat(str, count)
    ensures count >= 0 ==> |r| == count * |str|
  {
    var sb: string := [];
    var i := 0;
    while i < count
      invariant 0 <= i && (count >= 0 ==> i <= count) && (count < 0 ==> i == 0)
      invariant sb == Repeat(str, i)
    {
      sb := sb + str;
      i := i + 1;
    }
    if count >= 0 {
      RepeatLength(str, count);
    }
    r := sb;
  }
}
