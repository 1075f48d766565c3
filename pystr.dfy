/** The Python 3 `str` operations the x264 version script uses, with their
    exact semantics: `isspace`, `strip()`, `strip(chars)`, `split(sep)`,
    `split()` and slicing with non-negative bounds. The functions keep
    quantifier-free contracts; what they compute is stated in the lemma
    that follows each. */
module PyStr {
  import opened Strings

  /** `str.isspace` for one character: the characters Python treats as
      whitespace (Unicode White_Space plus the four ASCII separators
      0x1C-0x1F). */
  predicate IsPySpace(c: char)
  {
    ('\U{9}' <= c <= '\U{D}') || ('\U{1C}' <= c <= '\U{20}') || c == '\U{85}' || c == '\U{A0}'
    || c == '\U{1680}' || ('\U{2000}' <= c <= '\U{200A}') || c == '\U{2028}' || c == '\U{2029}'
    || c == '\U{202F}' || c == '\U{205F}' || c == '\U{3000}'
  }

  /** What `strip` removes: whitespace (`strip()`) or one given character (`strip(c)`). */
  datatype StripSet = Whitespace | OnlyChar(c: char)

  predicate Drops(k: StripSet, c: char)
  {
    match k
    case Whitespace => IsPySpace(c)
    case OnlyChar(x) => c == x
  }

  /** Every character of `s[lo..hi]` is dropped. */
  predicate DroppedBetween(s: string, k: StripSet, lo: int, hi: int)
    requires 0 <= lo && hi <= |s|
  {
    forall i :: lo <= i < hi ==> Drops(k, s[i])
  }

  /** `lstrip`. */
  function LStrip(s: string, k: StripSet): (r: string)
    ensures |r| <= |s|
    decreases |s|
  {
    if |s| > 0 && Drops(k, s[0]) then LStrip(s[1..], k) else s
  }

  /** `lstrip` gives the longest suffix that does not start with a dropped character. */
  lemma {:induction false} LStripProperties(s: string, k: StripSet)
    ensures var r := LStrip(s, k);
      && r == s[|s| - |r|..]
      && DroppedBetween(s, k, 0, |s| - |r|)
      && (|r| == 0 || !Drops(k, r[0]))
    decreases |s|
  {
    if |s| > 0 && Drops(k, s[0]) {
      LStripProperties(s[1..], k);
      var r := LStrip(s, k);
      forall i | 0 <= i < |s| - |r| ensures Drops(k, s[i]) {
        if i > 0 {
          assert s[i] == s[1..][i - 1];
        }
      }
    }
  }

  /** `rstrip`. */
  function RStrip(s: string, k: StripSet): (r: string)
    ensures |r| <= |s|
    decreases |s|
  {
    if |s| > 0 && Drops(k, s[|s| - 1]) then RStrip(s[..|s| - 1], k) else s
  }

  /** `rstrip` gives the longest prefix that does not end with a dropped character. */
  lemma {:induction false} RStripProperties(s: string, k: StripSet)
    ensures var r := RStrip(s, k);
      && r == s[..|r|]
      && DroppedBetween(s, k, |r|, |s|)
      && (|r| == 0 || !Drops(k, r[|r| - 1]))
    decreases |s|
  {
    if |s| > 0 && Drops(k, s[|s| - 1]) {
      RStripProperties(s[..|s| - 1], k);
      var r := RStrip(s, k);
      forall i | |r| <= i < |s| ensures Drops(k, s[i]) {
        if i < |s| - 1 {
          assert s[i] == s[..|s| - 1][i];
        }
      }
    }
  }

  /** `strip`. */
  function Strip(s: string, k: StripSet): string
  {
    RStrip(LStrip(s, k), k)
  }

  predicate AllDropped(s: string, k: StripSet)
  {
    forall i :: 0 <= i < |s| ==> Drops(k, s[i])
  }

  /** `strip` gives a slice of `s` with only dropped characters around it. */
  lemma StripIsSlice(s: string, k: StripSet)
    ensures var r := Strip(s, k);
      && var a := |s| - |LStrip(s, k)|;
      && a + |r| <= |s| && r == s[a..a + |r|]
      && DroppedBetween(s, k, 0, a)
      && DroppedBetween(s, k, a + |r|, |s|)
  {
    var l := LStrip(s, k);
    var a := |s| - |l|;
    LStripProperties(s, k);
    RStripProperties(l, k);
    var r := RStrip(l, k);
    assert s[a..][..|r|] == s[a..a + |r|];
    DroppedShift(s, k, a, |r|);
  }

  /** What is dropped at the end of a suffix is dropped at the end of the string. */
  lemma DroppedShift(s: string, k: StripSet, a: nat, lo: nat)
    requires a + lo <= |s|
    requires DroppedBetween(s[a..], k, lo, |s| - a)
    ensures DroppedBetween(s, k, a + lo, |s|)
  {
    forall i | a + lo <= i < |s| ensures Drops(k, s[i]) {
      assert s[i] == s[a..][i - a];
    }
  }

  /** `strip` neither starts nor ends with a dropped character, and gives the
      empty string iff every character is dropped. */
  lemma StripEnds(s: string, k: StripSet)
    ensures var r := Strip(s, k);
      && (|r| == 0 || (!Drops(k, r[0]) && !Drops(k, r[|r| - 1])))
      && (|r| == 0 <==> AllDropped(s, k))
  {
    var l := LStrip(s, k);
    LStripProperties(s, k);
    RStripProperties(l, k);
    var r := RStrip(l, k);
    if |r| > 0 {
      assert r[0] == l[0];
      assert s[|s| - |l|] == l[0];
    } else {
      assert |l| == 0;
    }
  }

  /** Stripping twice changes nothing. */
  lemma StripIdempotent(s: string, k: StripSet)
    ensures Strip(Strip(s, k), k) == Strip(s, k)
  {
    StripEnds(s, k);
    var r := Strip(s, k);
    assert LStrip(r, k) == r;
  }

  /** Number of occurrences of `c` in `s`. */
  function CountChar(s: string, c: char): nat
    decreases |s|
  {
    if |s| == 0 then 0 else CountChar(s[..|s| - 1], c) + (if s[|s| - 1] == c then 1 else 0)
  }

  /** `s.split(sep)` for a one-character separator. */
  function SplitOn(s: string, sep: char): (r: seq<string>)
    ensures |r| >= 1
    decreases |s|
  {
    if |s| == 0 then [""]
    else
      var p := SplitOn(s[..|s| - 1], sep);
      var c := s[|s| - 1];
      if c == sep then p + [""] else p[..|p| - 1] + [p[|p| - 1] + [c]]
  }

  /** The pieces are what lies between the separators: one more than there
      are separators (so at least one, even for the empty string), none
      containing the separator; the first piece is what precedes the first
      separator. */
  lemma {:induction false} SplitOnProperties(s: string, sep: char)
    ensures var r := SplitOn(s, sep);
      && |r| == CountChar(s, sep) + 1
      && (forall i, j :: 0 <= i < |r| && 0 <= j < |r[i]| ==> r[i][j] != sep)
      && (|r| == 1 ==> r[0] == s)
      && HasPrefix(s, r[0]) && (|r| > 1 ==> |r[0]| < |s| && s[|r[0]|] == sep)
  {
    SplitOnCount(s, sep);
    SplitOnPiecesFree(s, sep);
    SplitOnFirst(s, sep);
  }

  lemma {:induction false} SplitOnCount(s: string, sep: char)
    ensures |SplitOn(s, sep)| == CountChar(s, sep) + 1
    decreases |s|
  {
    if |s| > 0 {
      SplitOnCount(s[..|s| - 1], sep);
    }
  }

  /** No piece contains the separator. */
  predicate PiecesFree(r: seq<string>, sep: char)
  {
    forall i, j :: 0 <= i < |r| && 0 <= j < |r[i]| ==> r[i][j] != sep
  }

  lemma {:induction false} SplitOnPiecesFree(s: string, sep: char)
    ensures PiecesFree(SplitOn(s, sep), sep)
    decreases |s|
  {
    if |s| > 0 {
      var init := s[..|s| - 1];
      SplitOnPiecesFree(init, sep);
      var p := SplitOn(init, sep);
      var c := s[|s| - 1];
      var r := SplitOn(s, sep);
      forall i, j | 0 <= i < |r| && 0 <= j < |r[i]|
        ensures r[i][j] != sep
      {
        if c == sep {
          assert i < |p| && r[i] == p[i];
        } else if i < |p| - 1 {
          assert r[i] == p[i];
        } else {
          var last := p[|p| - 1];
          assert r[i] == last + [c];
          if j < |last| {
            assert r[i][j] == last[j];
          }
        }
      }
    }
  }

  lemma {:induction false} SplitOnFirst(s: string, sep: char)
    ensures var r := SplitOn(s, sep);
      && (|r| == 1 ==> r[0] == s)
      && HasPrefix(s, r[0]) && (|r| > 1 ==> |r[0]| < |s| && s[|r[0]|] == sep)
    decreases |s|
  {
    if |s| > 0 {
      var init := s[..|s| - 1];
      SplitOnFirst(init, sep);
      var p := SplitOn(init, sep);
      var c := s[|s| - 1];
      var r := SplitOn(s, sep);
      assert s == init + [c];
      if c == sep {
        assert r[0] == p[0];
      } else if |p| > 1 {
        assert r[0] == p[0];
      } else {
        assert r[0] == p[0] + [c];
      }
    }
  }

  /** `sep.join(parts)`. */
  function JoinOn(parts: seq<string>, sep: char): string
  {
    if |parts| == 0 then ""
    else if |parts| == 1 then parts[0]
    else JoinOn(parts[..|parts| - 1], sep) + [sep] + parts[|parts| - 1]
  }

  /** Joining the pieces with the separator gives back the string. */
  lemma {:induction false} JoinSplitOn(s: string, sep: char)
    ensures JoinOn(SplitOn(s, sep), sep) == s
    decreases |s|
  {
    if |s| > 0 {
      JoinSplitOn(s[..|s| - 1], sep);
      if s[|s| - 1] == sep {
        JoinSplitOnSeparator(s, sep);
      } else {
        JoinSplitOnOther(s, sep);
      }
    }
  }

  /** A final separator opens an empty last piece, which joins back as that separator. */
  lemma JoinSplitOnSeparator(s: string, sep: char)
    requires |s| > 0 && s[|s| - 1] == sep
    requires JoinOn(SplitOn(s[..|s| - 1], sep), sep) == s[..|s| - 1]
    ensures JoinOn(SplitOn(s, sep), sep) == s
  {
    var init := s[..|s| - 1];
    var p := SplitOn(init, sep);
    var r := p + [""];
    assert SplitOn(s, sep) == r;
    assert r[..|r| - 1] == p;
    assert s == init + [sep];
  }

  /** Any other final character extends the last piece, and so the joined string. */
  lemma JoinSplitOnOther(s: string, sep: char)
    requires |s| > 0 && s[|s| - 1] != sep
    requires JoinOn(SplitOn(s[..|s| - 1], sep), sep) == s[..|s| - 1]
    ensures JoinOn(SplitOn(s, sep), sep) == s
  {
    var init, c := s[..|s| - 1], s[|s| - 1];
    var p := SplitOn(init, sep);
    assert SplitOn(s, sep) == p[..|p| - 1] + [p[|p| - 1] + [c]];
    JoinLastPiece(p, [c], sep);
    assert s == init + [c];
  }

  /** Extending the last piece extends the joined string. */
  lemma {:induction false} JoinLastPiece(p: seq<string>, tail: string, sep: char)
    requires |p| >= 1
    ensures JoinOn(p[..|p| - 1] + [p[|p| - 1] + tail], sep) == JoinOn(p, sep) + tail
  {
    var q := p[..|p| - 1] + [p[|p| - 1] + tail];
    if |p| > 1 {
      assert q[..|q| - 1] == p[..|p| - 1];
    }
  }

  predicate IsWord(w: string)
  {
    |w| > 0 && forall j :: 0 <= j < |w| ==> !IsPySpace(w[j])
  }

  /** `s.split()`. */
  function SplitWhitespace(s: string): (r: seq<string>)
    ensures |s| > 0 && !IsPySpace(s[|s| - 1]) ==> |r| > 0
    decreases |s|
  {
    if |s| == 0 then []
    else
      var p := SplitWhitespace(s[..|s| - 1]);
      var c := s[|s| - 1];
      if IsPySpace(c) then p
      else if |s| >= 2 && !IsPySpace(s[|s| - 2]) then p[..|p| - 1] + [p[|p| - 1] + [c]]
      else p + [[c]]
  }

  /** `split()` gives non-empty runs of non-whitespace characters, and none
      at all iff the string is all whitespace. */
  lemma {:induction false} SplitWhitespaceWords(s: string)
    ensures var r := SplitWhitespace(s);
      && (forall i :: 0 <= i < |r| ==> IsWord(r[i]))
      && (|r| == 0 <==> forall i :: 0 <= i < |s| ==> IsPySpace(s[i]))
    decreases |s|
  {
    if |s| > 0 {
      var init := s[..|s| - 1];
      SplitWhitespaceWords(init);
      var p := SplitWhitespace(init);
      var c := s[|s| - 1];
      var r := SplitWhitespace(s);
      if IsPySpace(c) {
        forall i | 0 <= i < |s| - 1 ensures s[i] == init[i] {
        }
        if |r| == 0 {
          assert forall i :: 0 <= i < |s| ==> IsPySpace(s[i]) by {
            forall i | 0 <= i < |s| ensures IsPySpace(s[i]) {
              if i < |s| - 1 {
                assert s[i] == init[i];
              }
            }
          }
        }
      } else if |s| >= 2 && !IsPySpace(s[|s| - 2]) {
        assert r[..|p| - 1] == p[..|p| - 1];
        assert r[|p| - 1] == p[|p| - 1] + [c];
        assert IsWord(p[|p| - 1]);
      } else {
        assert r[..|p|] == p;
      }
    }
  }

  /** `" ".join(words)`. */
  function JoinSpaces(words: seq<string>): string
  {
    if |words| == 0 then ""
    else if |words| == 1 then words[0]
    else JoinSpaces(words[..|words| - 1]) + " " + words[|words| - 1]
  }

  /** A non-whitespace character after whitespace (or after nothing) starts a new token. */
  lemma SplitWhitespaceStartWord(s: string)
    requires |s| > 0 && !IsPySpace(s[|s| - 1])
    requires |s| == 1 || IsPySpace(s[|s| - 2])
    ensures SplitWhitespace(s) == SplitWhitespace(s[..|s| - 1]) + [[s[|s| - 1]]]
  {
  }

  /** A non-whitespace character after a non-whitespace one extends the last token. */
  lemma SplitWhitespaceExtendWord(s: string, tokens: seq<string>, last: string)
    requires |s| > 1 && !IsPySpace(s[|s| - 1]) && !IsPySpace(s[|s| - 2])
    requires SplitWhitespace(s[..|s| - 1]) == tokens + [last]
    ensures SplitWhitespace(s) == tokens + [last + [s[|s| - 1]]]
  {
    var p := tokens + [last];
    assert p[..|p| - 1] == tokens;
  }

  /** A trailing whitespace character adds no token. */
  lemma SplitWhitespaceAppendSpace(x: string, c: char)
    requires IsPySpace(c)
    ensures SplitWhitespace(x + [c]) == SplitWhitespace(x)
  {
    assert (x + [c])[..|x|] == x;
  }

  /** A trailing run of whitespace adds no token. */
  lemma {:induction false} SplitWhitespaceAppendSpaces(x: string, w: string)
    requires forall i :: 0 <= i < |w| ==> IsPySpace(w[i])
    ensures SplitWhitespace(x + w) == SplitWhitespace(x)
    decreases |w|
  {
    if |w| == 0 {
      assert x + w == x;
    } else {
      var w' := w[..|w| - 1];
      SplitWhitespaceAppendSpaces(x, w');
      assert x + w == (x + w') + [w[|w| - 1]];
      SplitWhitespaceAppendSpace(x + w', w[|w| - 1]);
    }
  }

  /** A leading run of whitespace adds no token either. */
  lemma {:induction false} SplitWhitespacePrependSpaces(w: string, x: string)
    requires forall i :: 0 <= i < |w| ==> IsPySpace(w[i])
    ensures SplitWhitespace(w + x) == SplitWhitespace(x)
    decreases |x|
  {
    var s := w + x;
    if |x| == 0 {
      assert s == w;
      SplitWhitespaceWords(w);
    } else {
      var x', c := x[..|x| - 1], x[|x| - 1];
      assert s == (w + x') + [c] && x == x' + [c];
      SplitWhitespacePrependSpaces(w, x');
      if IsPySpace(c) {
        SplitWhitespaceAppendSpace(w + x', c);
        SplitWhitespaceAppendSpace(x', c);
      } else if |x| >= 2 && !IsPySpace(x[|x| - 2]) {
        var p := SplitWhitespace(x');
        var tokens, last := p[..|p| - 1], p[|p| - 1];
        assert p == tokens + [last];
        SplitWhitespaceExtendWord(s, tokens, last);
        SplitWhitespaceExtendWord(x, tokens, last);
      } else {
        if |x| == 1 && |w| > 0 {
          assert s[|s| - 2] == w[|w| - 1];
        }
        SplitWhitespaceStartWord(s);
        SplitWhitespaceStartWord(x);
      }
    }
  }

  /** Appending a word after whitespace (or to nothing) appends one token. */
  lemma {:induction false} SplitWhitespaceAppendWord(x: string, w: string)
    requires |x| == 0 || IsPySpace(x[|x| - 1])
    requires IsWord(w)
    ensures SplitWhitespace(x + w) == SplitWhitespace(x) + [w]
    decreases |w|
  {
    if |w| > 1 {
      var w' := w[..|w| - 1];
      WordInit(x, w);
      SplitWhitespaceAppendWord(x, w');
      SplitWhitespaceAppendChar(x + w', w[|w| - 1], SplitWhitespace(x), w');
    } else {
      SplitWhitespaceFirstChar(x, w, !IsPySpace(w[0]));
    }
  }

  /** A word without its last character is still a word, and appending the
      word to `x` is appending that shorter word and then the last character. */
  lemma WordInit(x: string, w: string)
    requires IsWord(w) && |w| > 1
    ensures var w' := w[..|w| - 1];
      && IsWord(w') && !IsPySpace(w[|w| - 1])
      && |x + w'| > 0 && !IsPySpace((x + w')[|x + w'| - 1])
      && x + w == (x + w') + [w[|w| - 1]] && w == w' + [w[|w| - 1]]
  {
    var w' := w[..|w| - 1];
    forall j | 0 <= j < |w'| ensures !IsPySpace(w'[j]) {
      assert w'[j] == w[j];
    }
    assert (x + w')[|x + w'| - 1] == w[|w| - 2];
  }

  /** One more word character after a word character extends the last token. */
  lemma SplitWhitespaceAppendChar(s: string, c: char, tokens: seq<string>, last: string)
    requires |s| > 0 && !IsPySpace(s[|s| - 1]) && !IsPySpace(c)
    requires SplitWhitespace(s) == tokens + [last]
    ensures SplitWhitespace(s + [c]) == tokens + [last + [c]]
  {
    var t := s + [c];
    assert t[..|t| - 1] == s && t[|t| - 1] == c && t[|t| - 2] == s[|s| - 1];
    SplitWhitespaceExtendWord(t, tokens, last);
  }

  /** A one-character word after whitespace (or after nothing) is a new token. */
  lemma SplitWhitespaceFirstChar(x: string, w: string, isWord: bool)
    requires |x| == 0 || IsPySpace(x[|x| - 1])
    requires |w| == 1 && isWord == !IsPySpace(w[0]) && isWord
    ensures SplitWhitespace(x + w) == SplitWhitespace(x) + [w]
  {
    var s := x + w;
    assert s[..|s| - 1] == x && s[|s| - 1] == w[0];
    if |x| > 0 {
      assert s[|s| - 2] == x[|x| - 1];
    }
    SplitWhitespaceStartWord(s);
    assert [w[0]] == w;
  }

  /** `split()` takes back the words that `" ".join` put together. */
  lemma {:induction false} SplitWhitespaceJoin(words: seq<string>)
    requires forall i :: 0 <= i < |words| ==> IsWord(words[i])
    ensures SplitWhitespace(JoinSpaces(words)) == words
  {
    if |words| == 1 {
      SplitWhitespaceAppendWord("", words[0]);
      assert "" + words[0] == words[0];
    } else if |words| > 1 {
      var init, w := words[..|words| - 1], words[|words| - 1];
      SplitWhitespaceJoin(init);
      var x := JoinSpaces(init) + " ";
      assert x[..|x| - 1] == JoinSpaces(init);
      SplitWhitespaceAppendWord(x, w);
      assert JoinSpaces(words) == x + w;
      assert words == init + [w];
    }
  }

  /** `s[a:b]` for non-negative bounds: both are clamped to the length, and
      an empty slice results when `a` is not below `b`. */
  function Slice(s: string, a: nat, b: nat): (r: string)
    ensures |r| == if a < b && a < |s| then (if b < |s| then b else |s|) - a else 0
    ensures forall i :: 0 <= i < |r| ==> r[i] == s[a + i]
  {
    var e := if b < |s| then b else |s|;
    var st := if a < e then a else e;
    s[st..e]
  }
}
