/** The string operations the keyword and niche rules rely on. */
module Text {

  /** Python's `str.isspace` on one character. */
  predicate IsSpace(c: char) {
    || '\U{9}' <= c <= '\U{d}' || '\U{1c}' <= c <= ' '
    || c == '\U{85}' || c == '\U{a0}' || c == '\U{1680}'
    || '\U{2000}' <= c <= '\U{200a}'
    || c == '\U{2028}' || c == '\U{2029}' || c == '\U{202f}' || c == '\U{205f}' || c == '\U{3000}'
  }

  /** Drops the longest prefix and suffix of characters in `drop`. */
  function Strip(s: string, drop: char -> bool): (r: string)
    ensures r != [] ==> !drop(r[0]) && !drop(r[|r| - 1])
    ensures |r| <= |s|
    ensures s != [] && !drop(s[0]) && !drop(s[|s| - 1]) ==> r == s
    decreases |s|
  {
    if s == [] then []
    else if drop(s[0]) then Strip(s[1..], drop)
    else if drop(s[|s| - 1]) then Strip(s[..|s| - 1], drop)
    else s
  }

  /** Stripping leaves alone exactly what has nothing to drop at its ends, and shortens the rest. */
  lemma StripFixedIff(s: string, drop: char -> bool)
    ensures Strip(s, drop) == s <==> s == [] || (!drop(s[0]) && !drop(s[|s| - 1]))
    ensures |Strip(s, drop)| == |s| ==> Strip(s, drop) == s
  {
  }

  /** Stripping twice is stripping once. */
  lemma StripIdempotent(s: string, drop: char -> bool)
    ensures Strip(Strip(s, drop), drop) == Strip(s, drop)
  {
  }

  /** The text after its leading white space. */
  function SkipSpaces(s: string): (r: string)
    ensures |r| <= |s| && (r != [] ==> !IsSpace(r[0]))
    ensures s != [] && !IsSpace(s[0]) ==> r == s
    ensures s != [] && IsSpace(s[0]) ==> |r| < |s|
  {
    if s != [] && IsSpace(s[0]) then SkipSpaces(s[1..]) else s
  }

  /** The length of the leading word. */
  function WordLength(s: string): (n: nat)
    ensures n <= |s| && (forall i :: 0 <= i < n ==> !IsSpace(s[i])) && (n < |s| ==> IsSpace(s[n]))
  {
    if s == [] || IsSpace(s[0]) then 0 else 1 + WordLength(s[1..])
  }

  /** `" ".join(s.split())` */
  function Squeeze(s: string): (r: string)
    decreases |s|
  {
    var t := SkipSpaces(s);
    if t == [] then []
    else
      var n := WordLength(t);
      var rest := Squeeze(t[n..]);
      if rest == [] then t[..n] else t[..n] + " " + rest
  }

  /** `len(s.split())` */
  function WordCount(s: string): nat
    decreases |s|
  {
    var t := SkipSpaces(s);
    if t == [] then 0 else 1 + WordCount(t[WordLength(t)..])
  }

  /** Words one blank apart, none at the ends. */
  predicate Tidy(s: string) {
    && (s != [] ==> !IsSpace(s[0]) && !IsSpace(s[|s| - 1]))
    && forall i :: 0 < i < |s| ==> GapOk(s, i)
  }

  /** White space at `i` is one blank after a word. */
  predicate GapOk(s: string, i: nat)
    requires 0 < i < |s|
  {
    IsSpace(s[i]) ==> s[i] == ' ' && !IsSpace(s[i - 1])
  }

  lemma {:induction false} SqueezeIsTidy(s: string)
    ensures Tidy(Squeeze(s))
    decreases |s|
  {
    var t := SkipSpaces(s);
    if t != [] {
      var n := WordLength(t);
      SqueezeIsTidy(t[n..]);
      var w, rest := t[..n], Squeeze(t[n..]);
      if rest != [] {
        assert Squeeze(s) == w + " " + rest;
        TidyJoin(w, rest);
      }
    }
  }

  /** Squeezing never lengthens, and shortens what starts with white space. */
  lemma {:induction false} SqueezeShrinks(s: string)
    ensures |Squeeze(s)| <= |s| && (s != [] && IsSpace(s[0]) ==> |Squeeze(s)| < |s|)
    decreases |s|
  {
    var t := SkipSpaces(s);
    if t != [] {
      SqueezeShrinks(t[WordLength(t)..]);
    }
  }

  /** A single word sheds the white space behind it. */
  lemma SqueezeTrailing(w: string, c: char)
    requires w != [] && (forall i :: 0 <= i < |w| ==> !IsSpace(w[i])) && IsSpace(c)
    ensures Squeeze(w + [c]) == w
  {
    var s := w + [c];
    var n := WordLength(s);
    assert s[0] == w[0];
    assert s[|w|] == c;
    assert forall i :: 0 <= i < |w| ==> s[i] == w[i];
    assert n == |w|;
    assert s[..n] == w && s[n..] == [c];
    assert SkipSpaces([c]) == [];
  }

  lemma TidyJoin(w: string, rest: string)
    requires w != [] && (forall i :: 0 <= i < |w| ==> !IsSpace(w[i])) && rest != [] && Tidy(rest)
    ensures Tidy(w + " " + rest)
  {
    var s := w + " " + rest;
    forall i | 0 < i < |s| ensures GapOk(s, i) {
      if i > |w| + 1 {
        assert GapOk(rest, i - |w| - 1);
      }
    }
  }

  /** Behind the first word of a tidy text come one blank and another word. */
  lemma TidyGap(s: string, n: nat)
    requires Tidy(s) && n == WordLength(s) && n < |s|
    ensures 0 < n && n + 1 < |s| && s[n] == ' ' && !IsSpace(s[n + 1])
  {
    assert n > 0;
    assert GapOk(s, n);
    assert n + 1 < |s|;
    assert GapOk(s, n + 1);
  }

  lemma TidySuffix(s: string, m: nat)
    requires Tidy(s) && m < |s| && !IsSpace(s[m])
    ensures Tidy(s[m..])
  {
    var rest := s[m..];
    forall i | 0 < i < |rest| ensures GapOk(rest, i) {
      assert GapOk(s, m + i);
      assert rest[i] == s[m + i] && rest[i - 1] == s[m + i - 1];
    }
  }

  /** One word at a time. */
  lemma SqueezeWord(s: string, n: nat, rest: string)
    requires s != [] && n == WordLength(s) && n > 0 && rest == Squeeze(s[n..])
    ensures Squeeze(s) == if rest == [] then s[..n] else s[..n] + " " + rest
  {
  }

  lemma SqueezeBlank(s: string)
    requires |s| >= 2 && IsSpace(s[0]) && !IsSpace(s[1])
    ensures Squeeze(s) == Squeeze(s[1..])
  {
    assert SkipSpaces(s) == s[1..];
  }

  lemma Glued(s: string, n: nat)
    requires n + 1 < |s| && s[n] == ' '
    ensures s == s[..n] + " " + s[n + 1..] && s[n..][0] == ' ' && s[n..][1] == s[n + 1] && s[n..][1..] == s[n + 1..]
  {
  }

  /** A text is squeezed when what follows its first blank is. */
  lemma SqueezeGlued(s: string, n: nat, tail: string, rest: string)
    requires n == WordLength(s) && 0 < n && s == s[..n] + " " + rest && tail == s[n..] && tail[1..] == rest
    requires |tail| >= 2 && IsSpace(tail[0]) && !IsSpace(tail[1]) && Squeeze(rest) == rest
    ensures Squeeze(s) == s
  {
    SqueezeBlank(tail);
    SqueezeWord(s, n, rest);
  }

  lemma SqueezeOneWord(s: string)
    requires s != [] && WordLength(s) == |s|
    ensures Squeeze(s) == s
  {
    assert s[..|s|] == s && s[|s|..] == [];
    SqueezeWord(s, |s|, []);
  }

  lemma {:induction false} TidyStays(s: string)
    requires Tidy(s)
    ensures Squeeze(s) == s
    decreases |s|
  {
    if s != [] {
      var n := WordLength(s);
      if n < |s| {
        TidyGap(s, n);
        Glued(s, n);
        TidySuffix(s, n + 1);
        TidyStays(s[n + 1..]);
        SqueezeGlued(s, n, s[n..], s[n + 1..]);
      } else {
        SqueezeOneWord(s);
      }
    }
  }

  /** Squeezing changes nothing exactly when there is nothing to squeeze. */
  lemma TidyIsFixed(s: string)
    ensures Tidy(s) <==> Squeeze(s) == s
  {
    SqueezeIsTidy(s);
    if Tidy(s) {
      TidyStays(s);
    }
  }

  /** ASCII lower case, which is what case folding does to the accepted alphabet. */
  function Lower(c: char): (r: char)
    ensures IsSpace(r) <==> IsSpace(c)
    ensures c == ' ' <==> r == ' '
  {
    if 'A' <= c <= 'Z' then c + 32 as char else c
  }

  function Fold(s: string): (r: string)
    ensures |r| == |s|
    ensures forall i :: 0 <= i < |s| ==> r[i] == Lower(s[i])
  {
    seq(|s|, i requires 0 <= i < |s| => Lower(s[i]))
  }

  lemma FoldIdempotent(s: string)
    ensures Fold(Fold(s)) == Fold(s)
  {
  }

  lemma FoldTidy(s: string)
    requires Tidy(s)
    ensures Tidy(Fold(s))
  {
    forall i | 0 < i < |s| ensures GapOk(Fold(s), i) {
      assert GapOk(s, i);
    }
  }

  predicate IsAlnum(c: char) {
    'a' <= c <= 'z' || 'A' <= c <= 'Z' || '0' <= c <= '9'
  }

  /** The length of the leading run of letters and digits. */
  function RunLength(s: string): (n: nat)
    ensures n <= |s| && (s != [] && IsAlnum(s[0]) ==> n > 0)
  {
    if s == [] || !IsAlnum(s[0]) then 0 else 1 + RunLength(s[1..])
  }

  /** The maximal runs of letters and digits, in order. */
  function Runs(s: string): seq<string>
    decreases |s|
  {
    if s == [] then []
    else if !IsAlnum(s[0]) then Runs(s[1..])
    else [s[..RunLength(s)]] + Runs(s[RunLength(s)..])
  }

  predicate Contains(s: string, part: string) {
    exists i :: 0 <= i <= |s| && part <= s[i..]
  }
}
