/** Whitespace handling of strings: `str.split`, `str.strip` and `" ".join(value.split())`. */
module Text {

  /** The characters for which `str.isspace` holds. */
  predicate IsSpace(c: char) {
    || '\t' <= c <= '\r'
    || '\U{1C}' <= c <= ' '
    || c == '\U{85}' || c == '\U{A0}' || c == '\U{1680}'
    || '\U{2000}' <= c <= '\U{200A}'
    || c == '\U{2028}' || c == '\U{2029}' || c == '\U{202F}' || c == '\U{205F}' || c == '\U{3000}'
  }

  /** The length of the leading run of non-space characters. */
  function WordEnd(s: string): (n: nat)
    ensures n <= |s|
    ensures forall i :: 0 <= i < n ==> !IsSpace(s[i])
    ensures n < |s| ==> IsSpace(s[n])
  {
    if |s| == 0 || IsSpace(s[0]) then 0 else 1 + WordEnd(s[1..])
  }

  /** `value.split()` */
  function Words(s: string): seq<string>
    decreases |s|
  {
    if |s| == 0 then []
    else if IsSpace(s[0]) then Words(s[1..])
    else [s[..WordEnd(s)]] + Words(s[WordEnd(s)..])
  }

  /** `" ".join(words)` */
  function Join(words: seq<string>): string {
    if |words| == 0 then ""
    else if |words| == 1 then words[0]
    else words[0] + " " + Join(words[1..])
  }

  /** `" ".join(value.split())` */
  function Collapse(s: string): string {
    Join(Words(s))
  }

  function LStrip(s: string): string {
    if |s| == 0 || !IsSpace(s[0]) then s else LStrip(s[1..])
  }

  function RStrip(s: string): string {
    if |s| == 0 || !IsSpace(s[|s| - 1]) then s else RStrip(s[..|s| - 1])
  }

  /** `value.strip()` */
  function Strip(s: string): string {
    RStrip(LStrip(s))
  }

  /** Whitespace-normal text: single blanks between words and none at the ends. */
  predicate IsNormal(s: string) {
    forall i :: 0 <= i < |s| && IsSpace(s[i]) ==> s[i] == ' ' && 0 < i < |s| - 1 && !IsSpace(s[i + 1])
  }

  predicate IsWord(w: string) {
    |w| > 0 && forall i :: 0 <= i < |w| ==> !IsSpace(w[i])
  }

  predicate HasMarkup(s: string) {
    '<' in s || '>' in s
  }

  lemma {:induction false} WordsAreWords(s: string)
    ensures forall w :: w in Words(s) ==> IsWord(w)
    decreases |s|
  {
    if |s| != 0 {
      if IsSpace(s[0]) {
        WordsAreWords(s[1..]);
      } else {
        WordsAreWords(s[WordEnd(s)..]);
      }
    }
  }

  lemma {:induction false} JoinIsNormal(words: seq<string>)
    requires forall w :: w in words ==> IsWord(w)
    ensures IsNormal(Join(words))
    ensures words != [] ==> Join(words) != ""
  {
    if words != [] {
      assert IsWord(words[0]);
    }
    if |words| > 1 {
      JoinIsNormal(words[1..]);
      NormalConcat(words[0], Join(words[1..]));
    }
  }

  /** Normal pieces set side by side, with or without one blank between them, stay normal. */
  lemma NormalConcat(a: string, b: string)
    requires IsNormal(a) && IsNormal(b) && a != "" && b != ""
    ensures IsNormal(a + " " + b)
    ensures IsNormal(a + b)
  {
    var s := a + " " + b;
    forall i | 0 <= i < |s| && IsSpace(s[i])
      ensures s[i] == ' ' && 0 < i < |s| - 1 && !IsSpace(s[i + 1])
    {
      if i > |a| {
        assert s[i] == b[i - |a| - 1];
      } else if i < |a| {
        assert s[i] == a[i];
      } else {
        assert !IsSpace(b[0]) && !IsSpace(a[|a| - 1]) && s[i + 1] == b[0];
      }
    }
    var t := a + b;
    forall i | 0 <= i < |t| && IsSpace(t[i])
      ensures t[i] == ' ' && 0 < i < |t| - 1 && !IsSpace(t[i + 1])
    {
      if i >= |a| {
        assert t[i] == b[i - |a|];
      }
    }
  }

  lemma {:induction false} NormalIsFixed(s: string)
    requires IsNormal(s)
    ensures Collapse(s) == s
    ensures s != "" ==> Words(s) != []
    decreases |s|
  {
    if s != "" {
      var n := WordEnd(s);
      if n == |s| {
        assert s[..n] == s && Words(s[n..]) == [];
        assert Words(s) == [s];
      } else {
        var rest := s[n + 1..];
        NormalTail(s, n);
        NormalIsFixed(rest);
        assert s[n..][1..] == rest;
        assert Words(s) == [s[..n]] + Words(rest);
        assert Words(s)[1..] == Words(rest);
      }
    }
  }

  /** Behind the blank after its first word a normal text is normal. */
  lemma NormalTail(s: string, n: nat)
    requires IsNormal(s) && n < |s| && IsSpace(s[n])
    ensures IsNormal(s[n + 1..]) && s[n + 1..] != "" && s == s[..n] + " " + s[n + 1..]
  {
    var rest := s[n + 1..];
    assert rest[0] == s[n + 1];
    assert forall i :: 0 <= i < |rest| ==> rest[i] == s[n + 1 + i];
  }

  /** A text is whitespace-normal exactly when collapsing its whitespace changes nothing. */
  lemma NormalIffFixed(s: string)
    ensures IsNormal(s) <==> Collapse(s) == s
  {
    CollapseIsNormal(s);
    if IsNormal(s) {
      NormalIsFixed(s);
    }
  }

  lemma CollapseIsNormal(s: string)
    ensures IsNormal(Collapse(s))
    ensures Collapse(Collapse(s)) == Collapse(s)
  {
    WordsAreWords(s);
    JoinIsNormal(Words(s));
    NormalIsFixed(Collapse(s));
  }

  lemma {:induction false} CollapseShortens(s: string)
    ensures |Collapse(s)| <= |s|
    decreases |s|
  {
    if |s| != 0 {
      if IsSpace(s[0]) {
        CollapseShortens(s[1..]);
      } else if WordEnd(s) < |s| {
        var n := WordEnd(s);
        CollapseShortens(s[n + 1..]);
        assert s[n..][1..] == s[n + 1..];
        assert Words(s)[1..] == Words(s[n + 1..]);
      } else {
        assert Words(s) == [s[..|s|]];
      }
    }
  }

  /** Collapsing whitespace invents no character but the blank, and keeps a leading non-space. */
  lemma {:induction false} CollapseKeepsCharacters(s: string)
    ensures forall c :: c in Collapse(s) ==> c == ' ' || c in s
    ensures s != "" && !IsSpace(s[0]) ==> Collapse(s) != ""
    decreases |s|
  {
    if s != "" {
      if IsSpace(s[0]) {
        CollapseKeepsCharacters(s[1..]);
        assert forall c :: c in s[1..] ==> c in s;
      } else {
        var n := WordEnd(s);
        CollapseKeepsCharacters(s[n..]);
        WordsAreWords(s);
        var rest := Words(s[n..]);
        assert Words(s) == [s[..n]] + rest && Words(s)[1..] == rest;
        assert Collapse(s) == if rest == [] then s[..n] else s[..n] + " " + Join(rest);
        assert forall c :: c in s[..n] || c in s[n..] ==> c in s;
      }
    }
  }

  /** How many characters of a text are not whitespace. */
  function Marks(s: string): nat {
    if |s| == 0 then 0 else Marks(s[..|s| - 1]) + if IsSpace(s[|s| - 1]) then 0 else 1
  }

  lemma {:induction false} MarksOfConcat(a: string, b: string)
    ensures Marks(a + b) == Marks(a) + Marks(b)
    decreases |b|
  {
    if |b| == 0 {
      assert a + b == a;
    } else {
      assert (a + b)[..|a + b| - 1] == a + b[..|b| - 1];
      MarksOfConcat(a, b[..|b| - 1]);
    }
  }

  /** Collapsing drops and adds whitespace only. */
  lemma {:induction false} CollapseKeepsMarks(s: string)
    ensures Marks(Collapse(s)) == Marks(s)
    decreases |s|
  {
    if |s| != 0 {
      if IsSpace(s[0]) {
        MarksOfConcat(s[..1], s[1..]);
        assert s == s[..1] + s[1..] && Marks(s[..1]) == 0;
        CollapseKeepsMarks(s[1..]);
      } else {
        var word, rest := s[..WordEnd(s)], s[WordEnd(s)..];
        CollapseKeepsMarks(rest);
        MarksOfConcat(word, rest);
        assert s == word + rest;
        MarksOfWords(word, Words(rest));
        assert Words(s) == [word] + Words(rest);
      }
    }
  }

  lemma MarksOfWords(word: string, rest: seq<string>)
    ensures Marks(Join([word] + rest)) == Marks(word) + Marks(Join(rest))
  {
    if rest != [] {
      assert ([word] + rest)[1..] == rest;
      MarksOfConcat(word, " " + Join(rest));
      MarksOfConcat(" ", Join(rest));
      assert word + " " + Join(rest) == word + (" " + Join(rest));
    }
  }

  lemma {:induction false} WordsOfTrailingSpace(s: string, c: char)
    requires IsSpace(c)
    ensures Words(s + [c]) == Words(s)
    decreases |s|
  {
    var t := s + [c];
    if s == "" {
      assert t[1..] == "";
    } else if IsSpace(s[0]) {
      assert t[1..] == s[1..] + [c];
      WordsOfTrailingSpace(s[1..], c);
    } else {
      WordEndOfTrailingSpace(s, c);
      var n := WordEnd(s);
      assert t[..n] == s[..n] && t[n..] == s[n..] + [c];
      WordsOfTrailingSpace(s[n..], c);
    }
  }

  lemma {:induction false} WordEndOfTrailingSpace(s: string, c: char)
    requires IsSpace(c)
    ensures WordEnd(s + [c]) == WordEnd(s)
  {
    if s != "" && !IsSpace(s[0]) {
      assert (s + [c])[1..] == s[1..] + [c];
      WordEndOfTrailingSpace(s[1..], c);
    }
  }

  lemma {:induction false} WordsOfRStrip(s: string)
    ensures Words(RStrip(s)) == Words(s)
  {
    if |s| != 0 && IsSpace(s[|s| - 1]) {
      WordsOfRStrip(s[..|s| - 1]);
      WordsOfTrailingSpace(s[..|s| - 1], s[|s| - 1]);
      assert s == s[..|s| - 1] + [s[|s| - 1]];
    }
  }

  lemma {:induction false} WordsOfLStrip(s: string)
    ensures Words(LStrip(s)) == Words(s)
  {
    if |s| != 0 && IsSpace(s[0]) {
      WordsOfLStrip(s[1..]);
    }
  }

  /** Stripping before collapsing is redundant: `" ".join(v.strip().split())`. */
  lemma CollapseOfStrip(s: string)
    ensures Collapse(Strip(s)) == Collapse(s)
  {
    WordsOfLStrip(s);
    WordsOfRStrip(LStrip(s));
  }

  lemma {:induction false} RStripShape(s: string)
    ensures |RStrip(s)| <= |s| && RStrip(s) == s[..|RStrip(s)|]
    ensures RStrip(s) == "" || !IsSpace(RStrip(s)[|RStrip(s)| - 1])
    ensures forall i :: |RStrip(s)| <= i < |s| ==> IsSpace(s[i])
  {
    if |s| != 0 && IsSpace(s[|s| - 1]) {
      RStripShape(s[..|s| - 1]);
    }
  }

  lemma {:induction false} LStripShape(s: string)
    ensures |LStrip(s)| <= |s| && LStrip(s) == s[|s| - |LStrip(s)|..]
    ensures LStrip(s) == "" || !IsSpace(LStrip(s)[0])
    ensures forall i :: 0 <= i < |s| - |LStrip(s)| ==> IsSpace(s[i])
  {
    if |s| != 0 && IsSpace(s[0]) {
      LStripShape(s[1..]);
      assert forall i :: 0 < i < |s| ==> s[i] == s[1..][i - 1];
    }
  }

  /** A stripped text is a part of the text and stripping it again changes nothing. */
  lemma StripShape(s: string)
    ensures |Strip(s)| <= |s|
    ensures Strip(Strip(s)) == Strip(s)
    ensures forall c :: c in Strip(s) ==> c in s
    ensures Strip(s) == "" ==> forall i :: 0 <= i < |s| ==> IsSpace(s[i])
  {
    LStripShape(s);
    RStripShape(LStrip(s));
    var l := LStrip(s);
    var t := Strip(s);
    assert t == l[..|t|];
    if t != "" {
      assert t[0] == l[0];
    }
  }

  /**
   Cutting a whitespace-normal text at a bound and right-stripping it leaves a whitespace-normal text
   within the bound, empty only if the text or the bound was.
   */
  lemma TruncationStaysNormal(s: string, maximum: nat)
    requires IsNormal(s) && maximum < |s|
    ensures IsNormal(RStrip(s[..maximum]))
    ensures |RStrip(s[..maximum])| <= maximum
    ensures maximum > 0 ==> RStrip(s[..maximum]) != "" && RStrip(s[..maximum])[0] == s[0]
  {
    var cut := s[..maximum];
    RStripShape(cut);
    var r := RStrip(cut);
    forall i | 0 <= i < |r| && IsSpace(r[i])
      ensures r[i] == ' ' && 0 < i < |r| - 1 && !IsSpace(r[i + 1])
    {
      assert r[i] == s[i];
    }
    if maximum > 0 {
      assert cut[0] == s[0] && !IsSpace(s[0]);
    }
  }
}
