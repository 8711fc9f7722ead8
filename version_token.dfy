/** How `publishRelease` reads its version token (index.js:51-61): default it, normalise it with
    `_.lowerCase` and a white-space-to-dot replacement, then classify it for gulp-bump. */
module VersionToken {
  import opened Wrappers
  import opened Text

  /** The gulp-bump option a token selects: `type` (a release keyword) or `version` (an exact version). */
  datatype BumpKind = Type | Version

  /** The release keywords that select the `type` option. */
  const Keywords: set<string> := {"major", "minor", "patch"}

  predicate IsDigit(c: char) { '0' <= c <= '9' }

  predicate IsAlnum(c: char) { IsDigit(c) || 'a' <= c <= 'z' || 'A' <= c <= 'Z' }

  /** A character that `_.lowerCase` can leave inside a word: a digit or a lower-case ASCII letter. */
  predicate IsWordChar(c: char) { IsDigit(c) || 'a' <= c <= 'z' }

  predicate IsWord(w: string) { w != [] && forall c :: c in w ==> IsWordChar(c) }

  /** A non-empty run of decimal digits: what `\d+` matches. */
  predicate IsDigits(w: string) { w != [] && forall c :: c in w ==> IsDigit(c) }

  function Lower(c: char): (l: char)
    ensures IsAlnum(c) ==> IsWordChar(l)
    ensures IsWordChar(c) ==> l == c
  {
    if 'A' <= c <= 'Z' then (c as int + 32) as char else c
  }

  /** The single characters of JavaScript's `\s` class; U+2000 to U+200A belong to it as well. */
  const JsSpaces: set<char> := {
    ' ', '\t', '\n', '\r', '\U{B}', '\U{C}', '\U{A0}', '\U{1680}',
    '\U{2028}', '\U{2029}', '\U{202F}', '\U{205F}', '\U{3000}', '\U{FEFF}'}

  /** JavaScript's `\s` class: white space and line terminators. */
  predicate IsJsSpace(c: char)
  {
    c in JsSpaces || '\U{2000}' <= c <= '\U{200A}'
  }

  /** The words of `s` still to be read, `cur` being the word read so far. */
  function WordsFrom(s: string, cur: string): seq<string>
    decreases |s|
  {
    if s == [] then (if cur == [] then [] else [cur])
    else if IsAlnum(s[0]) then WordsFrom(s[1..], cur + [Lower(s[0])])
    else if cur == [] then WordsFrom(s[1..], [])
    else [cur] + WordsFrom(s[1..], [])
  }

  /** The maximal runs of ASCII letters and digits of `s`, lower-cased, in order. */
  function Words(s: string): seq<string>
  {
    WordsFrom(s, [])
  }

  /** Every word read is a non-empty run of digits and lower-case letters. */
  lemma {:induction false} WordsFromAreWords(s: string, cur: string)
    requires forall c :: c in cur ==> IsWordChar(c)
    ensures forall i :: 0 <= i < |WordsFrom(s, cur)| ==> IsWord(WordsFrom(s, cur)[i])
    decreases |s|
  {
    if s != [] {
      if IsAlnum(s[0]) {
        WordsFromAreWords(s[1..], cur + [Lower(s[0])]);
      } else {
        WordsFromAreWords(s[1..], []);
      }
    }
  }

  lemma WordsAreWords(s: string)
    ensures forall i :: 0 <= i < |Words(s)| ==> IsWord(Words(s)[i])
  {
    WordsFromAreWords(s, []);
  }

  /** `_.lowerCase(s)`, approximated: the words of `s` joined by single spaces. */
  function LowerCase(s: string): string
  {
    Join(Words(s), ' ')
  }

  /** `s.replace(/\s/g, '.')`. */
  function ReplaceSpaces(s: string): string
  {
    if s == [] then [] else [if IsJsSpace(s[0]) then '.' else s[0]] + ReplaceSpaces(s[1..])
  }

  /** The token as index.js:52 leaves it. */
  function Normalize(token: string): string
  {
    ReplaceSpaces(LowerCase(token))
  }

  /** `v.match(/^\d+\.\d+\.\d+$/)` succeeds. */
  predicate IsStrictVersion(v: string)
  {
    var f := Split(v, '.');
    |f| == 3 && IsDigits(f[0]) && IsDigits(f[1]) && IsDigits(f[2])
  }

  /** The if-chain of index.js:55-61: a keyword selects `type`, an exact version `version`;
      `None` is the rejected case. */
  function Classify(v: string): Option<BumpKind>
  {
    if v in Keywords then Some(Type)
    else if IsStrictVersion(v) then Some(Version)
    else None
  }

  // ---------------------------------------------------------------------------------------------
  // The strict version pattern

  /** Three digit runs joined by dots match the pattern, and split back into those runs. */
  lemma StrictVersionOfParts(a: string, b: string, c: string)
    requires IsDigits(a) && IsDigits(b) && IsDigits(c)
    ensures IsStrictVersion(a + "." + b + "." + c)
    ensures Split(a + "." + b + "." + c, '.') == [a, b, c]
  {
    var ws := [a, b, c];
    forall i | 0 <= i < 3 ensures '.' !in ws[i] {
      assert IsDigits(ws[i]);
    }
    JoinThree(a, b, c, '.');
    SplitJoin(ws, '.');
  }

  /** Every string matching the pattern is three digit runs joined by dots. */
  lemma StrictVersionShape(v: string)
    requires IsStrictVersion(v)
    ensures var f := Split(v, '.'); v == f[0] + "." + f[1] + "." + f[2]
  {
    var f := Split(v, '.');
    JoinSplit(v, '.');
    assert f == [f[0], f[1], f[2]];
    JoinThree(f[0], f[1], f[2], '.');
  }

  // ---------------------------------------------------------------------------------------------
  // Normalisation

  /** Reading characters that are already word characters extends the current word. */
  lemma {:induction false} WordsFromWordChars(d: string, rest: string, cur: string)
    requires forall c :: c in d ==> IsWordChar(c)
    requires forall c :: c in cur ==> IsWordChar(c)
    ensures WordsFrom(d + rest, cur) == WordsFrom(rest, cur + d)
  {
    if d != [] {
      assert d[0] in d;
      assert (d + rest)[1..] == d[1..] + rest;
      WordsFromWordChars(d[1..], rest, cur + [d[0]]);
      assert cur + [d[0]] + d[1..] == cur + d;
    } else {
      assert d + rest == rest && cur + d == cur;
    }
  }

  /** Joining words with a separator that is not a letter or digit, then reading words, gives them back. */
  lemma {:induction false} WordsOfJoin(ws: seq<string>, sep: char)
    requires forall i :: 0 <= i < |ws| ==> IsWord(ws[i])
    requires !IsAlnum(sep)
    ensures Words(Join(ws, sep)) == ws
  {
    if |ws| == 1 {
      WordsFromWordChars(ws[0], [], []);
      assert ws[0] + [] == ws[0] && [] + ws[0] == ws[0];
    } else if |ws| > 1 {
      var tail := Join(ws[1..], sep);
      WordsOfJoin(ws[1..], sep);
      assert Join(ws, sep) == ws[0] + ([sep] + tail);
      WordsFromWordChars(ws[0], [sep] + tail, []);
      assert [] + ws[0] == ws[0];
      assert ([sep] + tail)[1..] == tail;
      assert WordsFrom([sep] + tail, ws[0]) == [ws[0]] + WordsFrom(tail, []);
      assert ws == [ws[0]] + ws[1..];
    }
  }

  lemma {:induction false} ReplaceSpacesAppend(a: string, b: string)
    ensures ReplaceSpaces(a + b) == ReplaceSpaces(a) + ReplaceSpaces(b)
  {
    if a == [] {
      assert a + b == b;
    } else {
      assert (a + b)[1..] == a[1..] + b;
      ReplaceSpacesAppend(a[1..], b);
    }
  }

  lemma {:induction false} ReplaceSpacesWord(w: string)
    requires forall c :: c in w ==> IsWordChar(c)
    ensures ReplaceSpaces(w) == w
  {
    if w != [] {
      assert w[0] in w;
      ReplaceSpacesWord(w[1..]);
    }
  }

  /** Replacing white space in space-joined words yields the dot-joined words. */
  lemma {:induction false} ReplaceSpacesJoin(ws: seq<string>)
    requires forall i :: 0 <= i < |ws| ==> IsWord(ws[i])
    ensures ReplaceSpaces(Join(ws, ' ')) == Join(ws, '.')
  {
    if |ws| == 1 {
      ReplaceSpacesWord(ws[0]);
    } else if |ws| > 1 {
      ReplaceSpacesJoin(ws[1..]);
      ReplaceSpacesWord(ws[0]);
      ReplaceSpacesAppend(ws[0] + [' '], Join(ws[1..], ' '));
      ReplaceSpacesAppend(ws[0], [' ']);
    }
  }

  /** The normalised token is the token's words joined by dots. */
  lemma NormalizeJoinsWords(token: string)
    ensures Normalize(token) == Join(Words(token), '.')
  {
    WordsAreWords(token);
    ReplaceSpacesJoin(Words(token));
  }

  /** Normalising twice is normalising once. */
  lemma NormalizeIdempotent(token: string)
    ensures Normalize(Normalize(token)) == Normalize(token)
  {
    NormalizeJoinsWords(token);
    WordsAreWords(token);
    WordsOfJoin(Words(token), '.');
    NormalizeJoinsWords(Normalize(token));
  }

  /** Lower-casing drops the dots of an exact version, and the replacement puts them back:
      an exact version survives normalisation unchanged. */
  lemma NormalizeKeepsStrictVersion(v: string)
    requires IsStrictVersion(v)
    ensures Normalize(v) == v
  {
    var f := Split(v, '.');
    JoinSplit(v, '.');
    forall i | 0 <= i < |f| ensures IsWord(f[i]) {
      assert forall c :: c in f[i] ==> IsDigit(c);
    }
    WordsOfJoin(f, '.');
    NormalizeJoinsWords(v);
  }

  /** An exact version holds a dot, so it is no keyword: it selects `version`. */
  lemma ClassifyStrictVersion(v: string)
    requires IsStrictVersion(v)
    ensures v != [] && Classify(v) == Some(Version)
  {
    if '.' !in v {
      SplitWithoutSep(v, '.');
      assert false;
    }
    assert forall k :: k in Keywords ==> '.' !in k;
  }

  /** A lower-case word, a keyword among them, survives normalisation unchanged. */
  lemma NormalizeKeepsWord(w: string)
    requires IsWord(w)
    ensures Normalize(w) == w
  {
    WordsOfJoin([w], '.');
    assert Join([w], '.') == w;
    NormalizeJoinsWords(w);
  }

  /** Which tokens index.js:52-61 accepts, in terms of their words: exactly one word that is a
      keyword selects `type`, exactly three digit runs select `version`, anything else is rejected. */
  lemma ClassifyNormalized(token: string)
    ensures var ws := Words(token);
      Classify(Normalize(token)) == Some(Type) <==> |ws| == 1 && ws[0] in Keywords
    ensures var ws := Words(token);
      Classify(Normalize(token)) == Some(Version) <==>
        |ws| == 3 && IsDigits(ws[0]) && IsDigits(ws[1]) && IsDigits(ws[2])
  {
    var ws := Words(token);
    var n := Normalize(token);
    NormalizeJoinsWords(token);
    WordsAreWords(token);
    assert forall k :: k in Keywords ==> '.' !in k;
    if ws == [] {
      assert n == [];
      assert Split(n, '.') == [[]];
    } else {
      forall i | 0 <= i < |ws| ensures '.' !in ws[i] {
        assert IsWord(ws[i]);
      }
      SplitJoin(ws, '.');
      if |ws| == 1 {
        assert n == ws[0];
      }
    }
  }
}
