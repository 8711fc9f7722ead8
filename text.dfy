/** String helpers with JavaScript's meaning: `Array.prototype.join` and `String.prototype.split`
    with a single-character separator. */
module Text {

  /** The words of `ws` with `sep` between each two neighbours. */
  function Join(ws: seq<string>, sep: char): string
  {
    if ws == [] then []
    else if |ws| == 1 then ws[0]
    else ws[0] + [sep] + Join(ws[1..], sep)
  }

  /** Three words joined. */
  lemma JoinThree(a: string, b: string, c: string, sep: char)
    ensures Join([a, b, c], sep) == a + [sep] + b + [sep] + c
  {
    var ws := [a, b, c];
    assert ws[1..] == [b, c] && ws[1..][1..] == [c];
    assert Join([b, c], sep) == b + [sep] + c;
    assert a + [sep] + (b + [sep] + c) == a + [sep] + b + [sep] + c;
  }

  /** The pieces of `s` between the occurrences of `sep`; the empty string splits into one empty piece. */
  function Split(s: string, sep: char): (parts: seq<string>)
    ensures |parts| >= 1
  {
    if s == [] then [[]]
    else
      var rest := Split(s[1..], sep);
      if s[0] == sep then [[]] + rest
      else [[s[0]] + rest[0]] + rest[1..]
  }

  /** Gluing a character to the first word glues it to the front of the joined string. */
  lemma JoinPrepend(c: char, parts: seq<string>, sep: char)
    requires parts != []
    ensures Join([[c] + parts[0]] + parts[1..], sep) == [c] + Join(parts, sep)
  {
    var glued := [[c] + parts[0]] + parts[1..];
    assert glued[0] == [c] + parts[0] && glued[1..] == parts[1..];
    if |parts| > 1 {
      assert Join(glued, sep) == [c] + parts[0] + [sep] + Join(parts[1..], sep);
    }
  }

  /** An empty first word contributes only its separator. */
  lemma JoinEmptyFirst(parts: seq<string>, sep: char)
    requires parts != []
    ensures Join([[]] + parts, sep) == [sep] + Join(parts, sep)
  {
    var ws := [[]] + parts;
    assert ws[0] == [] && ws[1..] == parts;
  }

  /** Splitting and joining again gives back the string. */
  lemma {:induction false} JoinSplit(s: string, sep: char)
    ensures Join(Split(s, sep), sep) == s
  {
    if s != [] {
      var rest := Split(s[1..], sep);
      JoinSplit(s[1..], sep);
      assert s == [s[0]] + s[1..];
      if s[0] == sep {
        JoinEmptyFirst(rest, sep);
      } else {
        JoinPrepend(s[0], rest, sep);
      }
    }
  }

  /** A character other than `sep` sticks to the first piece of what follows it. */
  lemma SplitCons(c: char, t: string, sep: char)
    requires c != sep
    ensures Split([c] + t, sep) == [[c] + Split(t, sep)[0]] + Split(t, sep)[1..]
  {
    assert ([c] + t)[1..] == t;
  }

  /** A prefix free of `sep` sticks to the first piece of what follows it. */
  lemma {:induction false} SplitPrefix(w: string, t: string, sep: char)
    requires sep !in w
    ensures Split(w + t, sep) == [w + Split(t, sep)[0]] + Split(t, sep)[1..]
  {
    var parts := Split(t, sep);
    if w == [] {
      assert w + t == t && w + parts[0] == parts[0];
      assert parts == [parts[0]] + parts[1..];
    } else {
      SplitPrefix(w[1..], t, sep);
      var rest := Split(w[1..] + t, sep);
      assert w + t == [w[0]] + (w[1..] + t);
      assert w[0] in w;
      SplitCons(w[0], w[1..] + t, sep);
      assert rest[0] == w[1..] + parts[0] && rest[1..] == parts[1..];
      assert [w[0]] + (w[1..] + parts[0]) == w + parts[0];
    }
  }

  /** A string free of `sep` is a single piece. */
  lemma SplitWithoutSep(s: string, sep: char)
    requires sep !in s
    ensures Split(s, sep) == [s]
  {
    SplitPrefix(s, [], sep);
    assert s + [] == s;
  }

  /** Joining words free of `sep` and splitting again gives back the words. */
  lemma {:induction false} SplitJoin(ws: seq<string>, sep: char)
    requires ws != []
    requires forall i :: 0 <= i < |ws| ==> sep !in ws[i]
    ensures Split(Join(ws, sep), sep) == ws
  {
    if |ws| == 1 {
      SplitPrefix(ws[0], [], sep);
      assert ws[0] + [] == ws[0];
    } else {
      var tail := Join(ws[1..], sep);
      SplitJoin(ws[1..], sep);
      assert ([sep] + tail)[1..] == tail;
      assert Split([sep] + tail, sep) == [[]] + ws[1..];
      assert Join(ws, sep) == ws[0] + [sep] + tail;
      assert ws[0] + [] == ws[0];
      SplitPrefix(ws[0], [sep] + tail, sep);
      assert ws[0] + [sep] + tail == ws[0] + ([sep] + tail);
      assert ws == [ws[0]] + ws[1..];
    }
  }
}
