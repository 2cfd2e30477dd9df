/**
 * The parts of Go's `strings` and `unicode` packages that the tool relies on,
 * over `string` = `seq<char>`: `unicode.IsSpace`, `strings.HasPrefix`,
 * `strings.Fields`, `strings.Join` and `strings.ToLower` (on ASCII letters).
 */
module Text {

  /** `unicode.IsSpace`: the Unicode White_Space characters. */
  predicate IsSpace(c: char) {
    if c <= ' ' then
      ('\t' <= c <= '\r') || c == ' '   // tab, line feed, vertical tab, form feed, carriage return, space
    else if c < '\U{0085}' then false
    else
      || c == '\U{0085}' || c == '\U{00A0}' || c == '\U{1680}'
      || ('\U{2000}' <= c <= '\U{200A}')
      || c == '\U{2028}' || c == '\U{2029}' || c == '\U{202F}' || c == '\U{205F}' || c == '\U{3000}'
  }

  /** What `strings.Fields` yields: a non-empty run of non-space characters. */
  predicate IsWord(w: string) {
    w != [] && forall i :: 0 <= i < |w| ==> !IsSpace(w[i])
  }

  /** `strings.HasPrefix(s, prefix)`: a literal prefix test, not a token test. */
  predicate HasPrefix(s: string, prefix: string) {
    prefix <= s
  }

  /** Length of the leading run of non-space characters of `s`. */
  function WordLength(s: string): (n: nat)
    ensures n <= |s|
    ensures forall i :: 0 <= i < n ==> !IsSpace(s[i])
    ensures n < |s| ==> IsSpace(s[n])
  {
    if s == [] || IsSpace(s[0]) then 0 else 1 + WordLength(s[1..])
  }

  /** `strings.Fields`: the maximal runs of non-space characters, in order. */
  function Fields(s: string): (ws: seq<string>)
    ensures s != [] && !IsSpace(s[0]) ==> ws != []
    decreases |s|
  {
    if s == [] then []
    else if IsSpace(s[0]) then Fields(s[1..])
    else
      var n := WordLength(s);
      [s[..n]] + Fields(s[n..])
  }

  /** Every field is a non-empty run of non-space characters. */
  lemma {:induction false} FieldsAreWords(s: string)
    ensures forall k :: 0 <= k < |Fields(s)| ==> IsWord(Fields(s)[k])
    decreases |s|
  {
    if s == [] {
    } else if IsSpace(s[0]) {
      FieldsAreWords(s[1..]);
    } else {
      FieldsAreWords(s[WordLength(s)..]);
    }
  }

  /** `strings.Join(ws, sep)`. */
  function Join(ws: seq<string>, sep: string): string {
    if ws == [] then ""
    else if |ws| == 1 then ws[0]
    else ws[0] + sep + Join(ws[1..], sep)
  }

  /** The fields of every string of `ws`, one after another. */
  function FieldsOfEach(ws: seq<string>): seq<string> {
    if ws == [] then [] else Fields(ws[0]) + FieldsOfEach(ws[1..])
  }

  /** `unicode.ToLower` restricted to ASCII. */
  function LowerChar(c: char): char {
    if 'A' <= c <= 'Z' then (c as int + ('a' as int - 'A' as int)) as char else c
  }

  /** `strings.ToLower` on ASCII: every upper-case letter is lowered, nothing else moves. */
  function ToLower(s: string): (r: string)
    ensures |r| == |s|
    ensures forall i :: 0 <= i < |s| ==> r[i] == LowerChar(s[i])
    ensures forall i :: 0 <= i < |r| ==> !('A' <= r[i] <= 'Z')
  {
    if s == [] then [] else [LowerChar(s[0])] + ToLower(s[1..])
  }

  /** Lower-casing moves no white space, so it keeps a word a word. */
  lemma ToLowerKeepsWords(s: string)
    requires IsWord(s)
    ensures IsWord(ToLower(s))
  {
  }

  /** Lower-casing twice is lower-casing once. */
  lemma ToLowerIdempotent(s: string)
    ensures ToLower(ToLower(s)) == ToLower(s)
  {
  }

  /** A space between two strings separates their fields and adds none. */
  lemma {:induction false} FieldsAppend(a: string, b: string)
    requires b == [] || IsSpace(b[0])
    ensures Fields(a + b) == Fields(a) + Fields(b)
    decreases |a|
  {
    if b == [] {
      assert a + b == a;
    } else if a == [] {
      assert a + b == b;
    } else if IsSpace(a[0]) {
      assert (a + b)[1..] == a[1..] + b;
      FieldsAppend(a[1..], b);
    } else {
      var n := WordLength(a);
      WordLengthAppend(a, b);
      assert (a + b)[..n] == a[..n];
      assert (a + b)[n..] == a[n..] + b;
      FieldsAppend(a[n..], b);
    }
  }

  /** A word cannot run on past a space. */
  lemma {:induction false} WordLengthAppend(a: string, b: string)
    requires b != [] && IsSpace(b[0])
    ensures WordLength(a + b) == WordLength(a)
  {
    if a == [] {
      assert a + b == b;
    } else if !IsSpace(a[0]) {
      assert (a + b)[1..] == a[1..] + b;
      WordLengthAppend(a[1..], b);
    }
  }

  /** Leading white space is dropped. */
  lemma FieldsSkipSpace(c: char, s: string)
    requires IsSpace(c)
    ensures Fields([c] + s) == Fields(s)
  {
    assert ([c] + s)[1..] == s;
  }

  /** A word is its own only field. */
  lemma FieldsOfWord(w: string)
    requires IsWord(w)
    ensures Fields(w) == [w]
  {
    assert WordLength(w) == |w|;
    assert w[..|w|] == w;
    assert w[|w|..] == [];
  }

  /** A word followed by a space is the first field, and the rest follows. */
  lemma FieldsCons(w: string, s: string)
    requires IsWord(w)
    ensures Fields(w + ([' '] + s)) == [w] + Fields(s)
  {
    FieldsAppend(w, [' '] + s);
    FieldsOfWord(w);
    FieldsSkipSpace(' ', s);
  }

  /** Two words, each followed by a space, are the first two fields. */
  lemma FieldsCons2(a: string, b: string, s: string)
    requires IsWord(a) && IsWord(b)
    ensures Fields(a + ([' '] + (b + ([' '] + s)))) == [a, b] + Fields(s)
  {
    FieldsCons(b, s);
    FieldsCons(a, b + ([' '] + s));
  }

  /** Four words, each followed by a space, are the first four fields. */
  lemma FieldsCons4(a: string, b: string, c: string, d: string, s: string)
    requires IsWord(a) && IsWord(b) && IsWord(c) && IsWord(d)
    ensures Fields(a + ([' '] + (b + ([' '] + (c + ([' '] + (d + ([' '] + s))))))))
      == [a, b, c, d] + Fields(s)
  {
    FieldsCons2(c, d, s);
    FieldsCons2(a, b, c + ([' '] + (d + ([' '] + s))));
  }

  /** Fields of a space-joined list are the fields of its items, in order. */
  lemma {:induction false} FieldsOfJoin(ws: seq<string>)
    ensures Fields(Join(ws, " ")) == FieldsOfEach(ws)
  {
    if ws == [] {
    } else if |ws| == 1 {
      assert FieldsOfEach(ws[1..]) == [];
    } else {
      var rest := Join(ws[1..], " ");
      FieldsOfJoin(ws[1..]);
      assert Join(ws, " ") == ws[0] + ([' '] + rest);
      FieldsAppend(ws[0], [' '] + rest);
      FieldsSkipSpace(' ', rest);
    }
  }

  /** A list of words comes back unchanged from its own fields. */
  lemma {:induction false} FieldsOfEachWord(ws: seq<string>)
    requires forall k :: 0 <= k < |ws| ==> IsWord(ws[k])
    ensures FieldsOfEach(ws) == ws
  {
    if ws != [] {
      FieldsOfWord(ws[0]);
      FieldsOfEachWord(ws[1..]);
    }
  }

  /** `strings.Fields` undoes `strings.Join(_, " ")` on words. */
  lemma FieldsOfJoinedWords(ws: seq<string>)
    requires forall k :: 0 <= k < |ws| ==> IsWord(ws[k])
    ensures Fields(Join(ws, " ")) == ws
  {
    FieldsOfJoin(ws);
    FieldsOfEachWord(ws);
  }

  /** Fields distribute over concatenation of the lists they come from. */
  lemma {:induction false} FieldsOfEachAppend(xs: seq<string>, ys: seq<string>)
    ensures FieldsOfEach(xs + ys) == FieldsOfEach(xs) + FieldsOfEach(ys)
  {
    if xs == [] {
      assert xs + ys == ys;
    } else {
      assert (xs + ys)[1..] == xs[1..] + ys;
      FieldsOfEachAppend(xs[1..], ys);
    }
  }

  /** Appending one more item to a non-empty join adds the separator and the item. */
  lemma {:induction false} JoinSnoc(ws: seq<string>, w: string, sep: string)
    requires ws != []
    ensures Join(ws + [w], sep) == Join(ws, sep) + sep + w
  {
    if |ws| == 1 {
      assert (ws + [w])[1..] == [w];
    } else {
      assert (ws + [w])[1..] == ws[1..] + [w];
      JoinSnoc(ws[1..], w, sep);
    }
  }
}
