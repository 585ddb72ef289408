/**
 * The string operations the source relies on: `indexOf`, `split` and
 * `join` on a one-character separator, and `toUpperCase`.
 */
module Text {
  import opened Wrappers

  /** `s.indexOf(c)`: the first position of `c` in `s`. */
  function IndexOf(s: string, c: char): (r: Option<nat>)
    ensures r.Some? ==> r.value < |s| && s[r.value] == c && c !in s[..r.value]
    ensures r.None? <==> c !in s
  {
    if s == [] then None
    else if s[0] == c then Some(0)
    else match IndexOf(s[1..], c)
      case None => None
      case Some(i) =>
        assert s[..i + 1] == [s[0]] + s[1..][..i];
        Some(i + 1)
  }

  /** The first separator after a separator-free word is the one that follows it. */
  lemma {:induction false} IndexOfAfterWord(w: string, sep: char, t: string)
    requires sep !in w
    ensures IndexOf(w + [sep] + t, sep) == Some(|w|)
  {
    if w != [] {
      assert (w + [sep] + t)[1..] == w[1..] + [sep] + t;
      IndexOfAfterWord(w[1..], sep, t);
    }
  }

  /** `s.split(sep)` for a one-character separator. */
  function Split(s: string, sep: char): (r: seq<string>)
    ensures |r| >= 1
    ensures forall k :: 0 <= k < |r| ==> sep !in r[k]
    decreases |s|
  {
    match IndexOf(s, sep)
    case None => [s]
    case Some(i) => [s[..i]] + Split(s[i + 1..], sep)
  }

  /** `words.join(sep)`. */
  function Join(words: seq<string>, sep: char): string {
    if |words| == 0 then ""
    else if |words| == 1 then words[0]
    else words[0] + [sep] + Join(words[1..], sep)
  }

  /** Joining a word in front of a non-empty list of words puts a separator between them. */
  lemma JoinCons(w: string, words: seq<string>, sep: char)
    requires |words| >= 1
    ensures Join([w] + words, sep) == w + [sep] + Join(words, sep)
  {
    assert ([w] + words)[1..] == words;
  }

  /** Joining the pieces of a split gives back the string. */
  lemma {:induction false} JoinSplit(s: string, sep: char)
    ensures Join(Split(s, sep), sep) == s
    decreases |s|
  {
    match IndexOf(s, sep)
    case None =>
    case Some(i) =>
      var w, t := s[..i], s[i + 1..];
      assert s == w + [sep] + t;
      assert Split(s, sep) == [w] + Split(t, sep);
      JoinCons(w, Split(t, sep), sep);
      JoinSplit(t, sep);
  }

  /** A join of two or more words: the first word, a separator, the second word and the join of the rest. */
  lemma JoinTwoOrMore(words: seq<string>, sep: char)
    requires |words| >= 2
    ensures Join(words, sep) == words[0] + [sep] + words[1] + (if |words| == 2 then [] else [sep] + Join(words[2..], sep))
  {
    var head, t := words[0] + [sep], Join(words[1..], sep);
    if |words| > 2 {
      var more := [sep] + Join(words[2..], sep);
      assert words[1..][1..] == words[2..];
      assert t == words[1] + more;
      assert head + (words[1] + more) == head + words[1] + more;
    }
  }

  /** A string with at least two fields is its first field, a separator, its second field and the rest. */
  lemma SplitSecondField(s: string, sep: char)
    requires |Split(s, sep)| >= 2
    ensures var parts := Split(s, sep);
      s == parts[0] + [sep] + parts[1] + (if |parts| == 2 then [] else [sep] + Join(parts[2..], sep))
  {
    JoinSplit(s, sep);
    JoinTwoOrMore(Split(s, sep), sep);
  }

  /** Splitting a separator-free word, a separator and a tail: the word, then the pieces of the tail. */
  lemma SplitAfterWord(w: string, sep: char, t: string)
    requires sep !in w
    ensures Split(w + [sep] + t, sep) == [w] + Split(t, sep)
  {
    var s := w + [sep] + t;
    IndexOfAfterWord(w, sep, t);
    assert s[..|w|] == w;
    assert s[|w| + 1..] == t;
  }

  /** Splitting a join of separator-free words gives back the words. */
  lemma {:induction false} SplitJoin(words: seq<string>, sep: char)
    requires |words| >= 1
    requires forall k :: 0 <= k < |words| ==> sep !in words[k]
    ensures Split(Join(words, sep), sep) == words
  {
    if |words| > 1 {
      var w, tail := words[0], words[1..];
      var rest := Join(tail, sep);
      assert forall k :: 0 <= k < |tail| ==> tail[k] == words[k + 1];
      SplitJoin(tail, sep);
      SplitAfterWord(w, sep, rest);
      assert Join(words, sep) == w + [sep] + rest;
      assert words == [w] + tail;
    }
  }

  /** `z.string().min(n)`: present and at least `n` characters long. */
  predicate AtLeast(v: Option<string>, n: nat) {
    v.Some? && |v.value| >= n
  }

  /** `toUpperCase` on one character; only the ASCII letters are mapped. */
  function UpperChar(c: char): char {
    if 'a' <= c <= 'z' then (c as int - 32) as char else c
  }

  /** `s.toUpperCase()`, character by character. */
  function ToUpper(s: string): (r: string)
    ensures |r| == |s|
    ensures forall i :: 0 <= i < |s| ==> r[i] == UpperChar(s[i])
  {
    if s == [] then [] else [UpperChar(s[0])] + ToUpper(s[1..])
  }

  /** `s.slice(0, n)` and `s.substring(0, n)` for `n >= 0`. */
  function Prefix<T>(s: seq<T>, n: nat): (r: seq<T>)
    ensures |r| == if n <= |s| then n else |s|
    ensures r <= s
  {
    if n <= |s| then s[..n] else s
  }

  /** Upper-casing and taking a prefix commute: `s.substring(0, n).toUpperCase()` equals `s.toUpperCase().slice(0, n)`. */
  lemma UpperPrefix(s: string, n: nat)
    ensures ToUpper(Prefix(s, n)) == Prefix(ToUpper(s), n)
  {
    var a := ToUpper(Prefix(s, n));
    var b := Prefix(ToUpper(s), n);
    assert |a| == |b|;
    assert forall i :: 0 <= i < |a| ==> a[i] == UpperChar(s[i]) == b[i];
  }
}
