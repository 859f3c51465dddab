/** The observable behaviour of `new StringTokenizer(s, "(", true)`: the string is cut into
    maximal runs free of `(`, and every `(` is a token of its own; no token is empty. */
module Tokenizer {

  /** The only delimiter character of the sensor format. */
  const Delim: char := '('

  /** `w` contains no delimiter. */
  predicate NoDelim(w: seq<char>)
  {
    forall i :: 0 <= i < |w| ==> w[i] != Delim
  }

  /** A token returned by the tokenizer: a lone delimiter, or a non-empty run without one. */
  predicate IsToken(w: seq<char>)
  {
    w == [Delim] || (w != [] && NoDelim(w))
  }

  /** Two run tokens are never adjacent: each run is as long as it can be. */
  predicate Maximal(ts: seq<seq<char>>)
  {
    forall i, j :: 0 <= i < |ts| && j == i + 1 < |ts| ==> ts[i] == [Delim] || ts[j] == [Delim]
  }

  /** The concatenation of a token list. */
  function Join(ts: seq<seq<char>>): seq<char>
  {
    if ts == [] then [] else ts[0] + Join(ts[1..])
  }

  /** The length of the longest delimiter-free prefix of `s`. */
  function RunLength(s: seq<char>): (n: nat)
    ensures n <= |s| && NoDelim(s[..n])
    ensures n < |s| ==> s[n] == Delim
  {
    if s == [] || s[0] == Delim then 0 else 1 + RunLength(s[1..])
  }

  /** The tokens of `s`, in order: they rebuild `s`, each is a token, and runs are maximal. */
  function Tokenize(s: seq<char>): (ts: seq<seq<char>>)
    ensures Join(ts) == s
    ensures forall i :: 0 <= i < |ts| ==> IsToken(ts[i])
    ensures Maximal(ts)
    ensures s != [] ==> ts != [] && ts[0] != [] && ts[0][0] == s[0]
    decreases |s|
  {
    if s == [] then []
    else if s[0] == Delim then [[Delim]] + Tokenize(s[1..])
    else
      var n := RunLength(s);
      assert s == s[..n] + s[n..];
      [s[..n]] + Tokenize(s[n..])
  }

  /** A delimiter-free word followed by nothing or by a delimiter: the run is exactly the word. */
  lemma {:induction false} RunLengthOfWord(w: seq<char>, t: seq<char>)
    requires NoDelim(w)
    requires t == [] || t[0] == Delim
    ensures RunLength(w + t) == |w|
  {
    if w != [] {
      assert (w + t)[1..] == w[1..] + t;
      RunLengthOfWord(w[1..], t);
    }
  }

  /** The split is unique: any token list that is maximal and rebuilds `s` is `Tokenize(s)`. */
  lemma {:induction false} TokenizeUnique(ts: seq<seq<char>>)
    requires forall i :: 0 <= i < |ts| ==> IsToken(ts[i])
    requires Maximal(ts)
    ensures Tokenize(Join(ts)) == ts
  {
    if ts != [] {
      var rest := ts[1..];
      assert forall i :: 0 <= i < |rest| ==> IsToken(rest[i]) by {
        forall i | 0 <= i < |rest| ensures IsToken(rest[i]) { assert rest[i] == ts[i + 1]; }
      }
      assert Maximal(rest) by {
        forall i | 0 <= i < |rest| - 1 ensures rest[i] == [Delim] || rest[i + 1] == [Delim] {
          assert rest[i] == ts[i + 1] && rest[i + 1] == ts[i + 2];
        }
      }
      TokenizeUnique(rest);
      var s := Join(ts);
      assert s == ts[0] + Join(rest);
      if ts[0] == [Delim] {
        assert s[0] == Delim && s[1..] == Join(rest);
      } else {
        var w := ts[0];
        assert Join(rest) == [] || Join(rest)[0] == Delim by {
          if rest != [] {
            assert ts[1] == [Delim];
            assert Join(rest) == [Delim] + Join(rest[1..]);
          }
        }
        RunLengthOfWord(w, Join(rest));
        assert s[0] != Delim;
        assert s[..|w|] == w && s[|w|..] == Join(rest);
      }
    }
  }
}
