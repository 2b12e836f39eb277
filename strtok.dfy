/**
 * The C library's `strtok`, as the shell uses it: a cursor into one string
 * that yields the maximal runs of non-delimiter characters, skipping any
 * number of delimiters and never yielding an empty token.
 *
 * `Pieces` is an independent reference: the text between every two
 * delimiters, empty pieces included. `TokensArePieces` proves that strtok's
 * tokens are exactly the non-empty pieces, in order.
 */
module Strtok {
  import opened Options

  /** A token and the index at which the next `strtok(NULL, ...)` resumes. */
  datatype Token = Token(text: string, next: nat)

  /** First index at or after `i` that does not hold a delimiter. */
  function SkipDelims(s: string, i: nat, d: set<char>): (b: nat)
    requires i <= |s|
    ensures i <= b <= |s|
    ensures forall k :: i <= k < b ==> s[k] in d
    ensures b < |s| ==> s[b] !in d
    decreases |s| - i
  {
    if i == |s| || s[i] !in d then i else SkipDelims(s, i + 1, d)
  }

  /** First index at or after `i` that holds a delimiter, or the end. */
  function TokenEnd(s: string, i: nat, d: set<char>): (e: nat)
    requires i <= |s|
    ensures i <= e <= |s|
    ensures forall k :: i <= k < e ==> s[k] !in d
    ensures e < |s| ==> s[e] in d
    decreases |s| - i
  {
    if i == |s| || s[i] in d then i else TokenEnd(s, i + 1, d)
  }

  /** `t` is what strtok finds when it resumes at `i`: only delimiters before
      it, no delimiter inside it, a delimiter or the end right after it. */
  ghost predicate IsTokenAt(s: string, i: nat, d: set<char>, t: Token)
  {
    var b := t.next - |t.text|;
    i <= b < t.next <= |s| && s[b..t.next] == t.text
    && (forall k :: i <= k < b ==> s[k] in d)
    && (forall k :: b <= k < t.next ==> s[k] !in d)
    && (t.next < |s| ==> s[t.next] in d)
  }

  /** One call of strtok resuming at index `i`; None means NULL. */
  function StrTok(s: string, i: nat, d: set<char>): (r: Option<Token>)
    requires i <= |s|
    ensures r.None? <==> forall k :: i <= k < |s| ==> s[k] in d
    ensures r.Some? ==> i < r.value.next <= |s| && IsTokenAt(s, i, d, r.value)
  {
    var b := SkipDelims(s, i, d);
    if b == |s| then None
    else
      var e := TokenEnd(s, b, d);
      Some(Token(s[b..e], e))
  }

  /** All tokens the strtok calls yield from index `i` on. */
  function TokensFrom(s: string, i: nat, d: set<char>): (r: seq<string>)
    requires i <= |s|
    ensures |r| <= |s| - i
    ensures forall k :: 0 <= k < |r| ==> |r[k]| > 0
    ensures forall k, j :: 0 <= k < |r| && 0 <= j < |r[k]| ==> r[k][j] !in d
    decreases |s| - i
  {
    match StrTok(s, i, d)
    case None => []
    case Some(t) => [t.text] + TokensFrom(s, t.next, d)
  }

  function Tokens(s: string, d: set<char>): seq<string>
  {
    TokensFrom(s, 0, d)
  }

  /** Number of characters of `s` that are delimiters. */
  function CountIn(s: string, d: set<char>): nat
  {
    if s == [] then 0 else (if s[0] in d then 1 else 0) + CountIn(s[1..], d)
  }

  /** The pieces between delimiters, empty ones included. */
  function Pieces(s: string, d: set<char>): (r: seq<string>)
    ensures |r| == CountIn(s, d) + 1
    ensures forall k, j :: 0 <= k < |r| && 0 <= j < |r[k]| ==> r[k][j] !in d
  {
    if s == [] then [[]]
    else
      var rest := Pieces(s[1..], d);
      if s[0] in d then [[]] + rest
      else
        assert forall j :: 0 <= j < |rest[0]| ==> rest[0][j] !in d;
        [[s[0]] + rest[0]] + rest[1..]
  }

  function NonEmpty(ps: seq<string>): (r: seq<string>)
    ensures |r| <= |ps|
    ensures forall p :: p in r ==> p in ps && p != []
  {
    if ps == [] then [] else (if ps[0] == [] then [] else [ps[0]]) + NonEmpty(ps[1..])
  }

  /** The pieces glued back together with one separator between each two. */
  function Join(ps: seq<string>, c: char): string
    requires |ps| > 0
  {
    if |ps| == 1 then ps[0] else ps[0] + [c] + Join(ps[1..], c)
  }

  /** The pieces are a faithful split: joining them restores the string. */
  lemma {:induction false} JoinPieces(s: string, c: char)
    ensures Join(Pieces(s, {c}), c) == s
  {
    if s != [] {
      var rest := Pieces(s[1..], {c});
      JoinPieces(s[1..], c);
      if s[0] == c {
        assert Pieces(s, {c}) == [[]] + rest;
        assert ([[]] + rest)[1..] == rest;
      } else {
        var ps := [[s[0]] + rest[0]] + rest[1..];
        assert Pieces(s, {c}) == ps;
        if |rest| == 1 {
          assert Join(ps, c) == [s[0]] + Join(rest, c);
        } else {
          assert ps[1..] == rest[1..];
          assert Join(ps, c) == [s[0]] + rest[0] + [c] + Join(rest[1..], c);
        }
      }
    }
  }

  /** A delimiter at the resume point changes nothing. */
  lemma SkipOneDelim(s: string, i: nat, d: set<char>)
    requires i < |s| && s[i] in d
    ensures TokensFrom(s, i, d) == TokensFrom(s, i + 1, d)
  {
    assert SkipDelims(s, i, d) == SkipDelims(s, i + 1, d);
    assert StrTok(s, i, d) == StrTok(s, i + 1, d);
  }

  /** The first piece of a string that starts with an ordinary character. */
  lemma PiecesCons(s: string, d: set<char>)
    requires s != [] && s[0] !in d
    ensures var r := Pieces(s[1..], d);
      Pieces(s, d) == [[s[0]] + r[0]] + r[1..]
  {
  }

  /** Peels a delimiter-free stretch s[i..j] off the front of the pieces. */
  lemma {:induction false} PeelPieces(s: string, i: nat, j: nat, d: set<char>)
    requires i <= j <= |s|
    requires forall k :: i <= k < j ==> s[k] !in d
    ensures var q := Pieces(s[j..], d);
      Pieces(s[i..], d) == [s[i..j] + q[0]] + q[1..]
    decreases j - i
  {
    var q := Pieces(s[j..], d);
    if i == j {
      assert s[i..j] == [];
      assert s[i..j] + q[0] == q[0];
      assert [q[0]] + q[1..] == q;
    } else {
      PeelPieces(s, i + 1, j, d);
      var r := Pieces(s[i + 1..], d);
      assert s[i..][1..] == s[i + 1..];
      PiecesCons(s[i..], d);
      assert [s[i]] + r[0] == [s[i]] + (s[i + 1..j] + q[0]) == s[i..j] + q[0];
    }
  }

  /** The pieces of a string that starts with a delimiter. */
  lemma PiecesAfterDelim(s: string, i: nat, d: set<char>)
    requires i < |s| && s[i] in d
    ensures NonEmpty(Pieces(s[i..], d)) == NonEmpty(Pieces(s[i + 1..], d))
  {
    assert s[i..][1..] == s[i + 1..];
    var r := Pieces(s[i + 1..], d);
    assert Pieces(s[i..], d) == [[]] + r;
    assert ([[]] + r)[1..] == r;
  }

  /** The pieces of a string whose first token is s[i..e]. */
  lemma PiecesAtToken(s: string, i: nat, e: nat, d: set<char>)
    requires i < e <= |s|
    requires forall k :: i <= k < e ==> s[k] !in d
    requires e < |s| ==> s[e] in d
    ensures e == |s| ==> NonEmpty(Pieces(s[i..], d)) == [s[i..e]]
    ensures e < |s| ==> NonEmpty(Pieces(s[i..], d)) == [s[i..e]] + NonEmpty(Pieces(s[e + 1..], d))
  {
    PeelPieces(s, i, e, d);
    var q := Pieces(s[e..], d);
    var ps := [s[i..e] + q[0]] + q[1..];
    assert s[i..e] != [];
    if e == |s| {
      assert s[e..] == [];
      assert q == [[]];
      assert s[i..e] + q[0] == s[i..e];
      assert ps == [s[i..e]];
      assert NonEmpty(ps) == [s[i..e]] + NonEmpty([]);
    } else {
      assert s[e..][1..] == s[e + 1..];
      assert q == [[]] + Pieces(s[e + 1..], d);
      assert q[0] == [] && q[1..] == Pieces(s[e + 1..], d);
      assert s[i..e] + q[0] == s[i..e];
      assert ps == [s[i..e]] + Pieces(s[e + 1..], d);
      assert ps[1..] == Pieces(s[e + 1..], d);
    }
  }

  /** strtok's tokens are exactly the non-empty pieces, in order. */
  lemma {:induction false} TokensArePieces(s: string, i: nat, d: set<char>)
    requires i <= |s|
    ensures TokensFrom(s, i, d) == NonEmpty(Pieces(s[i..], d))
    decreases |s| - i
  {
    if i == |s| {
      assert s[i..] == [];
    } else if s[i] in d {
      SkipOneDelim(s, i, d);
      TokensArePieces(s, i + 1, d);
      PiecesAfterDelim(s, i, d);
    } else {
      var e := TokenEnd(s, i, d);
      assert SkipDelims(s, i, d) == i;
      assert StrTok(s, i, d) == Some(Token(s[i..e], e));
      assert TokensFrom(s, i, d) == [s[i..e]] + TokensFrom(s, e, d);
      PiecesAtToken(s, i, e, d);
      if e == |s| {
        assert TokensFrom(s, e, d) == [];
      } else {
        SkipOneDelim(s, e, d);
        TokensArePieces(s, e + 1, d);
      }
    }
  }

  /** A line with n delimiters has at most n + 1 tokens. */
  lemma TokenCountBound(s: string, d: set<char>)
    ensures |Tokens(s, d)| <= CountIn(s, d) + 1
  {
    TokensArePieces(s, 0, d);
    assert s[0..] == s;
  }
}
