/**
 * Random payload synthesis: the 52-letter random strings, the word list
 * built once at start-up, and the two data functions that turn the word
 * list into the `data_string` of every message.
 *
 * `math/rand` is replaced by explicit inputs: a stream of letter draws
 * (the successive results of `rand.Intn(len(letters))`) and, for every
 * multi-word payload, the permutation `rand.Perm` returned.
 */
module Payload {
  import opened Common

  /** The alphabet random strings are drawn from: a-z, then A-Z. */
  const Letters: string := "abcdefghijklm" + "nopqrstuvwxyz" + "ABCDEFGHIJKLM" + "NOPQRSTUVWXYZ"

  /** The separator of the multi-word payload is not a letter. */
  lemma SpaceIsNotALetter()
    ensures ' ' !in Letters
  {
  }

  /** One result of `rand.Intn(len(letters))`: an index into `Letters`. */
  newtype LetterIndex = x: int | 0 <= x < 52

  /** The letters a sequence of draws selects, in order. */
  function LettersOf(draws: seq<LetterIndex>): (s: string)
    ensures |s| == |draws|
    ensures forall k :: 0 <= k < |draws| ==> s[k] == Letters[draws[k] as int]
  {
    seq(|draws|, k requires 0 <= k < |draws| => Letters[draws[k] as int])
  }

  /** Every character of `w` is one of the 52 letters. */
  predicate IsLetterWord(w: string)
  {
    forall c :: 0 <= c < |w| ==> w[c] in Letters
  }

  lemma LettersOfAppend(a: seq<LetterIndex>, b: seq<LetterIndex>)
    ensures LettersOf(a + b) == LettersOf(a) + LettersOf(b)
  {
  }

  /** A word made of letters never contains the separator of the multi-word payload. */
  lemma LetterWordHasNoSpace(w: string)
    requires IsLetterWord(w)
    ensures ' ' !in w
  {
    SpaceIsNotALetter();
    forall c | 0 <= c < |w|
      ensures w[c] != ' '
    {
      assert w[c] in Letters;
    }
  }

  /**
   * randomStringN: a string of exactly `n` letters, the k-th chosen by the
   * k-th draw. A negative `n` makes `make([]byte, n)` panic.
   */
  method RandomStringN(n: int, draws: seq<LetterIndex>) returns (r: Option<string>)
    requires n >= 0 ==> n <= |draws|
    ensures r.None? <==> n < 0
    ensures r.Some? ==> |r.value| == n && r.value == LettersOf(draws[..n])
    ensures r.Some? ==> IsLetterWord(r.value)
  {
    if n < 0 {
      return None;
    }
    var b := new char[n];
    for i := 0 to n
      invariant forall k :: 0 <= k < i ==> b[k] == Letters[draws[k] as int]
    {
      b[i] := Letters[draws[i] as int];
    }
    return Some(b[..]);
  }

  /** All words of `ws` written one after the other. */
  function Concat(ws: seq<string>): string
  {
    if ws == [] then [] else Concat(ws[..|ws| - 1]) + ws[|ws| - 1]
  }

  lemma ConcatAppend(ws: seq<string>, w: string)
    ensures Concat(ws + [w]) == Concat(ws) + w
  {
    assert (ws + [w])[..|ws|] == ws;
  }

  lemma LettersOfSplit(draws: seq<LetterIndex>, used: nat, n: nat)
    requires used + n <= |draws|
    ensures LettersOf(draws[..used + n]) == LettersOf(draws[..used]) + LettersOf(draws[used..][..n])
  {
    assert draws[..used + n] == draws[..used] + draws[used..][..n];
    LettersOfAppend(draws[..used], draws[used..][..n]);
  }

  /** The draws the next word needs are there while words remain to be built. */
  lemma NextWordFits(built: nat, count: int, length: nat, available: nat)
    requires built < count && count * length <= available
    ensures built * length + length <= available
    ensures (built + 1) * length == built * length + length
  {
    assert (built + 1) * length <= count * length;
  }

  /**
   * The start-up loop that appends `randomStringN(length)` while counting
   * `count` down to zero. A non-positive count builds no word; a negative
   * length panics on the first word. The words consume the draws in order,
   * `length` draws each.
   */
  method BuildWordList(count: int, length: int, draws: seq<LetterIndex>) returns (words: Option<seq<string>>)
    requires count > 0 && length >= 0 ==> count * length <= |draws|
    ensures words.None? <==> count > 0 && length < 0
    ensures words.Some? ==> |words.value| == if count > 0 then count else 0
    ensures words.Some? ==> forall k :: 0 <= k < |words.value| ==>
              |words.value[k]| == length && IsLetterWord(words.value[k])
    ensures words.Some? ==> Concat(words.value) == LettersOf(draws[..|words.value| * length])
  {
    var ws: seq<string> := [];
    var remaining := count;
    var used := 0;
    while remaining > 0
      invariant |ws| + remaining == count
      invariant remaining >= 0 || ws == []
      invariant length < 0 ==> ws == []
      invariant forall k :: 0 <= k < |ws| ==> |ws[k]| == length && IsLetterWord(ws[k])
      invariant used == |ws| * length
      invariant length >= 0 ==> 0 <= used <= |draws| && Concat(ws) == LettersOf(draws[..used])
    {
      if length < 0 {
        // make([]byte, length) panics on the first word
        var w := RandomStringN(length, []);
        assert w.None?;
        return None;
      }
      NextWordFits(|ws|, count, length, |draws|);
      var w := RandomStringN(length, draws[used..]);
      LettersOfSplit(draws, used, length);
      ConcatAppend(ws, w.value);
      ws := ws + [w.value];
      used := used + length;
      remaining := remaining - 1;
    }
    return Some(ws);
  }

  // ----- strings.Join(r, " ") and strings.Split(s, " ") -----

  /** The number of characters in all words of `ws` together. */
  function TotalLength(ws: seq<string>): nat
  {
    if ws == [] then 0 else |ws[0]| + TotalLength(ws[1..])
  }

  /**
   * `strings.Join(ws, " ")`: no words give the empty string, one word gives
   * itself, and otherwise the words are separated by one space each. Its
   * inverse on space-free words is `Split` (see `JoinSplit`, `SplitJoin`).
   */
  function Join(ws: seq<string>): (s: string)
    ensures |ws| == 0 ==> s == ""
    ensures |ws| == 1 ==> s == ws[0]
    ensures |ws| >= 1 ==> |s| == TotalLength(ws) + |ws| - 1
    ensures |ws| >= 2 ==> s[..|ws[0]|] == ws[0] && s[|ws[0]|] == ' '
  {
    if |ws| == 0 then "" else if |ws| == 1 then ws[0] else ws[0] + " " + Join(ws[1..])
  }

  /**
   * `strings.Split(s, " ")`: the pieces between single spaces, empty pieces
   * kept. The program never splits; this is the reference tokenizer in which
   * the token property of the joined payload is stated.
   */
  function Split(s: string): (ws: seq<string>)
    ensures |ws| >= 1
  {
    if |s| == 0 then [""]
    else if s[0] == ' ' then [""] + Split(s[1..])
    else var t := Split(s[1..]); [[s[0]] + t[0]] + t[1..]
  }

  /** Joining the pieces of a split gives the string back. */
  lemma {:induction false} JoinSplit(s: string)
    ensures Join(Split(s)) == s
  {
    if |s| > 0 {
      var t := Split(s[1..]);
      JoinSplit(s[1..]);
      if s[0] == ' ' {
        assert Split(s) == [""] + t;
        assert ([""] + t)[1..] == t;
        assert s == " " + s[1..];
      } else {
        var u := [[s[0]] + t[0]] + t[1..];
        assert Split(s) == u;
        if |t| == 1 {
          assert s == [s[0]] + s[1..];
        } else {
          assert u[1..] == t[1..];
          assert Join(t) == t[0] + " " + Join(t[1..]);
          assert s == [s[0]] + s[1..];
        }
      }
    }
  }

  lemma {:induction false} SplitNoSpace(w: string)
    requires ' ' !in w
    ensures Split(w) == [w]
  {
    if |w| > 0 {
      assert w == [w[0]] + w[1..];
      SplitNoSpace(w[1..]);
    }
  }

  lemma {:induction false} SplitAfterWord(w: string, rest: string)
    requires ' ' !in w
    ensures Split(w + " " + rest) == [w] + Split(rest)
  {
    if |w| == 0 {
      assert w + " " + rest == " " + rest;
      assert (" " + rest)[1..] == rest;
    } else {
      var s := w + " " + rest;
      assert s[0] == w[0];
      assert s[1..] == w[1..] + " " + rest;
      assert w == [w[0]] + w[1..];
      SplitAfterWord(w[1..], rest);
      var t := Split(s[1..]);
      assert t == [w[1..]] + Split(rest);
      assert [s[0]] + t[0] == w;
      assert t[1..] == Split(rest);
    }
  }

  /** Splitting the join of space-free words gives back exactly those words. */
  lemma {:induction false} SplitJoin(ws: seq<string>)
    requires |ws| >= 1
    requires forall w :: w in ws ==> ' ' !in w
    ensures Split(Join(ws)) == ws
  {
    if |ws| == 1 {
      SplitNoSpace(ws[0]);
    } else {
      assert ws[0] in ws;
      assert forall w :: w in ws[1..] ==> w in ws;
      SplitJoin(ws[1..]);
      SplitAfterWord(ws[0], Join(ws[1..]));
      assert [ws[0]] + ws[1..] == ws;
    }
  }

  // ----- rand.Perm and the multi-word placement -----

  /** `perm` is a permutation of 0 .. k-1, as `rand.Perm(k)` returns. */
  predicate IsPermutation(perm: seq<int>, k: nat)
  {
    && |perm| == k
    && (forall i :: 0 <= i < k ==> 0 <= perm[i] < k)
    && (forall i, j :: 0 <= i < j < k ==> perm[i] != perm[j])
  }

  /** `perm` without its last entry, the gap it leaves closed up. */
  function Shrink(perm: seq<int>): seq<int>
    requires |perm| > 0
  {
    var last := perm[|perm| - 1];
    seq(|perm| - 1, i requires 0 <= i < |perm| - 1 => if perm[i] < last then perm[i] else perm[i] - 1)
  }

  lemma ShrinkIsPermutation(perm: seq<int>, k: nat)
    requires k > 0 && IsPermutation(perm, k)
    ensures IsPermutation(Shrink(perm), k - 1)
  {
    var q := Shrink(perm);
    var p := perm[k - 1];
    forall i | 0 <= i < k - 1
      ensures 0 <= q[i] < k - 1
    {
      assert perm[i] != p;
    }
    forall i, j | 0 <= i < j < k - 1
      ensures q[i] != q[j]
    {
      assert perm[i] != p && perm[j] != p && perm[i] != perm[j];
    }
  }

  /** An injective map of 0 .. k-1 into itself reaches every value (pigeonhole). */
  lemma {:induction false} PermutationCovers(perm: seq<int>, k: nat)
    requires IsPermutation(perm, k)
    ensures forall j :: 0 <= j < k ==> j in perm
    decreases k
  {
    if k > 0 {
      var p := perm[k - 1];
      var q := Shrink(perm);
      ShrinkIsPermutation(perm, k);
      PermutationCovers(q, k - 1);
      forall j | 0 <= j < k
        ensures j in perm
      {
        if j == p {
          assert perm[k - 1] == j;
        } else {
          var t := if j < p then j else j - 1;
          assert t in q;
          var i :| 0 <= i < k - 1 && q[i] == t;
          assert perm[i] == j;
        }
      }
    }
  }

  /** The position of value `j` in `perm`. */
  function IndexOf(perm: seq<int>, j: int): (i: nat)
    requires j in perm
    ensures i < |perm| && perm[i] == j
  {
    if perm[0] == j then 0 else 1 + IndexOf(perm[1..], j)
  }

  /**
   * The slice the multi-word data function fills: `r[perm[i]] = words[i]`
   * for every i. The permutation reaches every slot, so each slot holds the
   * word whose index `perm` sends there.
   */
  function Placement(words: seq<string>, perm: seq<int>): (r: seq<string>)
    requires IsPermutation(perm, |words|)
    ensures |r| == |words|
    ensures forall i :: 0 <= i < |words| ==> r[perm[i]] == words[i]
  {
    PermutationCovers(perm, |words|);
    seq(|words|, j requires 0 <= j < |words| => words[IndexOf(perm, j)])
  }

  /**
   * Any slice filled through a permutation holds the same words, with the
   * same multiplicities, as the list it was filled from.
   */
  lemma {:induction false} PlacedIsPermutation(words: seq<string>, perm: seq<int>, r: seq<string>)
    requires IsPermutation(perm, |words|)
    requires |r| == |words|
    requires forall i :: 0 <= i < |words| ==> r[perm[i]] == words[i]
    ensures multiset(r) == multiset(words)
  {
    var k := |words|;
    if k > 0 {
      var p := perm[k - 1];
      var q := Shrink(perm);
      ShrinkIsPermutation(perm, k);
      var r' := r[..p] + r[p + 1..];
      var w' := words[..k - 1];
      forall i | 0 <= i < k - 1
        ensures r'[q[i]] == w'[i]
      {
        assert perm[i] != p;
      }
      PlacedIsPermutation(w', q, r');
      assert r == r[..p] + [r[p]] + r[p + 1..];
      assert words == w' + [words[k - 1]];
    }
  }

  /**
   * The multi-word data function: place every word through `perm` into a
   * fresh slice and join the slice with single spaces.
   */
  method MultiWordData(words: seq<string>, perm: seq<int>) returns (s: string)
    requires IsPermutation(perm, |words|)
    ensures s == Join(Placement(words, perm))
  {
    var r := new string[|words|];
    for i := 0 to |perm|
      invariant forall m :: 0 <= m < i ==> r[perm[m]] == words[m]
    {
      r[perm[i]] := words[i];
    }
    var placed := Placement(words, perm);
    forall j | 0 <= j < |words|
      ensures r[j] == placed[j]
    {
      PermutationCovers(perm, |words|);
      var m := IndexOf(perm, j);
      assert r[perm[m]] == words[m];
      assert placed[perm[m]] == words[m];
    }
    assert r[..] == placed;
    s := Join(r[..]);
  }

  /**
   * The data function chosen for the word list: more than one word gives
   * the permuted join, otherwise every call returns `words[0]` (a panic on
   * an empty list) and draws no permutation.
   */
  method DataFunc(words: seq<string>, perm: seq<int>) returns (r: Option<string>)
    requires |words| > 1 ==> IsPermutation(perm, |words|)
    ensures r.None? <==> |words| == 0
    ensures |words| == 1 ==> r == Some(words[0])
    ensures |words| > 1 ==> r == Some(Join(Placement(words, perm)))
  {
    if |words| > 1 {
      var s := MultiWordData(words, perm);
      r := Some(s);
    } else if |words| == 1 {
      r := Some(words[0]);
    } else {
      r := None;
    }
  }

  /**
   * A multi-word payload built from letter words splits on single spaces
   * back into the placed slice.
   */
  lemma MultiWordSplits(words: seq<string>, perm: seq<int>)
    requires |words| >= 1 && IsPermutation(perm, |words|)
    requires forall k :: 0 <= k < |words| ==> IsLetterWord(words[k])
    ensures Split(Join(Placement(words, perm))) == Placement(words, perm)
  {
    var r := Placement(words, perm);
    PlacedIsPermutation(words, perm, r);
    forall w | w in r
      ensures ' ' !in w
    {
      assert w in multiset(words);
      var k :| 0 <= k < |words| && words[k] == w;
      LetterWordHasNoSpace(words[k]);
    }
    SplitJoin(r);
  }

  /**
   * Hence such a payload has exactly one token per word, and its tokens are
   * a permutation of the word list.
   */
  lemma MultiWordTokens(words: seq<string>, perm: seq<int>, payload: string)
    requires |words| >= 1 && IsPermutation(perm, |words|)
    requires forall k :: 0 <= k < |words| ==> IsLetterWord(words[k])
    requires payload == Join(Placement(words, perm))
    ensures |Split(payload)| == |words|
    ensures multiset(Split(payload)) == multiset(words)
  {
    MultiWordSplits(words, perm);
    PlacedIsPermutation(words, perm, Placement(words, perm));
  }
}
