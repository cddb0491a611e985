/** Splitting a string on one separator character, the way both tokenisers of the renderer do it:
    scan for the next separator from position i with std::string::find, take the chunk before it,
    and continue one past the separator. A separator at the very end does not start a new chunk. */
module Text {

  /** Position of the first `c` in `s`, or |s| when there is none (std::string::find's npos). */
  function Find(s: string, c: char): (k: nat)
    ensures k <= |s|
    ensures k < |s| ==> s[k] == c
    ensures forall m :: 0 <= m < k ==> s[m] != c
  {
    if s == [] then 0 else if s[0] == c then 0 else 1 + Find(s[1..], c)
  }

  /** The chunks between separators. Empty chunks are kept. */
  function Split(s: string, sep: char): (r: seq<string>)
    ensures s == [] <==> r == []
    ensures forall k :: 0 <= k < |r| ==> sep !in r[k]
    decreases |s|
  {
    if s == [] then []
    else
      var j := Find(s, sep);
      if j == |s| then [s] else [s[..j]] + Split(s[j + 1..], sep)
  }

  /** The chunks put back together, one separator between neighbours. */
  function Join(ws: seq<string>, sep: char): string
  {
    if |ws| == 0 then [] else if |ws| == 1 then ws[0] else ws[0] + [sep] + Join(ws[1..], sep)
  }

  /** One step of the scanning loop, separator found: the chunk from i up to the separator at j,
      and the chunks after it. */
  lemma SplitStepMid(s: string, sep: char, i: nat, j: nat)
    requires i < |s| && j == i + Find(s[i..], sep) && j < |s|
    ensures Split(s[i..], sep) == [s[i..j]] + Split(s[j + 1..], sep)
  {
    SplitAt(s[i..], sep, j - i);
    SliceOfSlice(s, i, j);
  }

  /** One step of the scanning loop, no separator left: the rest is the last chunk. */
  lemma SplitStepLast(s: string, sep: char, i: nat)
    requires i < |s| && i + Find(s[i..], sep) == |s|
    ensures Split(s[i..], sep) == [s[i..]]
  {
  }

  lemma SliceOfSlice(s: string, i: nat, j: nat)
    requires i <= j < |s|
    ensures s[i..][..j - i] == s[i..j] && s[i..][j - i + 1..] == s[j + 1..]
  {
  }

  /** The loop invariant of every scanning loop: the chunks seen so far, followed by the chunks of
      what is left of the string, are all the chunks. Taking the chunk from i to the next separator j
      and moving to j + 1 keeps it. */
  lemma SplitScan(s: string, sep: char, done: seq<string>, i: nat, j: nat)
    requires i < |s| && j == i + Find(s[i..], sep)
    requires Scanned(s, sep, done, i)
    ensures j <= |s|
    ensures Scanned(s, sep, done + [s[i..j]], j + 1)
  {
    if j == |s| {
      SplitStepLast(s, sep, i);
      assert s[i..j] == s[i..];
      ScanLast(s, sep, done, i);
    } else {
      SplitStepMid(s, sep, i, j);
      ScanMid(done, s[i..j], Split(s[j + 1..], sep), Split(s, sep));
    }
  }

  lemma ScanLast(s: string, sep: char, done: seq<string>, i: nat)
    requires i < |s| && Split(s[i..], sep) == [s[i..]]
    requires done + Rest(s, sep, i) == Split(s, sep)
    ensures done + [s[i..]] + Rest(s, sep, |s| + 1) == Split(s, sep)
  {
    assert Rest(s, sep, |s| + 1) == [];
  }

  lemma ScanMid(done: seq<string>, chunk: string, more: seq<string>, all: seq<string>)
    requires done + ([chunk] + more) == all
    ensures done + [chunk] + more == all
  {
  }

  /** The loop invariant of every scanning loop, at position i after the chunks `done`. */
  predicate Scanned(s: string, sep: char, done: seq<string>, i: nat)
  {
    done + Rest(s, sep, i) == Split(s, sep)
  }

  /** Nothing is scanned before the loop starts. */
  lemma ScanStart(s: string, sep: char)
    ensures Scanned(s, sep, [], 0)
  {
    assert s[0..] == s;
  }

  /** Once the position is at or past the end, the chunks seen are all the chunks. */
  lemma ScanEnd(s: string, sep: char, done: seq<string>, i: nat)
    requires Scanned(s, sep, done, i) && i >= |s|
    ensures done == Split(s, sep)
  {
    assert Rest(s, sep, i) == [];
    assert done + [] == done;
  }

  /** The chunks after position i, none once i is past the end. */
  function Rest(s: string, sep: char, i: nat): seq<string>
  {
    if i <= |s| then Split(s[i..], sep) else []
  }

  /** Splitting and joining again gives the string back, less one trailing separator. */
  lemma {:induction false} JoinSplit(s: string, sep: char)
    ensures Join(Split(s, sep), sep) == DropTrailing(s, sep)
    decreases |s|
  {
    if s != [] {
      var j := Find(s, sep);
      if j < |s| {
        JoinSplit(s[j + 1..], sep);
        JoinSplitAt(s, sep, j);
      }
    }
  }

  /** The string less one separator at its end, if it has one there. */
  function DropTrailing(s: string, sep: char): string
  {
    if s != [] && s[|s| - 1] == sep then s[..|s| - 1] else s
  }

  /** The inductive step of JoinSplit: the first chunk, a separator, and the rest joined back. */
  lemma JoinSplitAt(s: string, sep: char, j: nat)
    requires j == Find(s, sep) < |s|
    requires Join(Split(s[j + 1..], sep), sep) == DropTrailing(s[j + 1..], sep)
    ensures Join(Split(s, sep), sep) == DropTrailing(s, sep)
  {
    SplitAt(s, sep, j);
    if j == |s| - 1 {
      assert s[j + 1..] == [];
      assert s[..|s| - 1] == s[..j];
    } else {
      JoinSplitMid(s, sep, j, Split(s[j + 1..], sep));
    }
  }

  lemma JoinSplitMid(s: string, sep: char, j: nat, chunks: seq<string>)
    requires j < |s| - 1 && s[j] == sep
    requires Split(s, sep) == [s[..j]] + chunks
    requires chunks != [] && Join(chunks, sep) == DropTrailing(s[j + 1..], sep)
    ensures Join(Split(s, sep), sep) == DropTrailing(s, sep)
  {
    JoinCons(s[..j], chunks, sep);
    if s[|s| - 1] == sep {
      assert DropTrailing(s[j + 1..], sep) == s[j + 1..|s| - 1];
      Reassemble(s, sep, j, |s| - 1);
    } else {
      assert DropTrailing(s[j + 1..], sep) == s[j + 1..|s|];
      Reassemble(s, sep, j, |s|);
      assert s[..|s|] == s;
    }
  }

  /** The first chunk ends at the first separator. */
  lemma SplitAt(s: string, sep: char, j: nat)
    requires j == Find(s, sep) < |s|
    ensures Split(s, sep) == [s[..j]] + Split(s[j + 1..], sep)
  {
  }

  lemma JoinCons(w: string, ws: seq<string>, sep: char)
    requires ws != []
    ensures Join([w] + ws, sep) == w + [sep] + Join(ws, sep)
  {
    assert ([w] + ws)[1..] == ws;
  }

  /** Cutting at a separator and gluing back with it. */
  lemma Reassemble(s: string, sep: char, j: nat, k: nat)
    requires j < k <= |s| && s[j] == sep
    ensures s[..j] + [sep] + s[j + 1..k] == s[..k]
  {
  }

  /** Joining words that contain no separator, the last of them non-empty, and splitting again gives
      the words back. */
  lemma {:induction false} SplitJoin(ws: seq<string>, sep: char)
    requires forall k :: 0 <= k < |ws| ==> sep !in ws[k]
    requires ws != [] ==> ws[|ws| - 1] != []
    ensures Split(Join(ws, sep), sep) == ws
  {
    if |ws| == 1 {
      SplitWhole(ws[0], sep);
    } else if |ws| > 1 {
      SplitJoin(ws[1..], sep);
      SplitCons(ws[0], Join(ws[1..], sep), sep);
      assert ws == [ws[0]] + ws[1..];
    }
  }

  /** A string without a separator is one chunk. */
  lemma SplitWhole(w: string, sep: char)
    requires w != [] && sep !in w
    ensures Split(w, sep) == [w]
  {
    assert Find(w, sep) == |w|;
  }

  /** A word without a separator, then a separator, then anything: the word is the first chunk. */
  lemma SplitCons(w: string, t: string, sep: char)
    requires sep !in w
    ensures Split(w + [sep] + t, sep) == [w] + Split(t, sep)
  {
    var s := w + [sep] + t;
    assert s == w + ([sep] + t);
    FindPast(w, [sep] + t, sep);
    SplitAt(s, sep, |w|);
    assert s[..|w|] == w;
    assert s[|w| + 1..] == t;
  }

  lemma {:induction false} FindPast(w: string, rest: string, sep: char)
    requires sep !in w
    requires rest != [] && rest[0] == sep
    ensures Find(w + rest, sep) == |w|
    decreases |w|
  {
    if w != [] {
      assert (w + rest)[1..] == w[1..] + rest;
      FindPast(w[1..], rest, sep);
    }
  }

  /** A single separator after the last chunk adds nothing. */
  lemma {:induction false} SplitTrailingSep(s: string, sep: char)
    requires s != [] && s[|s| - 1] != sep
    ensures Split(s + [sep], sep) == Split(s, sep)
    decreases |s|
  {
    var j := Find(s, sep);
    if j == |s| {
      SplitWhole(s, sep);
      SplitCons(s, [], sep);
      assert s + [sep] == s + [sep] + [];
    } else {
      var w, t := s[..j], s[j + 1..];
      SplitTrailingSep(t, sep);
      TrailingCut(s, sep, j, w, t);
    }
  }

  /** The inductive step of SplitTrailingSep: cut at the first separator, on both sides. */
  lemma TrailingCut(s: string, sep: char, j: nat, w: string, t: string)
    requires j == Find(s, sep) < |s| && w == s[..j] && t == s[j + 1..]
    requires Split(t + [sep], sep) == Split(t, sep)
    ensures Split(s + [sep], sep) == Split(s, sep)
  {
    SplitAt(s, sep, j);
    SplitAppendSep(s, sep, j);
  }

  /** A separator appended after the first cut leaves the first chunk alone. */
  lemma SplitAppendSep(s: string, sep: char, j: nat)
    requires j == Find(s, sep) < |s|
    ensures Split(s + [sep], sep) == [s[..j]] + Split(s[j + 1..] + [sep], sep)
  {
    var u := s + [sep];
    FindPrefix(s, [sep], sep);
    SplitAt(u, sep, j);
    assert u[..j] == s[..j];
    assert u[j + 1..] == s[j + 1..] + [sep];
  }

  lemma {:induction false} FindPrefix(s: string, more: string, sep: char)
    requires Find(s, sep) < |s|
    ensures Find(s + more, sep) == Find(s, sep)
    decreases |s|
  {
    if s[0] != sep {
      assert (s + more)[1..] == s[1..] + more;
      FindPrefix(s[1..], more, sep);
    }
  }

  /** A separator at the start gives an empty first chunk. */
  lemma SplitLeadingSep(s: string, sep: char)
    requires s != [] && s[0] == sep
    ensures Split(s, sep) != [] && Split(s, sep)[0] == []
  {
    assert Find(s, sep) == 0;
  }

  /** Two separators in a row give an empty chunk between them. */
  lemma {:induction false} SplitDoubleSep(s: string, sep: char, k: nat)
    requires k + 1 < |s| && s[k] == sep && s[k + 1] == sep
    ensures [] in Split(s, sep)
    decreases |s|
  {
    var j := Find(s, sep);
    SplitAt(s, sep, j);
    if j == k {
      SplitLeadingSep(s[j + 1..], sep);
      InTail(s[..j], Split(s[j + 1..], sep), Split(s, sep), 0);
    } else {
      SplitDoubleSep(s[j + 1..], sep, k - j - 1);
      var i :| 0 <= i < |Split(s[j + 1..], sep)| && Split(s[j + 1..], sep)[i] == [];
      InTail(s[..j], Split(s[j + 1..], sep), Split(s, sep), i);
    }
  }

  lemma InTail(w: string, more: seq<string>, all: seq<string>, i: nat)
    requires all == [w] + more && i < |more|
    ensures more[i] in all
  {
    assert all[i + 1] == more[i];
  }
}
