/** parse_vec3: the reader for every "numeric triple" string of the scene file. */
module Helpers {
  import opened Common
  import opened Text

  /** std::stof applied to each chunk in turn; the first chunk it throws on aborts. */
  function ParseAll(chunks: seq<string>, stof: Stof): (r: Result<seq<F32>, Fatal>)
    ensures r.Ok? ==> |r.value| == |chunks|
  {
    if chunks == [] then Ok([])
    else
      var last := chunks[|chunks| - 1];
      match ParseAll(chunks[..|chunks| - 1], stof)
      case Err(e) => Err(e)
      case Ok(ps) =>
        match stof(last)
        case None => Err(BadNumber(last))
        case Some(f) => Ok(ps + [f])
  }

  /** The numbers come out in chunk order, and there are numbers exactly when every chunk converts. */
  lemma {:induction false} ParseAllMeans(chunks: seq<string>, stof: Stof)
    ensures ParseAll(chunks, stof).Ok? <==> forall k :: 0 <= k < |chunks| ==> stof(chunks[k]).Some?
    ensures ParseAll(chunks, stof).Err? ==> ParseAll(chunks, stof).error.BadNumber?
    ensures ParseAll(chunks, stof).Ok? ==>
      forall k :: 0 <= k < |chunks| ==> ParseAll(chunks, stof).value[k] == stof(chunks[k]).value
    decreases |chunks|
  {
    if chunks != [] {
      var front := chunks[..|chunks| - 1];
      ParseAllMeans(front, stof);
      assert forall k :: 0 <= k < |front| ==> front[k] == chunks[k];
    }
  }

  /** Once a chunk has thrown, later chunks change nothing. */
  lemma {:induction false} ParseAllErrSticks(done: seq<string>, more: seq<string>, stof: Stof)
    requires ParseAll(done, stof).Err?
    ensures ParseAll(done + more, stof) == ParseAll(done, stof)
    decreases |more|
  {
    if more != [] {
      var all := done + more;
      var front := done + more[..|more| - 1];
      ParseAllErrSticks(done, more[..|more| - 1], stof);
      assert all[..|all| - 1] == front;
      assert ParseAll(all, stof) == ParseAll(front, stof);
    } else {
      assert done + more == done;
    }
  }

  /** What parse_vec3 returns: the first three numbers of the string split on single spaces, or the
      reason the process stops. */
  function Vec3From(str: string, stof: Stof): Result<Vec3, Fatal>
  {
    var parts :- ParseAll(Split(str, ' '), stof);
    if |parts| < 3 then Err(TooFewComponents) else Ok(Vec3(parts[0], parts[1], parts[2]))
  }

  /** A vector comes out exactly when every chunk converts and there are at least three; it holds
      the first three numbers. */
  lemma Vec3FromMeans(str: string, stof: Stof)
    ensures Vec3From(str, stof).Ok? <==>
      (forall k :: 0 <= k < |Split(str, ' ')| ==> stof(Split(str, ' ')[k]).Some?) && |Split(str, ' ')| >= 3
    ensures Vec3From(str, stof).Ok? ==>
      var cs := Split(str, ' ');
      Vec3From(str, stof).value == Vec3(stof(cs[0]).value, stof(cs[1]).value, stof(cs[2]).value)
    ensures Vec3From(str, stof).Err? ==>
      Vec3From(str, stof).error.BadNumber? || Vec3From(str, stof).error == TooFewComponents
  {
    ParseAllMeans(Split(str, ' '), stof);
  }

  /** parse_vec3 (include/helpers.h): split on ' ' with std::string::find, convert every chunk with
      std::stof, assert at least three parts, keep the first three. */
  method ParseVec3(str: string, stof: Stof) returns (r: Result<Vec3, Fatal>)
    ensures r == Vec3From(str, stof)
  {
    var parsed := ParseChunks(str, stof);
    if parsed.Err? {
      return Err(parsed.error);
    }
    var parts := parsed.value;
    if |parts| < 3 {
      return Err(TooFewComponents);
    }
    return Ok(Vec3(parts[0], parts[1], parts[2]));
  }

  /** The loop of parse_vec3: find the next space, convert the chunk before it, move past it. */
  method ParseChunks(str: string, stof: Stof) returns (r: Result<seq<F32>, Fatal>)
    ensures r == ParseAll(Split(str, ' '), stof)
  {
    var parts: seq<F32> := [];
    ghost var done: seq<string> := [];
    var i := 0;
    ScanStart(str, ' ');
    while i < |str|
      invariant 0 <= i <= |str| + 1
      invariant Scanned(str, ' ', done, i)
      invariant ParseAll(done, stof) == Ok(parts)
      decreases |str| + 1 - i
    {
      var j := i + Find(str[i..], ' ');
      var substr := str[i..j];
      var num := stof(substr);
      if num.None? {
        ThrowAborts(str, stof, done, i, j);
        return Err(BadNumber(substr));
      }
      ParseAllStep(str, stof, done, parts, i, j);
      parts := parts + [num.value];
      done := done + [substr];
      i := j + 1;
    }
    ScanEnd(str, ' ', done, i);
    return Ok(parts);
  }

  /** One turn of the loop that converts its chunk keeps both invariants. */
  lemma ParseAllStep(str: string, stof: Stof, done: seq<string>, parts: seq<F32>, i: nat, j: nat)
    requires i < |str| && j == i + Find(str[i..], ' ')
    requires Scanned(str, ' ', done, i)
    requires ParseAll(done, stof) == Ok(parts) && stof(str[i..j]).Some?
    ensures Scanned(str, ' ', done + [str[i..j]], j + 1)
    ensures ParseAll(done + [str[i..j]], stof) == Ok(parts + [stof(str[i..j]).value])
  {
    SplitScan(str, ' ', done, i, j);
    assert (done + [str[i..j]])[..|done|] == done;
  }

  /** A chunk std::stof throws on ends the parse with that chunk's error. */
  lemma ThrowAborts(str: string, stof: Stof, done: seq<string>, i: nat, j: nat)
    requires i < |str| && j == i + Find(str[i..], ' ')
    requires Scanned(str, ' ', done, i)
    requires ParseAll(done, stof).Ok? && stof(str[i..j]).None?
    ensures ParseAll(Split(str, ' '), stof) == Err(BadNumber(str[i..j]))
  {
    SplitScan(str, ' ', done, i, j);
    var d := done + [str[i..j]];
    assert d[..|d| - 1] == done;
    assert ParseAll(d, stof) == Err(BadNumber(str[i..j]));
    ParseAllErrSticks(d, Rest(str, ' ', j + 1), stof);
  }

  /** An empty string has no parts, so the assertion fails. */
  lemma EmptyStringFails(stof: Stof)
    ensures Vec3From("", stof) == Err(TooFewComponents)
  {
  }

  /** Three numbers written with single spaces between them read back as those numbers. */
  lemma ThreeNumbersRoundTrip(a: string, b: string, c: string, stof: Stof)
    requires a != [] && b != [] && c != []
    requires ' ' !in a && ' ' !in b && ' ' !in c
    requires stof(a).Some? && stof(b).Some? && stof(c).Some?
    ensures Vec3From(a + " " + b + " " + c, stof) == Ok(Vec3(stof(a).value, stof(b).value, stof(c).value))
  {
    var ws := [a, b, c];
    assert Join(ws, ' ') == a + " " + b + " " + c by {
      assert Join([c], ' ') == c;
      assert ws[1..][1..] == [c];
      assert Join([b, c], ' ') == b + " " + c;
      assert ws[1..] == [b, c];
    }
    SplitJoin(ws, ' ');
    Vec3FromMeans(a + " " + b + " " + c, stof);
  }

  /** A leading space, or two spaces in a row anywhere (two trailing spaces included), produce an
      empty chunk, and std::stof throws on the empty string. */
  lemma StraySpaceAborts(str: string, stof: Stof)
    requires stof("") == None
    requires (str != [] && str[0] == ' ') || exists k :: 0 <= k < |str| - 1 && str[k] == ' ' && str[k + 1] == ' '
    ensures Vec3From(str, stof).Err? && Vec3From(str, stof).error.BadNumber?
    ensures str != [] && str[0] == ' ' ==> Vec3From(str, stof) == Err(BadNumber(""))
  {
    if str != [] && str[0] == ' ' {
      SplitLeadingSep(str, ' ');
      FirstChunkRejected(Split(str, ' '), stof);
    } else {
      var k :| 0 <= k < |str| - 1 && str[k] == ' ' && str[k + 1] == ' ';
      SplitDoubleSep(str, ' ', k);
      ParseAllMeans(Split(str, ' '), stof);
    }
  }

  /** A first chunk std::stof rejects is the error, whatever follows it. */
  lemma FirstChunkRejected(chunks: seq<string>, stof: Stof)
    requires chunks != [] && stof(chunks[0]).None?
    ensures ParseAll(chunks, stof) == Err(BadNumber(chunks[0]))
  {
    var first := chunks[..1];
    assert first[..0] == [];
    ParseAllErrSticks(first, chunks[1..], stof);
    assert first + chunks[1..] == chunks;
  }

  /** One trailing space is harmless: the result is that of the string without it. */
  lemma TrailingSpaceTolerated(str: string, stof: Stof)
    requires str != [] && str[|str| - 1] != ' '
    ensures Vec3From(str + " ", stof) == Vec3From(str, stof)
  {
    SplitTrailingSep(str, ' ');
  }
}
