/** The Wavefront OBJ importer of include/load_obj.h. load_obj reads a file line by line, splits each
    line on single spaces, hands the chunks after the record tag to handle_v, handle_vt, handle_vn,
    handle_f or handle_vp, and then expands every face into triangles of VBO_STRUCT vertices that it
    appends to the caller's vector. Coordinates are only copied, so they are opaque F32 values;
    std::stof is the partial function of a `Numerics` bundle. */
module ObjLoader {
  import opened Common
  import opened Text
  import opened Helpers

  /** The sentinel of a face slot that names no element. */
  const INVALID_FACE_ID := 2147483647

  /** A `v` record. */
  datatype V = V(x: F32, y: F32, z: F32, w: F32)

  /** A `vt` or a `vp` record (both are three floats u, v, w filled the same way). v and w are
      only written when the line has them; otherwise they stay uninitialised. */
  datatype Uvw = Uvw(u: F32, v: Cell<F32>, w: Cell<F32>)

  /** A `vn` record. */
  datatype VN = VN(x: F32, y: F32, z: F32)

  /** One vertex descriptor of a face: position, texture-coordinate and normal index. A slot that
      the descriptor's slash fields never reach is left uninitialised. */
  datatype F = F(v: Cell<int>, vt: Cell<int>, vn: Cell<int>)

  type Face = seq<F>

  /** VBO_STRUCT: one vertex of the output stream. */
  datatype Vbo = Vbo(v: Vec3, n: Vec3, t: Vec2)

  /** The lists load_obj builds while reading: v_list, vt_list, vn_list, vp_list and f_list. */
  datatype Lists = Lists(vs: seq<V>, vts: seq<Uvw>, vns: seq<VN>, vps: seq<Uvw>, faces: seq<Face>)

  const NO_LISTS := Lists([], [], [], [], [])

  function Min(a: int, b: int): int
  {
    if a < b then a else b
  }

  // ---------------------------------------------------------------------------------------------
  // The line tokeniser

  /** The chunks the tokeniser keeps: neither a lone space nor empty. */
  function Kept(chunks: seq<string>): seq<string>
  {
    if chunks == [] then []
    else
      var last := chunks[|chunks| - 1];
      Kept(chunks[..|chunks| - 1]) + (if last != " " && last != "" then [last] else [])
  }

  /** The chunks of a line: split on single spaces, empty chunks dropped. */
  function Tokens(line: string): seq<string>
  {
    Kept(Split(line, ' '))
  }

  /** Every kept chunk is a non-empty chunk of the input. */
  lemma {:induction false} KeptMeans(chunks: seq<string>)
    ensures forall k :: 0 <= k < |Kept(chunks)| ==> Kept(chunks)[k] != [] && Kept(chunks)[k] in chunks
    decreases |chunks|
  {
    if chunks != [] {
      var front := chunks[..|chunks| - 1];
      KeptMeans(front);
      assert forall k :: 0 <= k < |front| ==> front[k] in chunks;
    }
  }

  /** Tokens are non-empty and hold no space. */
  lemma TokensMeans(line: string)
    ensures forall k :: 0 <= k < |Tokens(line)| ==> Tokens(line)[k] != [] && ' ' !in Tokens(line)[k]
  {
    KeptMeans(Split(line, ' '));
  }

  /** The tokenising loop of load_obj. */
  method Tokenize(line: string) returns (chks: seq<string>)
    ensures chks == Tokens(line)
  {
    chks := [];
    ghost var done: seq<string> := [];
    var i := 0;
    ScanStart(line, ' ');
    while i < |line|
      invariant 0 <= i <= |line| + 1
      invariant TokenizedTo(line, done, i, chks)
      decreases |line| + 1 - i
    {
      var chk;
      chk, i, chks := NextToken(line, i, chks, done);
      done := done + [chk];
    }
    ScanEnd(line, ' ', done, i);
  }

  /** One turn of the tokenising loop: the chunk from i to the next space, kept unless it is empty
      or a lone space, and the position after that space. */
  method NextToken(line: string, i: nat, chks: seq<string>, ghost done: seq<string>)
    returns (chk: string, next: nat, kept: seq<string>)
    requires i < |line| && TokenizedTo(line, done, i, chks)
    ensures i < next <= |line| + 1 && TokenizedTo(line, done + [chk], next, kept)
  {
    var j := i + Find(line[i..], ' ');
    chk := line[i..j];
    kept := chks;
    if chk != " " && chk != "" {
      kept := kept + [chk];
    }
    TokenStep(line, done, i, j, chks, kept);
    next := j + 1;
  }

  /** The invariant of the tokenising loop: `done` are the chunks before position i, and `chks`
      the ones of them kept. */
  predicate TokenizedTo(line: string, done: seq<string>, i: nat, chks: seq<string>)
  {
    Scanned(line, ' ', done, i) && chks == Kept(done)
  }

  /** One turn of the tokenising loop keeps its invariant. */
  lemma TokenStep(line: string, done: seq<string>, i: nat, j: nat, before: seq<string>, after: seq<string>)
    requires i < |line| && j == i + Find(line[i..], ' ')
    requires TokenizedTo(line, done, i, before)
    requires after == if line[i..j] != " " && line[i..j] != "" then before + [line[i..j]] else before
    ensures j <= |line|
    ensures TokenizedTo(line, done + [line[i..j]], j + 1, after)
  {
    SplitScan(line, ' ', done, i, j);
    assert (done + [line[i..j]])[..|done|] == done;
  }

  lemma {:induction false} KeptAppend(a: seq<string>, b: seq<string>)
    ensures Kept(a + b) == Kept(a) + Kept(b)
    decreases |b|
  {
    if b == [] {
      assert a + b == a;
    } else {
      var b' := b[..|b| - 1];
      assert (a + b)[..|a + b| - 1] == a + b';
      KeptAppend(a, b');
    }
  }

  lemma {:induction false} KeptIdentity(ws: seq<string>)
    requires forall k :: 0 <= k < |ws| ==> ws[k] != [] && ' ' !in ws[k]
    ensures Kept(ws) == ws
    decreases |ws|
  {
    if ws != [] {
      var last := ws[|ws| - 1];
      assert ' ' !in last;
      KeptIdentity(ws[..|ws| - 1]);
    }
  }

  /** Words without spaces written with single spaces between them tokenise back to the words. */
  lemma TokensJoin(ws: seq<string>)
    requires forall k :: 0 <= k < |ws| ==> ws[k] != [] && ' ' !in ws[k]
    ensures Tokens(Join(ws, ' ')) == ws
  {
    SplitJoin(ws, ' ');
    KeptIdentity(ws);
  }

  /** Extra spaces in front of a line do not change its tokens. */
  lemma TokensLeadingSpace(line: string)
    ensures Tokens(" " + line) == Tokens(line)
  {
    var s := " " + line;
    assert Find(s, ' ') == 0;
    assert s[1..] == line;
    assert Split(s, ' ') == [""] + Split(line, ' ');
    KeptAppend([""], Split(line, ' '));
    assert Kept([""]) == [] by {
      assert [""][..0] == [];
    }
  }

  // ---------------------------------------------------------------------------------------------
  // The record handlers. `chks` is the line's token list without its tag; each handler pops the
  // tokens it reads from the front. std::list::front on an exhausted list is undefined
  // behaviour; the model stops there with MissingToken. std::stof throwing on a token ends the
  // process (BadNumber).

  /** std::stof on one token. */
  function Float(s: string, stof: Stof): Result<F32, Fatal>
  {
    match stof(s)
    case None => Err(BadNumber(s))
    case Some(f) => Ok(f)
  }

  /** handle_v: x, y and z from the first three tokens, w from the fourth when there is one and
      1.0 otherwise. */
  function HandleV(chks: seq<string>, stof: Stof): Result<V, Fatal>
  {
    if |chks| < 1 then Err(MissingToken)
    else
      var x :- Float(chks[0], stof);
      if |chks| < 2 then Err(MissingToken)
      else
        var y :- Float(chks[1], stof);
        if |chks| < 3 then Err(MissingToken)
        else
          var z :- Float(chks[2], stof);
          if |chks| > 3 then
            var w :- Float(chks[3], stof);
            Ok(V(x, y, z, w))
          else
            Ok(V(x, y, z, ONE))
  }

  /** handle_vn: x, y and z from the first three tokens. */
  function HandleVn(chks: seq<string>, stof: Stof): Result<VN, Fatal>
  {
    if |chks| < 1 then Err(MissingToken)
    else
      var x :- Float(chks[0], stof);
      if |chks| < 2 then Err(MissingToken)
      else
        var y :- Float(chks[1], stof);
        if |chks| < 3 then Err(MissingToken)
        else
          var z :- Float(chks[2], stof);
          Ok(VN(x, y, z))
  }

  /** handle_vt and handle_vp: u from the first token; v from the second and w from the third
      only when the line has them. */
  function HandleUvw(chks: seq<string>, stof: Stof): Result<Uvw, Fatal>
  {
    if |chks| < 1 then Err(MissingToken)
    else
      var u :- Float(chks[0], stof);
      if |chks| > 1 then
        var v :- Float(chks[1], stof);
        if |chks| > 2 then
          var w :- Float(chks[2], stof);
          Ok(Uvw(u, Set(v), Set(w)))
        else
          Ok(Uvw(u, Set(v), Unset))
      else
        Ok(Uvw(u, Unset, Unset))
  }

  /** Parsing one more token continues the parse of the tokens before it. */
  lemma ParseAllSnoc(chks: seq<string>, k: nat, stof: Stof)
    requires k < |chks|
    ensures ParseAll(chks[..k + 1], stof) ==
      match ParseAll(chks[..k], stof)
      case Err(e) => Err(e)
      case Ok(ps) => match stof(chks[k]) case None => Err(BadNumber(chks[k])) case Some(f) => Ok(ps + [f])
  {
    assert chks[..k + 1][..k] == chks[..k];
  }

  /** The value of slot k of a parsed record, if the record has that many tokens. */
  function Slot(ps: seq<F32>, k: nat): Cell<F32>
  {
    if k < |ps| then Set(ps[k]) else Unset
  }

  /** handle_v reads the first four tokens, or as many as there are, in order: the first one
      std::stof rejects aborts, and if they all parse but there are fewer than three the next
      front() is on an exhausted list, undefined behaviour the model stops with MissingToken.
      Otherwise x, y, z are the first three and w the fourth or 1.0; tokens after
      the fourth are ignored. */
  lemma HandleVReadsPrefix(chks: seq<string>, stof: Stof)
    ensures var p := ParseAll(chks[..Min(|chks|, 4)], stof);
      HandleV(chks, stof) ==
        if p.Err? then Err(p.error)
        else if |chks| < 3 then Err(MissingToken)
        else Ok(V(p.value[0], p.value[1], p.value[2], if |chks| > 3 then p.value[3] else ONE))
  {
    assert chks[..0] == [];
    if |chks| >= 1 { ParseAllSnoc(chks, 0, stof); }
    if |chks| >= 2 { ParseAllSnoc(chks, 1, stof); }
    if |chks| >= 3 { ParseAllSnoc(chks, 2, stof); }
    if |chks| >= 4 { ParseAllSnoc(chks, 3, stof); }
    if |chks| < 4 { assert chks[..|chks|] == chks; }
  }

  /** handle_vn reads the first three tokens, or as many as there are, in order, and needs three. */
  lemma HandleVnReadsPrefix(chks: seq<string>, stof: Stof)
    ensures var p := ParseAll(chks[..Min(|chks|, 3)], stof);
      HandleVn(chks, stof) ==
        if p.Err? then Err(p.error)
        else if |chks| < 3 then Err(MissingToken)
        else Ok(VN(p.value[0], p.value[1], p.value[2]))
  {
    assert chks[..0] == [];
    if |chks| >= 1 { ParseAllSnoc(chks, 0, stof); }
    if |chks| >= 2 { ParseAllSnoc(chks, 1, stof); }
    if |chks| >= 3 { ParseAllSnoc(chks, 2, stof); }
    if |chks| < 3 { assert chks[..|chks|] == chks; }
  }

  /** handle_vt and handle_vp read the first three tokens, or as many as there are, in order, and
      need one; v and w are set exactly when their token exists. */
  lemma HandleUvwReadsPrefix(chks: seq<string>, stof: Stof)
    ensures var p := ParseAll(chks[..Min(|chks|, 3)], stof);
      HandleUvw(chks, stof) ==
        if p.Err? then Err(p.error)
        else if |chks| < 1 then Err(MissingToken)
        else Ok(Uvw(p.value[0], Slot(p.value, 1), Slot(p.value, 2)))
  {
    assert chks[..0] == [];
    if |chks| >= 1 { ParseAllSnoc(chks, 0, stof); }
    if |chks| >= 2 { ParseAllSnoc(chks, 1, stof); }
    if |chks| >= 3 { ParseAllSnoc(chks, 2, stof); }
    if |chks| < 3 { assert chks[..|chks|] == chks; }
  }

  /** A three-coordinate vertex gets w = 1.0. */
  lemma VertexDefaultW(x: string, y: string, z: string, stof: Stof)
    requires stof(x).Some? && stof(y).Some? && stof(z).Some?
    ensures HandleV([x, y, z], stof) == Ok(V(stof(x).value, stof(y).value, stof(z).value, ONE))
  {
  }

  // ---------------------------------------------------------------------------------------------
  // Faces

  /** One slash field: an empty field, or one std::stof throws on, is the sentinel; anything else
      is the parsed value converted to int. */
  function FieldValue(s: string, num: Numerics): int
  {
    if s == [] then INVALID_FACE_ID
    else
      match num.stof(s)
      case None => INVALID_FACE_ID
      case Some(f) => num.toInt(f)
  }

  /** Slot k of a descriptor whose slash fields are `fields`. */
  function FieldSlot(fields: seq<string>, k: nat, num: Numerics): Cell<int>
  {
    if k < |fields| then Set(FieldValue(fields[k], num)) else Unset
  }

  /** The slots filled from the first three of `fields`. */
  function Slots(fields: seq<string>, num: Numerics): F
  {
    F(FieldSlot(fields, 0, num), FieldSlot(fields, 1, num), FieldSlot(fields, 2, num))
  }

  /** The descriptor handle_f builds from one token: slash field k fills slot k for k < 3. */
  function Descriptor(chk: string, num: Numerics): F
  {
    Slots(Split(chk, '/'), num)
  }

  /** The face handle_f returns: one descriptor per token of at least three characters, in order. */
  function FaceOf(chks: seq<string>, num: Numerics): (face: Face)
    ensures |face| <= |chks|
  {
    if chks == [] then []
    else
      var chk := chks[|chks| - 1];
      FaceOf(chks[..|chks| - 1], num) + (if |chk| < 3 then [] else [Descriptor(chk, num)])
  }

  /** One slash field chk[i..j]: the sentinel when it is empty, `int c = std::stof(substr)`
      otherwise, and the sentinel again when std::stof throws. */
  method ParseField(chk: string, i: nat, j: nat, num: Numerics) returns (c: int)
    requires i <= j <= |chk|
    ensures c == FieldValue(chk[i..j], num)
  {
    if i != j {
      var parsed := num.stof(chk[i..j]);
      c := if parsed.Some? then num.toInt(parsed.value) else INVALID_FACE_ID;
    } else {
      c := INVALID_FACE_ID;
    }
  }

  /** The inner loop of handle_f: split one token on '/', filling slot cnt from field cnt. */
  method ParseDescriptor(chk: string, num: Numerics) returns (f: F)
    ensures f == Descriptor(chk, num)
  {
    f := F(Unset, Unset, Unset);
    ghost var done: seq<string> := [];
    var i, cnt := 0, 0;
    ScanStart(chk, '/');
    while i < |chk|
      invariant 0 <= i <= |chk| + 1
      invariant Scanned(chk, '/', done, i)
      invariant cnt == |done| <= 3
      invariant f == Slots(done, num)
      decreases |chk| + 1 - i
    {
      var j := i + Find(chk[i..], '/');
      if cnt > 2 {
        break;
      }
      SplitScan(chk, '/', done, i, j);
      var c := ParseField(chk, i, j, num);
      SlotsSnoc(done, chk[i..j], num);
      if cnt == 0 {
        f := f.(v := Set(c));
      } else if cnt == 1 {
        f := f.(vt := Set(c));
      } else {
        f := f.(vn := Set(c));
      }
      done := done + [chk[i..j]];
      cnt := cnt + 1;
      i := j + 1;
    }
    DescriptorDone(chk, done, i, num);
  }

  /** The loop ends when the token is used up or three fields have been read; either way the
      slots are those of the whole token. */
  lemma DescriptorDone(chk: string, done: seq<string>, i: nat, num: Numerics)
    requires Scanned(chk, '/', done, i) && |done| <= 3
    requires i >= |chk| || |done| == 3
    ensures Slots(done, num) == Descriptor(chk, num)
  {
    if |done| < 3 {
      assert Rest(chk, '/', i) == [];
      assert done + [] == done;
    }
    FieldSlotsOfPrefix(done, Split(chk, '/'), num);
  }

  /** Field number |done| fills the next slot and leaves the others. */
  lemma SlotsSnoc(done: seq<string>, field: string, num: Numerics)
    requires |done| < 3
    ensures var s := Slots(done, num); var c := Set(FieldValue(field, num));
      Slots(done + [field], num) ==
        if |done| == 0 then s.(v := c) else if |done| == 1 then s.(vt := c) else s.(vn := c)
  {
  }

  /** Only the first three fields matter. */
  lemma FieldSlotsOfPrefix(done: seq<string>, fields: seq<string>, num: Numerics)
    requires done <= fields && (|done| == 3 || done == fields)
    ensures Slots(done, num) == Slots(fields, num)
  {
  }

  /** handle_f: pop tokens until none is left; tokens shorter than three characters are skipped. */
  method HandleF(chks: seq<string>, num: Numerics) returns (face: Face)
    ensures face == FaceOf(chks, num)
  {
    face := [];
    var rest := chks;
    while |rest| > 0
      invariant |rest| <= |chks| && rest == chks[|chks| - |rest|..]
      invariant face == FaceOf(chks[..|chks| - |rest|], num)
    {
      var chk := rest[0];
      ghost var seen := |chks| - |rest|;
      assert chks[..seen + 1][..seen] == chks[..seen];
      rest := rest[1..];
      if |chk| < 3 {
        continue;
      }
      var f := ParseDescriptor(chk, num);
      face := face + [f];
    }
    assert chks[..|chks|] == chks;
  }

  /** `f 1 2 3`: every descriptor is shorter than three characters, so the face is empty. */
  lemma ShortDescriptorsDropped(num: Numerics)
    ensures FaceOf(["1", "2", "3"], num) == []
  {
    assert ["1"][..0] == [];
    assert FaceOf(["1"], num) == [];
    assert ["1", "2"][..1] == ["1"];
    assert FaceOf(["1", "2"], num) == [];
    assert ["1", "2", "3"][..2] == ["1", "2"];
  }

  /** A token shorter than three characters adds nothing to the face. */
  lemma ShortTokenSkipped(chks: seq<string>, chk: string, num: Numerics)
    requires |chk| < 3
    ensures FaceOf(chks + [chk], num) == FaceOf(chks, num)
  {
    assert (chks + [chk])[..|chks|] == chks;
  }

  /** A token of at least three characters is kept whatever it contains. */
  lemma LongDescriptorKept(chks: seq<string>, chk: string, num: Numerics)
    requires |chk| >= 3
    ensures FaceOf(chks + [chk], num) == FaceOf(chks, num) + [Descriptor(chk, num)]
  {
    assert (chks + [chk])[..|chks|] == chks;
  }

  /** a/b/c fills the three slots from a, b and c; a//c leaves the texture slot the sentinel. */
  lemma DescriptorSlots(a: string, b: string, c: string, num: Numerics)
    requires a != [] && c != [] && '/' !in a && '/' !in b && '/' !in c
    ensures Descriptor(a + "/" + b + "/" + c, num) ==
      F(Set(FieldValue(a, num)), Set(FieldValue(b, num)), Set(FieldValue(c, num)))
    ensures b == [] ==> Descriptor(a + "/" + b + "/" + c, num).vt == Set(INVALID_FACE_ID)
  {
    var ws := [a, b, c];
    assert Join(ws, '/') == a + "/" + b + "/" + c by {
      assert Join([c], '/') == c;
      assert ws[1..][1..] == [c];
      assert Join([b, c], '/') == b + "/" + c;
      assert ws[1..] == [b, c];
    }
    SplitJoin(ws, '/');
  }

  /** A descriptor without slashes sets only the position slot; the others stay unset. */
  lemma DescriptorWithoutSlashes(chk: string, num: Numerics)
    requires chk != [] && '/' !in chk
    ensures Descriptor(chk, num) == F(Set(FieldValue(chk, num)), Unset, Unset)
  {
    assert Find(chk, '/') == |chk|;
  }

  // ---------------------------------------------------------------------------------------------
  // Index resolution

  /** `id >= 0 ? id : size + id + 1`: a negative index counts back from the end of its list. */
  function Resolve(id: int, size: nat): int
  {
    if id >= 0 then id else size + id + 1
  }

  /** -1 is the last element, -size the first; a negative index -k and the positive index
      size - k + 1 name the same element. */
  lemma ResolveNegative(k: int, size: nat)
    requires 1 <= k <= size
    ensures Resolve(-k, size) == size - k + 1
    ensures 1 <= Resolve(-k, size) <= size
    ensures Resolve(-1, size) == size
    ensures Resolve(-k, size) == Resolve(size - k + 1, size)
  {
  }

  /** The resolved index lies in 1..size exactly for the indices 1..size and -size..-1, and the
      sentinel resolves to itself. */
  lemma ResolveInRange(id: int, size: nat)
    ensures 1 <= Resolve(id, size) <= size <==> (1 <= id <= size || (id <= -1 && size + id >= 0))
    ensures Resolve(INVALID_FACE_ID, size) == INVALID_FACE_ID
  {
  }

  /** The id the triangulation reads from a slot, as the code is written: a field the slash loop
      never reached (the texture and normal of `a`, the normal of `a/b` and `a//`) was never
      stored, so it is whatever the malloc'd memory held, here `junk`. */
  function SlotIdAsWritten(c: Cell<int>, junk: int): int
  {
    if c.Set? then c.val else junk
  }

  /** The id the triangulation reads from a slot, corrected: a field that is not there is "not
      applicable", the sentinel, exactly as an empty field is. The rest of the model reads slots
      through this function. */
  function SlotId(c: Cell<int>): int
  {
    if c.Set? then c.val else INVALID_FACE_ID
  }

  /** A position-only descriptor leaves its texture and normal slots unset. As written, memory
      that held 0 there makes load_obj read vt_list[-1], an element before the list. */
  lemma UnreachedSlotReadAsWritten(chk: string, num: Numerics, size: nat)
    requires chk != [] && '/' !in chk
    ensures Descriptor(chk, num).vt == Unset && Descriptor(chk, num).vn == Unset
    ensures var id := Resolve(SlotIdAsWritten(Descriptor(chk, num).vt, 0), size);
      id != INVALID_FACE_ID && !(1 <= id <= size) && id - 1 == -1
  {
    DescriptorWithoutSlashes(chk, num);
  }

  /** A slot the triangulation may read: it resolves to the sentinel or to an element of its list
      (the lookup list[id - 1] is unchecked). */
  predicate SlotOk(c: Cell<int>, size: nat)
  {
    Resolve(SlotId(c), size) == INVALID_FACE_ID || 1 <= Resolve(SlotId(c), size) <= size
  }

  /** A descriptor the triangulation may read; the texture coordinate's v is read too. */
  predicate CornerOk(l: Lists, f: F)
  {
    SlotOk(f.v, |l.vs|) && SlotOk(f.vt, |l.vts|) && SlotOk(f.vn, |l.vns|)
    && (Resolve(SlotId(f.vt), |l.vts|) != INVALID_FACE_ID ==> l.vts[Resolve(SlotId(f.vt), |l.vts|) - 1].v.Set?)
  }

  /** The output vertex of one descriptor: x, y, z of the position, u, v of the texture coordinate
      and x, y, z of the normal, each the zero vector when its slot is the sentinel. */
  function VertexOf(l: Lists, f: F): Vbo
    requires CornerOk(l, f)
  {
    var vId := Resolve(SlotId(f.v), |l.vs|);
    var vtId := Resolve(SlotId(f.vt), |l.vts|);
    var vnId := Resolve(SlotId(f.vn), |l.vns|);
    var pos := if vId != INVALID_FACE_ID then Vec3(l.vs[vId - 1].x, l.vs[vId - 1].y, l.vs[vId - 1].z) else VEC3_ZERO;
    var tex := if vtId != INVALID_FACE_ID then Vec2(l.vts[vtId - 1].u, l.vts[vtId - 1].v.val) else VEC2_ZERO;
    var nrm := if vnId != INVALID_FACE_ID then Vec3(l.vns[vnId - 1].x, l.vns[vnId - 1].y, l.vns[vnId - 1].z) else VEC3_ZERO;
    Vbo(pos, nrm, tex)
  }

  /** A position index of -1 reads the last vertex, and one of -k the same vertex as size - k + 1. */
  lemma NegativeIndexReadsFromEnd(l: Lists, f: F, k: int)
    requires CornerOk(l, f) && 1 <= k <= |l.vs| < INVALID_FACE_ID && f.v == Set(-k)
    ensures CornerOk(l, f.(v := Set(|l.vs| - k + 1)))
    ensures VertexOf(l, f) == VertexOf(l, f.(v := Set(|l.vs| - k + 1)))
    ensures k == 1 ==> VertexOf(l, f).v == Vec3(l.vs[|l.vs| - 1].x, l.vs[|l.vs| - 1].y, l.vs[|l.vs| - 1].z)
  {
  }

  /** A position slot that is the sentinel gives the zero position. */
  lemma PositionSlotZero(l: Lists, f: F)
    requires CornerOk(l, f) && f.v == Set(INVALID_FACE_ID)
    ensures VertexOf(l, f).v == VEC3_ZERO
  {
  }

  /** A texture slot that is the sentinel, or was never reached, gives the zero coordinate. */
  lemma TextureSlotZero(l: Lists, f: F)
    requires CornerOk(l, f) && (f.vt == Set(INVALID_FACE_ID) || f.vt == Unset)
    ensures VertexOf(l, f).t == VEC2_ZERO
  {
  }

  /** A normal slot that is the sentinel, or was never reached, gives the zero normal. */
  lemma NormalSlotZero(l: Lists, f: F)
    requires CornerOk(l, f) && (f.vn == Set(INVALID_FACE_ID) || f.vn == Unset)
    ensures VertexOf(l, f).n == VEC3_ZERO
  {
  }

  /** Corrected reading: a position-only descriptor `a` whose index is in range is readable and
      yields vertex a with zero texture coordinate and normal. */
  lemma PositionOnlyCorner(l: Lists, chk: string, num: Numerics)
    requires chk != [] && '/' !in chk
    requires 1 <= Resolve(FieldValue(chk, num), |l.vs|) <= |l.vs| < INVALID_FACE_ID
    ensures CornerOk(l, Descriptor(chk, num))
    ensures var id := Resolve(FieldValue(chk, num), |l.vs|);
      VertexOf(l, Descriptor(chk, num)) == Vbo(Vec3(l.vs[id - 1].x, l.vs[id - 1].y, l.vs[id - 1].z), VEC3_ZERO, VEC2_ZERO)
  {
    DescriptorWithoutSlashes(chk, num);
  }

  // ---------------------------------------------------------------------------------------------
  // Triangulation

  /** The number of windows load_obj's sweep emits for a face of n descriptors: the sweep stops
      after the first window whose end reaches past the face, so it is the least t >= 1 with
      2t + 1 >= n. */
  function TriangleCount(n: nat): (count: nat)
    requires n >= 1
    ensures count >= 1 && 2 * count + 1 >= n
    ensures count == 1 || 2 * count - 1 < n
  {
    if n <= 3 then 1 else 1 + (n - 2) / 2
  }

  /** 1 + ceil(max(0, n - 3) / 2). */
  lemma TriangleCountClosedForm(n: nat)
    requires n >= 1
    ensures TriangleCount(n) == 1 + (if n <= 3 then 0 else (n - 3 + 1) / 2)
  {
  }

  /** Corner k of window t: descriptor (2t + k) mod n. */
  function Corner(n: nat, t: int, k: int): (d: nat)
    requires n >= 1
    ensures d < n
  {
    (2 * t + k) % n
  }

  /** The descriptor triples of the windows of a face of n descriptors. */
  function Windows(n: nat): (ws: seq<(nat, nat, nat)>)
    requires n >= 1
    ensures |ws| == TriangleCount(n)
  {
    seq(TriangleCount(n), t => (Corner(n, t, 0), Corner(n, t, 1), Corner(n, t, 2)))
  }

  /** A triangle gives the one window (0,1,2). */
  lemma WindowsOfTriangle()
    ensures Windows(3) == [(0, 1, 2)]
  {
    var w := Windows(3);
    assert TriangleCount(3) == 1;
    assert w[0] == (0, 1, 2);
    SeqOfOne(w, (0, 1, 2));
  }

  /** A quad gives (0,1,2) and (2,3,0): the second window wraps around. */
  lemma WindowsOfQuad()
    ensures Windows(4) == [(0, 1, 2), (2, 3, 0)]
  {
    var w := Windows(4);
    assert TriangleCount(4) == 2;
    assert Corner(4, 1, 2) == 0;
    assert w[0] == (0, 1, 2);
    assert w[1] == (2, 3, 0);
    SeqOfTwo(w, (0, 1, 2), (2, 3, 0));
  }

  /** A pentagon gives (0,1,2) and (2,3,4). */
  lemma WindowsOfPentagon()
    ensures Windows(5) == [(0, 1, 2), (2, 3, 4)]
  {
    var w := Windows(5);
    assert TriangleCount(5) == 2;
    assert w[0] == (0, 1, 2);
    assert w[1] == (2, 3, 4);
    SeqOfTwo(w, (0, 1, 2), (2, 3, 4));
  }

  lemma SeqOfOne<T>(w: seq<T>, a: T)
    requires |w| == 1 && w[0] == a
    ensures w == [a]
  {
  }

  lemma SeqOfTwo<T>(w: seq<T>, a: T, b: T)
    requires |w| == 2 && w[0] == a && w[1] == b
    ensures w == [a, b]
  {
  }

  /** Every descriptor of a face is a corner of some window. */
  lemma WindowsCoverFace(n: nat, d: nat)
    requires 1 <= n && d < n
    ensures exists t, k :: 0 <= t < TriangleCount(n) && 0 <= k < 3 && Corner(n, t, k) == d
  {
    var t, k := if d == 0 then 0 else (d - 1) / 2, if d == 0 then 0 else 2 - d % 2;
    assert 2 * t + k == d;
    ModSmall(d, n);
    assert Corner(n, t, k) == d;
  }

  lemma ModSmall(x: int, n: int)
    requires 0 <= x < n
    ensures x % n == x
  {
  }

  /** Neighbouring windows share a descriptor: the last corner of one is the first of the next. */
  lemma WindowsOverlap(n: nat, t: nat)
    requires n >= 1 && t + 1 < TriangleCount(n)
    ensures Corner(n, t, 2) == Corner(n, t + 1, 0)
  {
  }

  /** Faces the sweep may read: non-empty (the index is taken modulo the face length) and every
      descriptor readable. */
  predicate FaceOk(l: Lists, face: Face)
  {
    face != [] && forall k :: 0 <= k < |face| ==> CornerOk(l, face[k])
  }

  /** The vertices a face contributes: window after window, corner after corner. */
  function FaceVertices(l: Lists, face: Face): (out: seq<Vbo>)
    requires FaceOk(l, face)
    ensures |out| == 3 * TriangleCount(|face|)
  {
    seq(3 * TriangleCount(|face|), p => VertexOf(l, face[Corner(|face|, p / 3, p % 3)]))
  }

  /** Vertex 3t + k of a face's output is corner k of window t. */
  lemma FaceVerticesAt(l: Lists, face: Face, t: nat, k: nat)
    requires FaceOk(l, face) && t < TriangleCount(|face|) && k < 3
    ensures 3 * t + k < |FaceVertices(l, face)|
    ensures FaceVertices(l, face)[3 * t + k] == VertexOf(l, face[Corner(|face|, t, k)])
  {
    var p := 3 * t + k;
    assert p / 3 == t && p % 3 == k;
  }

  /** The sweep of load_obj over one face: windows start at 0, 2, 4, ...; a window takes three
      consecutive descriptors modulo the face length, and the sweep stops after a window that
      reached the end. */
  method Triangulate(l: Lists, face: Face) returns (out: seq<Vbo>)
    requires FaceOk(l, face)
    ensures out == FaceVertices(l, face)
  {
    var n := |face|;
    out := [];
    var isWrapAround := false;
    var i := 0;
    ghost var t := 0;
    while !isWrapAround
      invariant i == 2 * t && i <= n + 1
      invariant isWrapAround <==> (t >= 1 && i + 1 >= n)
      invariant t <= 1 || 2 * t - 1 < n
      invariant 3 * t <= 3 * TriangleCount(n) && out == FaceVertices(l, face)[..3 * t]
      decreases n + 1 - i
    {
      var vs;
      vs, isWrapAround := Window(l, face, i, isWrapAround);
      WindowStep(l, face, t, vs);
      out := out + vs;
      if i + 3 >= n {
        isWrapAround := true;
      }
      i := i + 2;
      t := t + 1;
    }
    assert FaceVertices(l, face)[..3 * t] == FaceVertices(l, face);
  }

  /** Window t of the sweep is the next three vertices of the face's output. */
  lemma WindowStep(l: Lists, face: Face, t: nat, vs: seq<Vbo>)
    requires FaceOk(l, face) && t < TriangleCount(|face|)
    requires |vs| == 3 && forall k :: 0 <= k < 3 ==> vs[k] == VertexOf(l, face[(2 * t + k) % |face|])
    ensures FaceVertices(l, face)[..3 * t + 3] == FaceVertices(l, face)[..3 * t] + vs
  {
    var fv := FaceVertices(l, face);
    FaceVerticesAt(l, face, t, 0);
    FaceVerticesAt(l, face, t, 1);
    FaceVerticesAt(l, face, t, 2);
    SliceThree(fv, 3 * t, vs);
  }

  lemma SliceThree<T>(s: seq<T>, m: nat, w: seq<T>)
    requires m + 3 <= |s| && |w| == 3
    requires w[0] == s[m] && w[1] == s[m + 1] && w[2] == s[m + 2]
    ensures s[..m + 3] == s[..m] + w
  {
    assert forall p :: 0 <= p < m + 3 ==> s[..m + 3][p] == (s[..m] + w)[p];
  }

  /** The inner loop of the sweep: descriptors i, i+1, i+2 modulo the face length, noting whether
      the window ran past the end. */
  method Window(l: Lists, face: Face, i: nat, wrapIn: bool) returns (vs: seq<Vbo>, wrap: bool)
    requires FaceOk(l, face)
    ensures |vs| == 3 && forall k :: 0 <= k < 3 ==> vs[k] == VertexOf(l, face[(i + k) % |face|])
    ensures wrap <==> wrapIn || i + 2 >= |face|
  {
    var n := |face|;
    vs, wrap := [], wrapIn;
    for j := i to i + 3
      invariant |vs| == j - i && forall k :: 0 <= k < j - i ==> vs[k] == VertexOf(l, face[(i + k) % n])
      invariant wrap <==> wrapIn || (j > i && j - 1 >= n)
    {
      if j >= n {
        wrap := true;
      }
      vs := vs + [VertexOf(l, face[j % n])];
    }
  }

  /** Every face of a list empty or readable. */
  predicate FacesOk(l: Lists, faces: seq<Face>)
  {
    forall k :: 0 <= k < |faces| ==> faces[k] == [] || FaceOk(l, faces[k])
  }

  /** The vertices one face adds to the output. A face without descriptors adds none: the
      corrected reading of the sweep, which as written takes j % 0 (see EmptyFaceAsWritten). */
  function FaceOutput(l: Lists, face: Face): seq<Vbo>
    requires face == [] || FaceOk(l, face)
  {
    if face == [] then [] else FaceVertices(l, face)
  }

  /** As written, `f 1 2 3` gives a face without descriptors, and the sweep over it takes the
      corner index modulo the face length 0: the face is not one the sweep can read. */
  lemma EmptyFaceAsWritten(l: Lists, num: Numerics)
    ensures FaceOf(["1", "2", "3"], num) == [] && !FaceOk(l, FaceOf(["1", "2", "3"], num))
  {
    ShortDescriptorsDropped(num);
  }

  /** Corrected: a face without descriptors adds nothing, so the faces around it are expanded as
      if it were not there. */
  lemma EmptyFaceSkipped(l: Lists, f1: seq<Face>, f2: seq<Face>)
    requires FacesOk(l, f1) && FacesOk(l, f2)
    ensures FacesOk(l, f1 + [[]] + f2)
    ensures Expand(l, f1 + [[]] + f2) == Expand(l, f1) + Expand(l, f2)
  {
    ExpandSnoc(l, f1, []);
    ExpandConcat(l, f1 + [[]], f2);
  }

  /** The vertices of a list of faces, face after face. */
  function Expand(l: Lists, faces: seq<Face>): seq<Vbo>
    requires FacesOk(l, faces)
  {
    Flatten(Blocks(l, faces))
  }

  /** The vertices of each face of a list. */
  function Blocks(l: Lists, faces: seq<Face>): seq<seq<Vbo>>
    requires FacesOk(l, faces)
  {
    seq(|faces|, k requires 0 <= k < |faces| => FaceOutput(l, faces[k]))
  }

  /** The blocks of a list, one after the other. */
  function Flatten<T>(bs: seq<seq<T>>): seq<T>
  {
    if bs == [] then [] else Flatten(bs[..|bs| - 1]) + bs[|bs| - 1]
  }

  lemma {:induction false} FlattenConcat<T>(a: seq<seq<T>>, b: seq<seq<T>>)
    ensures Flatten(a + b) == Flatten(a) + Flatten(b)
    decreases |b|
  {
    if b == [] {
      assert a + b == a;
    } else {
      var b', x := b[..|b| - 1], b[|b| - 1];
      assert b == b' + [x];
      assert a + b == (a + b') + [x];
      FlattenConcat(a, b');
      FlattenSnoc(a + b', x);
      FlattenSnoc(b', x);
    }
  }

  lemma FlattenSnoc<T>(bs: seq<seq<T>>, b: seq<T>)
    ensures Flatten(bs + [b]) == Flatten(bs) + b
  {
    assert (bs + [b])[..|bs|] == bs;
  }

  /** The number of windows of a list of faces. */
  function WindowCount(faces: seq<Face>): nat
  {
    if faces == [] then 0
    else WindowCount(faces[..|faces| - 1]) + (if faces[|faces| - 1] == [] then 0 else TriangleCount(|faces[|faces| - 1]|))
  }

  /** Each face adds exactly three vertices per window, so the stream is whole triangles. */
  lemma {:induction false} ExpandLength(l: Lists, faces: seq<Face>)
    requires FacesOk(l, faces)
    ensures |Expand(l, faces)| == 3 * WindowCount(faces)
    decreases |faces|
  {
    if faces != [] {
      var front, last := faces[..|faces| - 1], faces[|faces| - 1];
      assert faces == front + [last];
      ExpandLength(l, front);
      ExpandSnoc(l, front, last);
    }
  }

  /** Faces are emitted in input order: the output of two runs of faces is the output of the first
      followed by that of the second. */
  lemma ExpandConcat(l: Lists, f1: seq<Face>, f2: seq<Face>)
    requires FacesOk(l, f1) && FacesOk(l, f2)
    ensures FacesOk(l, f1 + f2)
    ensures Expand(l, f1 + f2) == Expand(l, f1) + Expand(l, f2)
  {
    assert FacesOk(l, f1 + f2) by {
      forall k | 0 <= k < |f1 + f2| ensures (f1 + f2)[k] == [] || FaceOk(l, (f1 + f2)[k]) {
        if k >= |f1| { assert (f1 + f2)[k] == f2[k - |f1|]; }
      }
    }
    assert Blocks(l, f1 + f2) == Blocks(l, f1) + Blocks(l, f2);
    FlattenConcat(Blocks(l, f1), Blocks(l, f2));
  }

  /** One more face appends its vertices. */
  lemma ExpandSnoc(l: Lists, faces: seq<Face>, last: Face)
    requires FacesOk(l, faces) && (last == [] || FaceOk(l, last))
    ensures FacesOk(l, faces + [last])
    ensures Expand(l, faces + [last]) == Expand(l, faces) + FaceOutput(l, last)
  {
    var all := faces + [last];
    assert FacesOk(l, all) by {
      forall k | 0 <= k < |all| ensures all[k] == [] || FaceOk(l, all[k]) {
        if k == |faces| { assert all[k] == last; }
      }
    }
    var bs := Blocks(l, all);
    assert bs == Blocks(l, faces) + [FaceOutput(l, last)];
    assert bs[..|bs| - 1] == Blocks(l, faces);
  }

  // ---------------------------------------------------------------------------------------------
  // The whole loader

  /** The lines std::getline returns: the content split on '\n', no line after a final '\n'. */
  function Lines(content: string): seq<string>
  {
    Split(content, '\n')
  }

  /** Every line has a tag. As written, load_obj calls front() on every line's token list, which
      is undefined for a blank line. */
  predicate NoBlankLines(lines: seq<string>)
  {
    forall k :: 0 <= k < |lines| ==> Tokens(lines[k]) != []
  }

  /** One line's effect on the lists: its tag selects the handler, and an unknown tag does
      nothing. A line without tokens is skipped: the corrected reading of a blank line (see
      BlankLineAsWritten). */
  function Step(acc: Lists, toks: seq<string>, num: Numerics): (r: Result<Lists, Fatal>)
    ensures toks == [] ==> r == Ok(acc)
    ensures toks != [] && toks[0] !in {"v", "vt", "vn", "f", "vp"} ==> r == Ok(acc)
    ensures toks != [] && toks[0] == "f" ==> r == Ok(acc.(faces := acc.faces + [FaceOf(toks[1..], num)]))
    ensures r.Ok? && toks != [] && toks[0] == "v" ==>
      r.value.(vs := acc.vs) == acc && |r.value.vs| == |acc.vs| + 1 && r.value.vs[..|acc.vs|] == acc.vs
    ensures r.Ok? && toks != [] && (toks[0] == "vt" || toks[0] == "vp" || toks[0] == "vn") ==>
      r.value.vs == acc.vs && r.value.faces == acc.faces
    ensures r.Err? ==> toks != [] && toks[0] in {"v", "vt", "vn", "vp"}
  {
    if toks == [] then Ok(acc) else
    var tag, chks := toks[0], toks[1..];
    if tag == "v" then
      var v :- HandleV(chks, num.stof);
      Ok(acc.(vs := acc.vs + [v]))
    else if tag == "vt" then
      var vt :- HandleUvw(chks, num.stof);
      Ok(acc.(vts := acc.vts + [vt]))
    else if tag == "vn" then
      var vn :- HandleVn(chks, num.stof);
      Ok(acc.(vns := acc.vns + [vn]))
    else if tag == "f" then
      Ok(acc.(faces := acc.faces + [FaceOf(chks, num)]))
    else if tag == "vp" then
      var vp :- HandleUvw(chks, num.stof);
      Ok(acc.(vps := acc.vps + [vp]))
    else
      Ok(acc)
  }

  /** The lists after reading `lines` in order, or the first fatal error. */
  function ParseLines(lines: seq<string>, num: Numerics): Result<Lists, Fatal>
  {
    if lines == [] then Ok(NO_LISTS)
    else
      var acc :- ParseLines(lines[..|lines| - 1], num);
      Step(acc, Tokens(lines[|lines| - 1]), num)
  }

  /** Once a line has aborted, later lines change nothing. */
  lemma {:induction false} ParseLinesErrSticks(lines: seq<string>, k: nat, num: Numerics)
    requires k <= |lines|
    requires ParseLines(lines[..k], num).Err?
    ensures ParseLines(lines, num) == ParseLines(lines[..k], num)
    decreases |lines| - k
  {
    if k < |lines| {
      assert lines[..k + 1][..k] == lines[..k];
      ParseLinesErrSticks(lines, k + 1, num);
    } else {
      assert lines[..k] == lines;
    }
  }

  /** Lists the triangulation may read: every face non-empty and readable, and list sizes that
      fit the int arithmetic of the index resolution. */
  predicate WellIndexed(l: Lists)
  {
    |l.vs| <= INT_MAX && |l.vts| <= INT_MAX && |l.vns| <= INT_MAX
    && FacesOk(l, l.faces)
  }

  /** What load_obj demands of a file it can open: lists it can triangulate. */
  predicate Loadable(file: Option<string>, num: Numerics)
  {
    file.Some? ==>
      ParseLines(Lines(file.value), num).Ok? ==> WellIndexed(ParseLines(Lines(file.value), num).value)
  }

  /** As written, load_obj calls front() on the token list of every line: two newlines in a row
      give a line whose token list is empty, so that call is undefined. */
  lemma BlankLineAsWritten(content: string, k: nat)
    requires k + 1 < |content| && content[k] == '\n' && content[k + 1] == '\n'
    ensures !NoBlankLines(Lines(content))
  {
    SplitDoubleSep(content, '\n', k);
    var i :| 0 <= i < |Lines(content)| && Lines(content)[i] == [];
    assert Tokens(Lines(content)[i]) == [];
  }

  /** Corrected: a line without tokens changes nothing, so blank lines between records are
      harmless. */
  lemma BlankLineSkipped(lines: seq<string>, line: string, num: Numerics)
    requires Tokens(line) == []
    ensures ParseLines(lines + [line], num) == ParseLines(lines, num)
  {
    assert (lines + [line])[..|lines|] == lines;
  }

  /** The contents of `data` after load_obj, or the error that ended the process. A file that
      cannot be opened (None) leaves `data` as it was. */
  function LoadObjResult(file: Option<string>, data: seq<Vbo>, num: Numerics): Result<seq<Vbo>, Fatal>
    requires Loadable(file, num)
  {
    match file
    case None => Ok(data)
    case Some(content) =>
      var l :- ParseLines(Lines(content), num);
      Ok(data + Expand(l, l.faces))
  }

  /** load_obj only appends: the old contents stay a prefix, followed by the faces' vertices in
      face order, three per window. */
  lemma LoadObjAppends(file: Option<string>, data: seq<Vbo>, num: Numerics)
    requires Loadable(file, num)
    ensures file.None? ==> LoadObjResult(file, data, num) == Ok(data)
    ensures LoadObjResult(file, data, num).Ok? ==>
      var out := LoadObjResult(file, data, num).value;
      |data| <= |out| && out[..|data|] == data && (|out| - |data|) % 3 == 0
  {
    if file.Some? && LoadObjResult(file, data, num).Ok? {
      var l := ParseLines(Lines(file.value), num).value;
      assert LoadObjResult(file, data, num) == Ok(data + Expand(l, l.faces));
      ExpandLength(l, l.faces);
      AppendTriangles(data, Expand(l, l.faces), WindowCount(l.faces));
    }
  }

  lemma AppendTriangles(data: seq<Vbo>, more: seq<Vbo>, n: nat)
    requires |more| == 3 * n
    ensures (data + more)[..|data|] == data && (|data + more| - |data|) % 3 == 0
  {
    assert |data + more| - |data| == 3 * n;
  }

  /** load_obj: read the lines, fill the lists, then append each face's triangles to `data`. */
  method LoadObj(file: Option<string>, data: seq<Vbo>, num: Numerics) returns (r: Result<seq<Vbo>, Fatal>)
    requires Loadable(file, num)
    ensures r == LoadObjResult(file, data, num)
  {
    if file.None? {
      return Ok(data);
    }
    var lists := ReadLists(Lines(file.value), num);
    if lists.Err? {
      return Err(lists.error);
    }
    var out := AppendFaces(lists.value, data);
    return Ok(out);
  }

  /** The reading loop of load_obj: one line at a time, dispatched on its tag. */
  method ReadLists(lines: seq<string>, num: Numerics) returns (r: Result<Lists, Fatal>)
    ensures r == ParseLines(lines, num)
  {
    var acc := NO_LISTS;
    for li := 0 to |lines|
      invariant ParseLines(lines[..li], num) == Ok(acc)
    {
      assert lines[..li + 1][..li] == lines[..li];
      var toks := Tokenize(lines[li]);
      var next: Result<Lists, Fatal>;
      if toks == [] {
        next := Ok(acc);
      } else {
        var tag, chks := toks[0], toks[1..];
        if tag == "v" {
          var v := HandleV(chks, num.stof);
          next := if v.Err? then Err(v.error) else Ok(acc.(vs := acc.vs + [v.value]));
        } else if tag == "vt" {
          var vt := HandleUvw(chks, num.stof);
          next := if vt.Err? then Err(vt.error) else Ok(acc.(vts := acc.vts + [vt.value]));
        } else if tag == "vn" {
          var vn := HandleVn(chks, num.stof);
          next := if vn.Err? then Err(vn.error) else Ok(acc.(vns := acc.vns + [vn.value]));
        } else if tag == "f" {
          var face := HandleF(chks, num);
          next := Ok(acc.(faces := acc.faces + [face]));
        } else if tag == "vp" {
          var vp := HandleUvw(chks, num.stof);
          next := if vp.Err? then Err(vp.error) else Ok(acc.(vps := acc.vps + [vp.value]));
        } else {
          next := Ok(acc);
        }
      }
      assert next == ParseLines(lines[..li + 1], num);
      if next.Err? {
        ParseLinesErrSticks(lines, li + 1, num);
        return next;
      }
      acc := next.value;
    }
    assert lines[..|lines|] == lines;
    return Ok(acc);
  }

  /** The triangulation loop of load_obj: each face's windows, face after face, appended to the
      caller's vector. */
  method AppendFaces(l: Lists, data: seq<Vbo>) returns (out: seq<Vbo>)
    requires FacesOk(l, l.faces)
    ensures out == data + Expand(l, l.faces)
  {
    out := data;
    for faceId := 0 to |l.faces|
      invariant FacesOk(l, l.faces[..faceId]) && out == data + Expand(l, l.faces[..faceId])
    {
      var vs := [];
      if l.faces[faceId] != [] {
        vs := Triangulate(l, l.faces[faceId]);
      }
      AppendStep(l, l.faces, faceId, data);
      out := out + vs;
    }
    assert l.faces[..|l.faces|] == l.faces;
  }

  /** One turn of the face loop: face k's vertices follow those of the faces before it. */
  lemma AppendStep(l: Lists, faces: seq<Face>, k: nat, data: seq<Vbo>)
    requires FacesOk(l, faces) && k < |faces|
    ensures FacesOk(l, faces[..k]) && FacesOk(l, faces[..k + 1]) && (faces[k] == [] || FaceOk(l, faces[k]))
    ensures data + Expand(l, faces[..k + 1]) == data + Expand(l, faces[..k]) + FaceOutput(l, faces[k])
  {
    var front := faces[..k];
    assert FacesOk(l, front) by {
      forall m | 0 <= m < k ensures front[m] == [] || FaceOk(l, front[m]) {
        assert front[m] == faces[m];
      }
    }
    assert faces[..k + 1] == front + [faces[k]];
    ExpandSnoc(l, front, faces[k]);
  }
}
