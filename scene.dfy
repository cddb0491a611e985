/** Scene assembly (src/Scene.cpp): the constructor that turns the decoded scene file into lights,
    camera orientation, material constants, object and texture tables and models; the shadow-map
    pass that gives every light its depth texture; and the uniform upload that binds light i's
    shadow texture to texture unit startIndex + i. The JSON document arrives already decoded: each
    key the constructor reads is a field of `SceneDoc`. */
module SceneModel {
  import opened Common
  import opened Helpers

  // ---------------------------------------------------------------------------------------------
  // The decoded scene file

  datatype LightDoc = LightDoc(position: string, intensity: string)

  /** An entry of the "objects" or the "textures" array. */
  datatype EntryDoc = EntryDoc(id: string, filename: string)

  /** An entry of the "models" array; "tex_id" is optional. */
  datatype ModelDoc = ModelDoc(
    objectId: string, texId: Option<string>, rotationDeg: F32,
    axis: string, scale: string, translate: string)

  datatype SceneDoc = SceneDoc(
    lights: seq<LightDoc>,
    eye: string, gaze: string, top: string, fovy: F32, zNear: F32, zFar: F32,
    ia: string, kd: string, ka: string, ks: string, p: int,
    objects: seq<EntryDoc>, textures: seq<EntryDoc>, models: seq<ModelDoc>)

  // ---------------------------------------------------------------------------------------------
  // What the scene holds

  /** The object `new Data(filename)` or `new Texture(filename)` returns for entry `entry` of its
      array: each entry allocates its own, so two entries never share one. */
  datatype Handle = Handle(entry: nat, filename: string)

  /** The depth texture initShadow allocates for light `light`, sized like the scene. */
  datatype ShadowTexture = ShadowTexture(light: nat, width: int, height: int)

  /** A light; its shadow pointer is NULL until the shadow-map pass. */
  datatype Light = Light(position: Vec3, intensity: Vec3, shadow: Option<ShadowTexture>)

  /** The camera as read from the file (the normalisation of gaze is float maths and is not
      modelled). */
  datatype Orientation = Orientation(eye: Vec3, gaze: Vec3, top: Vec3, fovy: F32, zNear: F32, zFar: F32)

  datatype Model = Model(data: Handle, tex: Option<Handle>, rotationDeg: F32, axis: Vec3, scale: Vec3, translate: Vec3)

  /** Everything the constructor stores, as one value. */
  datatype SceneContents = SceneContents(
    lights: seq<Light>, orient: Orientation, ia: Vec3, kd: Vec3, ks: Vec3, ka: Vec3, p: int,
    textures: map<string, Handle>, objects: map<string, Handle>, models: seq<Model>)

  // ---------------------------------------------------------------------------------------------
  // Building a list entry by entry, stopping at the first entry that aborts

  /** f applied to every element in order, or the error of the first element it fails on. */
  function MapAll<A, B>(xs: seq<A>, f: A -> Result<B, Fatal>): (r: Result<seq<B>, Fatal>)
    ensures r.Ok? <==> forall k :: 0 <= k < |xs| ==> f(xs[k]).Ok?
    ensures r.Ok? ==> |r.value| == |xs| && forall k :: 0 <= k < |xs| ==> r.value[k] == f(xs[k]).value
  {
    if xs == [] then Ok([])
    else
      var front :- MapAll(xs[..|xs| - 1], f);
      var last :- f(xs[|xs| - 1]);
      Ok(front + [last])
  }

  /** The error is that of the first element that fails. */
  lemma {:induction false} MapAllFirstError<A, B>(xs: seq<A>, f: A -> Result<B, Fatal>, k: nat)
    requires k < |xs| && f(xs[k]).Err?
    requires forall m :: 0 <= m < k ==> f(xs[m]).Ok?
    ensures MapAll(xs, f) == Err(f(xs[k]).error)
    decreases |xs|
  {
    if k < |xs| - 1 {
      var front := xs[..|xs| - 1];
      assert front[k] == xs[k];
      MapAllFirstError(front, f, k);
    } else {
      assert forall m :: 0 <= m < |xs| - 1 ==> xs[..|xs| - 1][m] == xs[m];
    }
  }

  /** One more element continues the list built so far. */
  lemma MapAllSnoc<A, B>(xs: seq<A>, f: A -> Result<B, Fatal>, i: nat, built: seq<B>)
    requires i < |xs| && MapAll(xs[..i], f) == Ok(built)
    ensures MapAll(xs[..i + 1], f) == (match f(xs[i]) case Ok(b) => Ok(built + [b]) case Err(e) => Err(e))
  {
    assert xs[..i + 1][..i] == xs[..i];
  }

  /** Once an element has failed, the later ones change nothing. */
  lemma {:induction false} MapAllErrSticks<A, B>(xs: seq<A>, f: A -> Result<B, Fatal>, i: nat)
    requires i <= |xs| && MapAll(xs[..i], f).Err?
    ensures MapAll(xs, f) == MapAll(xs[..i], f)
    decreases |xs| - i
  {
    if i < |xs| {
      assert xs[..i + 1][..i] == xs[..i];
      MapAllErrSticks(xs, f, i + 1);
    } else {
      assert xs[..i] == xs;
    }
  }

  // ---------------------------------------------------------------------------------------------
  // The constructor's rules

  /** Light(position, intensity): both strings through parse_vec3, position first. */
  function LightOf(d: LightDoc, stof: Stof): Result<Light, Fatal>
  {
    var position :- Vec3From(d.position, stof);
    var intensity :- Vec3From(d.intensity, stof);
    Ok(Light(position, intensity, None))
  }

  function LightOfFn(stof: Stof): LightDoc -> Result<Light, Fatal>
  {
    d => LightOf(d, stof)
  }

  /** Orientation(eye, gaze, top, fovy, zNear, zFar). */
  function OrientationOf(doc: SceneDoc, stof: Stof): Result<Orientation, Fatal>
  {
    var eye :- Vec3From(doc.eye, stof);
    var gaze :- Vec3From(doc.gaze, stof);
    var top :- Vec3From(doc.top, stof);
    Ok(Orientation(eye, gaze, top, doc.fovy, doc.zNear, doc.zFar))
  }

  /** The table `map[id] = new X(filename)` builds over the entries in order. */
  function Table(es: seq<EntryDoc>): (t: map<string, Handle>)
    ensures forall id :: id in t <==> exists k :: 0 <= k < |es| && es[k].id == id
  {
    if es == [] then map[]
    else
      var last := es[|es| - 1];
      assert forall k :: 0 <= k < |es| - 1 ==> es[..|es| - 1][k] == es[k];
      Table(es[..|es| - 1])[last.id := Handle(|es| - 1, last.filename)]
  }

  /** Insert-or-overwrite: an id maps to the handle of the last entry that names it. */
  lemma {:induction false} TableLastWins(es: seq<EntryDoc>, k: nat)
    requires k < |es|
    requires forall m :: k < m < |es| ==> es[m].id != es[k].id
    ensures es[k].id in Table(es) && Table(es)[es[k].id] == Handle(k, es[k].filename)
    decreases |es|
  {
    if k < |es| - 1 {
      var front := es[..|es| - 1];
      assert front[k] == es[k];
      forall m | k < m < |front| ensures front[m].id != front[k].id {
        assert front[m] == es[m];
      }
      TableLastWins(front, k);
    }
  }

  /** Model construction: the object id must be in the table (assertion), then the optional
      texture id must be too, then rotation axis, scale and translation go through parse_vec3. */
  function ModelOf(d: ModelDoc, objects: map<string, Handle>, textures: map<string, Handle>, stof: Stof): Result<Model, Fatal>
  {
    if d.objectId !in objects then Err(UnknownObject(d.objectId))
    else if d.texId.Some? && d.texId.value !in textures then Err(UnknownTexture(d.texId.value))
    else
      var tex := if d.texId.Some? then Some(textures[d.texId.value]) else None;
      var axis :- Vec3From(d.axis, stof);
      var scale :- Vec3From(d.scale, stof);
      var translate :- Vec3From(d.translate, stof);
      Ok(Model(objects[d.objectId], tex, d.rotationDeg, axis, scale, translate))
  }

  function ModelOfFn(objects: map<string, Handle>, textures: map<string, Handle>, stof: Stof): ModelDoc -> Result<Model, Fatal>
  {
    d => ModelOf(d, objects, textures, stof)
  }

  /** A built model points at the table entry of its object id, and at the table entry of its
      texture id when it has one and at no texture otherwise. */
  lemma ModelReferencesResolve(d: ModelDoc, objects: map<string, Handle>, textures: map<string, Handle>, stof: Stof)
    ensures ModelOf(d, objects, textures, stof).Ok? ==>
      var m := ModelOf(d, objects, textures, stof).value;
      d.objectId in objects && m.data == objects[d.objectId]
      && (d.texId.None? <==> m.tex.None?)
      && (d.texId.Some? ==> d.texId.value in textures && m.tex == Some(textures[d.texId.value]))
    ensures d.objectId !in objects ==> ModelOf(d, objects, textures, stof) == Err(UnknownObject(d.objectId))
    ensures d.objectId in objects && d.texId.Some? && d.texId.value !in textures ==>
      ModelOf(d, objects, textures, stof) == Err(UnknownTexture(d.texId.value))
  {
  }

  /** Ia, Kd, Ka and Ks, in the order they are read. */
  datatype Materials = Materials(ia: Vec3, kd: Vec3, ka: Vec3, ks: Vec3)

  function MaterialsOf(doc: SceneDoc, stof: Stof): Result<Materials, Fatal>
  {
    var ia :- Vec3From(doc.ia, stof);
    var kd :- Vec3From(doc.kd, stof);
    var ka :- Vec3From(doc.ka, stof);
    var ks :- Vec3From(doc.ks, stof);
    Ok(Materials(ia, kd, ka, ks))
  }

  /** The constructor's effect, step by step in its own order: lights, orientation, Ia, Kd, Ka, Ks,
      p, objects, textures, models. */
  function Assemble(doc: SceneDoc, stof: Stof): Result<SceneContents, Fatal>
  {
    var lights :- MapAll(doc.lights, LightOfFn(stof));
    var orient :- OrientationOf(doc, stof);
    var mat :- MaterialsOf(doc, stof);
    var objects := Table(doc.objects);
    var textures := Table(doc.textures);
    var models :- MapAll(doc.models, ModelOfFn(objects, textures, stof));
    Ok(SceneContents(lights, orient, mat.ia, mat.kd, mat.ks, mat.ka, doc.p, textures, objects, models))
  }

  /** A built scene has one light per "lights" entry and one model per "models" entry, in file
      order, and its tables are those of the "objects" and "textures" arrays. */
  lemma AssembleKeepsOrder(doc: SceneDoc, stof: Stof)
    ensures Assemble(doc, stof).Ok? ==>
      var c := Assemble(doc, stof).value;
      |c.lights| == |doc.lights| && |c.models| == |doc.models|
      && (forall k :: 0 <= k < |doc.lights| ==> Ok(c.lights[k]) == LightOf(doc.lights[k], stof))
      && (forall k :: 0 <= k < |doc.models| ==>
            Ok(c.models[k]) == ModelOf(doc.models[k], Table(doc.objects), Table(doc.textures), stof))
      && c.objects == Table(doc.objects) && c.textures == Table(doc.textures)
  {
    if Assemble(doc, stof).Ok? {
      var c := Assemble(doc, stof).value;
      AssembleParts(doc, stof, c);
      LightsInOrder(doc.lights, stof, c.lights);
      ModelsInOrder(doc.models, Table(doc.objects), Table(doc.textures), stof, c.models);
    }
  }

  /** Where each part of a built scene comes from. */
  lemma AssembleParts(doc: SceneDoc, stof: Stof, c: SceneContents)
    requires Assemble(doc, stof) == Ok(c)
    ensures MapAll(doc.lights, LightOfFn(stof)) == Ok(c.lights)
    ensures MapAll(doc.models, ModelOfFn(Table(doc.objects), Table(doc.textures), stof)) == Ok(c.models)
    ensures c.objects == Table(doc.objects) && c.textures == Table(doc.textures)
  {
  }

  lemma LightsInOrder(ds: seq<LightDoc>, stof: Stof, ls: seq<Light>)
    requires MapAll(ds, LightOfFn(stof)) == Ok(ls)
    ensures |ls| == |ds| && forall k :: 0 <= k < |ds| ==> Ok(ls[k]) == LightOf(ds[k], stof)
  {
    forall k | 0 <= k < |ds| ensures Ok(ls[k]) == LightOf(ds[k], stof) {
      assert LightOfFn(stof)(ds[k]).Ok?;
    }
  }

  lemma ModelsInOrder(ds: seq<ModelDoc>, objects: map<string, Handle>, textures: map<string, Handle>, stof: Stof,
                      ms: seq<Model>)
    requires MapAll(ds, ModelOfFn(objects, textures, stof)) == Ok(ms)
    ensures |ms| == |ds| && forall k :: 0 <= k < |ds| ==> Ok(ms[k]) == ModelOf(ds[k], objects, textures, stof)
  {
    forall k | 0 <= k < |ds| ensures Ok(ms[k]) == ModelOf(ds[k], objects, textures, stof) {
      assert ModelOfFn(objects, textures, stof)(ds[k]).Ok?;
    }
  }

  /** Models are built after both tables are complete: a model may name any object of the file,
      wherever its entry stands, without tripping the assertion. */
  lemma ModelsSeeWholeTables(doc: SceneDoc, stof: Stof, i: nat, k: nat)
    requires i < |doc.models| && k < |doc.objects| && doc.models[i].objectId == doc.objects[k].id
    ensures ModelOf(doc.models[i], Table(doc.objects), Table(doc.textures), stof) != Err(UnknownObject(doc.models[i].objectId))
  {
    var d := doc.models[i];
    assert doc.objects[k].id in Table(doc.objects);
    Vec3FromMeans(d.axis, stof);
    Vec3FromMeans(d.scale, stof);
    Vec3FromMeans(d.translate, stof);
  }

  // ---------------------------------------------------------------------------------------------
  // Uniform upload

  datatype UniformKind = LightPosition | LightIntensity | ShadowSampler | ShadowMatrix

  /** The GL calls ld_lights_uniform makes, each naming the uniform it sets by kind and light
      index (the snprintf of the caller's format string with i). */
  datatype GlCall =
    | Uniform3(kind: UniformKind, light: nat, value: Vec3)   // glUniform3fv
    | Uniform1(kind: UniformKind, light: nat, unit: int)     // glUniform1i
    | BindToUnit(tex: ShadowTexture, glUnit: nat)            // Texture::bind_to_unit(GLuint)
    | UniformMatrix(kind: UniformKind, light: nat)           // glUniform4fv of shadowMat()

  const TWO_32 := 0x1_0000_0000

  /** `texUnitId = startIndex + i`: the sum is taken in GLuint (modulo 2^32) and stored in an int. */
  function UnitSum(startIndex: nat, i: nat): (u: nat)
    ensures u < TWO_32
  {
    (startIndex + i) % TWO_32
  }

  /** A 32-bit pattern read as a two's-complement int. */
  function AsInt32(u: nat): (v: int)
    requires u < TWO_32
    ensures INT_MIN <= v <= INT_MAX
    ensures (v - u) % TWO_32 == 0
  {
    if u <= INT_MAX then u else u - TWO_32
  }

  /** The calls for light i. */
  function LightCalls(l: Light, i: nat, startIndex: nat): seq<GlCall>
  {
    [Uniform3(LightPosition, i, l.position), Uniform3(LightIntensity, i, l.intensity)]
    + match l.shadow
      case None => []
      case Some(t) =>
        var u := UnitSum(startIndex, i);
        [Uniform1(ShadowSampler, i, AsInt32(u)), BindToUnit(t, u), UniformMatrix(ShadowMatrix, i)]
  }

  /** The calls for lights[0..n), light after light. */
  function Uniforms(lights: seq<Light>, startIndex: nat): seq<GlCall>
  {
    if lights == [] then []
    else Uniforms(lights[..|lights| - 1], startIndex) + LightCalls(lights[|lights| - 1], |lights| - 1, startIndex)
  }

  /** A shadow texture is bound to unit u exactly when it belongs to some light i with
      u = startIndex + i (in GLuint arithmetic); lights without one bind nothing. */
  lemma {:induction false} UniformsBindShadows(lights: seq<Light>, startIndex: nat, t: ShadowTexture, u: nat)
    ensures BindToUnit(t, u) in Uniforms(lights, startIndex) <==>
      exists i :: 0 <= i < |lights| && lights[i].shadow == Some(t) && u == UnitSum(startIndex, i)
    decreases |lights|
  {
    if lights != [] {
      var n := |lights| - 1;
      var front := lights[..n];
      UniformsBindShadows(front, startIndex, t, u);
      LightCallsBind(lights[n], n, startIndex, t, u);
      assert forall i :: 0 <= i < n ==> front[i] == lights[i];
      if exists i :: 0 <= i < |lights| && lights[i].shadow == Some(t) && u == UnitSum(startIndex, i) {
        var i :| 0 <= i < |lights| && lights[i].shadow == Some(t) && u == UnitSum(startIndex, i);
        if i < n {
          assert front[i].shadow == Some(t);
        }
      }
    }
  }

  /** Light i binds only its own shadow texture, and to unit startIndex + i. */
  lemma LightCallsBind(l: Light, i: nat, startIndex: nat, t: ShadowTexture, u: nat)
    ensures BindToUnit(t, u) in LightCalls(l, i, startIndex) <==> l.shadow == Some(t) && u == UnitSum(startIndex, i)
  {
  }

  /** Distinct lights get distinct texture units, as long as there are at most 2^32 of them. */
  lemma UnitsDistinct(startIndex: nat, i: nat, j: nat)
    requires i < j < TWO_32
    ensures UnitSum(startIndex, i) != UnitSum(startIndex, j)
    ensures AsInt32(UnitSum(startIndex, i)) != AsInt32(UnitSum(startIndex, j))
  {
  }

  /** Below 2^31 - startIndex no wrap-around happens: light i uses unit startIndex + i. */
  lemma UnitWithoutWrap(startIndex: nat, i: nat)
    requires startIndex + i <= INT_MAX
    ensures UnitSum(startIndex, i) == startIndex + i && AsInt32(UnitSum(startIndex, i)) == startIndex + i
  {
  }

  // ---------------------------------------------------------------------------------------------
  // The scene object

  class Scene {
    var width: int
    var height: int
    var filename: string
    var lights: seq<Light>
    var orient: Orientation
    var ia: Vec3
    var kd: Vec3
    var ks: Vec3
    var ka: Vec3
    var p: int
    var textures: map<string, Handle>
    var objects: map<string, Handle>
    var models: seq<Model>

    /** The stored values. */
    function Contents(): SceneContents
      reads this
    {
      SceneContents(lights, orient, ia, kd, ks, ka, p, textures, objects, models)
    }

    /** A scene holding `c`, sized width by height, read from `filename`. */
    constructor (filename: string, width: int, height: int, c: SceneContents)
      ensures this.filename == filename && this.width == width && this.height == height
      ensures Contents() == c
    {
      this.filename := filename;
      this.width := width;
      this.height := height;
      lights, orient := c.lights, c.orient;
      ia, kd, ks, ka := c.ia, c.kd, c.ks, c.ka;
      p := c.p;
      textures, objects, models := c.textures, c.objects, c.models;
    }

    /** Scene::Scene: `file` is the decoded scene file, None when it cannot be opened. The
        window size comes from the caller. Each block of the file is read in the order the
        constructor reads it, and the first one that aborts ends the construction. */
    static method Open(filename: string, file: Option<SceneDoc>, stof: Stof, width: int, height: int)
      returns (r: Result<Scene, Fatal>)
      ensures file.None? ==> r == Err(CannotOpen)
      ensures file.Some? ==> (r.Ok? <==> Assemble(file.value, stof).Ok?)
      ensures file.Some? && r.Err? ==> r.error == Assemble(file.value, stof).error
      ensures r.Ok? ==> fresh(r.value) && r.value.Contents() == Assemble(file.value, stof).value
      ensures r.Ok? ==> r.value.filename == filename && r.value.width == width && r.value.height == height
    {
      if file.None? {
        return Err(CannotOpen);
      }
      var doc := file.value;
      var lights := ReadLights(doc.lights, stof);
      if lights.Err? { return Err(lights.error); }
      var orient := ReadOrientation(doc, stof);
      if orient.Err? { return Err(orient.error); }
      var mat := ReadMaterials(doc, stof);
      if mat.Err? { return Err(mat.error); }
      var objects := ReadTable(doc.objects);
      var textures := ReadTable(doc.textures);
      var models := ReadModels(doc.models, objects, textures, stof);
      if models.Err? { return Err(models.error); }
      var m := mat.value;
      var c := SceneContents(lights.value, orient.value, m.ia, m.kd, m.ks, m.ka, doc.p, textures, objects, models.value);
      assert Assemble(doc, stof) == Ok(c);
      var s := new Scene(filename, width, height, c);
      return Ok(s);
    }

    /** The orientation block: eye, gaze and top through parse_vec3, then the three floats. */
    static method ReadOrientation(doc: SceneDoc, stof: Stof) returns (r: Result<Orientation, Fatal>)
      ensures r == OrientationOf(doc, stof)
    {
      var eye := ParseVec3(doc.eye, stof);
      if eye.Err? { return Err(eye.error); }
      var gaze := ParseVec3(doc.gaze, stof);
      if gaze.Err? { return Err(gaze.error); }
      var top := ParseVec3(doc.top, stof);
      if top.Err? { return Err(top.error); }
      return Ok(Orientation(eye.value, gaze.value, top.value, doc.fovy, doc.zNear, doc.zFar));
    }

    /** Ia, Kd, Ka, Ks through parse_vec3. */
    static method ReadMaterials(doc: SceneDoc, stof: Stof) returns (r: Result<Materials, Fatal>)
      ensures r == MaterialsOf(doc, stof)
    {
      var ia := ParseVec3(doc.ia, stof);
      if ia.Err? { return Err(ia.error); }
      var kd := ParseVec3(doc.kd, stof);
      if kd.Err? { return Err(kd.error); }
      var ka := ParseVec3(doc.ka, stof);
      if ka.Err? { return Err(ka.error); }
      var ks := ParseVec3(doc.ks, stof);
      if ks.Err? { return Err(ks.error); }
      return Ok(Materials(ia.value, kd.value, ka.value, ks.value));
    }

    /** The lights loop: Light(position, intensity) per entry, in order. */
    static method ReadLights(docs: seq<LightDoc>, stof: Stof) returns (r: Result<seq<Light>, Fatal>)
      ensures r == MapAll(docs, LightOfFn(stof))
    {
      var lights: seq<Light> := [];
      for i := 0 to |docs|
        invariant MapAll(docs[..i], LightOfFn(stof)) == Ok(lights)
      {
        MapAllSnoc(docs, LightOfFn(stof), i, lights);
        var position := ParseVec3(docs[i].position, stof);
        var intensity: Result<Vec3, Fatal> := Err(MissingToken);
        if position.Ok? {
          intensity := ParseVec3(docs[i].intensity, stof);
        }
        if position.Err? || intensity.Err? {
          MapAllErrSticks(docs, LightOfFn(stof), i + 1);
          return Err(if position.Err? then position.error else intensity.error);
        }
        lights := lights + [Light(position.value, intensity.value, None)];
      }
      assert docs[..|docs|] == docs;
      return Ok(lights);
    }

    /** The objects loop and the textures loop: `table[id] = new X(filename)` per entry. */
    static method ReadTable(es: seq<EntryDoc>) returns (t: map<string, Handle>)
      ensures t == Table(es)
    {
      t := map[];
      for i := 0 to |es|
        invariant t == Table(es[..i])
      {
        assert es[..i + 1][..i] == es[..i];
        t := t[es[i].id := Handle(i, es[i].filename)];
      }
      assert es[..|es|] == es;
    }

    /** The models loop. */
    static method ReadModels(docs: seq<ModelDoc>, objects: map<string, Handle>, textures: map<string, Handle>, stof: Stof)
      returns (r: Result<seq<Model>, Fatal>)
      ensures r == MapAll(docs, ModelOfFn(objects, textures, stof))
    {
      var models: seq<Model> := [];
      for i := 0 to |docs|
        invariant MapAll(docs[..i], ModelOfFn(objects, textures, stof)) == Ok(models)
      {
        MapAllSnoc(docs, ModelOfFn(objects, textures, stof), i, models);
        var model := NewModel(docs[i], objects, textures, stof);
        if model.Err? {
          MapAllErrSticks(docs, ModelOfFn(objects, textures, stof), i + 1);
          return Err(model.error);
        }
        models := models + [model.value];
      }
      assert docs[..|docs|] == docs;
      return Ok(models);
    }

    /** One iteration of the models loop: the two reference assertions, then `new Model`. */
    static method NewModel(d: ModelDoc, objects: map<string, Handle>, textures: map<string, Handle>, stof: Stof)
      returns (r: Result<Model, Fatal>)
      ensures r == ModelOf(d, objects, textures, stof)
    {
      if d.objectId !in objects {
        return Err(UnknownObject(d.objectId));
      }
      var tex: Option<Handle> := None;
      if d.texId.Some? {
        if d.texId.value !in textures {
          return Err(UnknownTexture(d.texId.value));
        }
        tex := Some(textures[d.texId.value]);
      }
      var axis := ParseVec3(d.axis, stof);
      if axis.Err? { return Err(axis.error); }
      var scale := ParseVec3(d.scale, stof);
      if scale.Err? { return Err(scale.error); }
      var translate := ParseVec3(d.translate, stof);
      if translate.Err? { return Err(translate.error); }
      return Ok(Model(objects[d.objectId], tex, d.rotationDeg, axis.value, scale.value, translate.value));
    }

    /** Scene::ld_shadow_maps: initShadow on every light, in index order; each call gives its
        light a fresh depth texture of the scene's size. `inits` lists the lights in call order. */
    method LdShadowMaps() returns (inits: seq<nat>)
      modifies this
      ensures |lights| == |old(lights)| && |inits| == |lights|
      ensures forall i :: 0 <= i < |lights| ==> inits[i] == i
      ensures forall i :: 0 <= i < |lights| ==>
        lights[i] == old(lights[i]).(shadow := Some(ShadowTexture(i, width, height)))
      ensures width == old(width) && height == old(height) && filename == old(filename)
      ensures orient == old(orient) && ia == old(ia) && kd == old(kd) && ks == old(ks) && ka == old(ka)
      ensures p == old(p) && textures == old(textures) && objects == old(objects) && models == old(models)
    {
      inits := [];
      var i := 0;
      while i < |lights|
        invariant 0 <= i <= |lights| == |old(lights)| && |inits| == i
        invariant forall k :: 0 <= k < i ==> inits[k] == k
        invariant forall k :: 0 <= k < i ==> lights[k] == old(lights[k]).(shadow := Some(ShadowTexture(k, width, height)))
        invariant forall k :: i <= k < |lights| ==> lights[k] == old(lights[k])
        invariant width == old(width) && height == old(height) && filename == old(filename)
        invariant orient == old(orient) && ia == old(ia) && kd == old(kd) && ks == old(ks) && ka == old(ka)
        invariant p == old(p) && textures == old(textures) && objects == old(objects) && models == old(models)
      {
        lights := lights[i := lights[i].(shadow := Some(ShadowTexture(i, width, height)))];
        inits := inits + [i];
        i := i + 1;
      }
    }

    /** Scene::ld_lights_uniform: for each light, its position and intensity; for a light with a
        shadow texture, also its sampler unit startIndex + i, the binding of the texture to that
        unit and its shadow matrix. */
    method LdLightsUniform(startIndex: nat) returns (calls: seq<GlCall>)
      requires startIndex < TWO_32  // a GLuint
      requires |lights| <= INT_MAX  // the loop counter is an int
      ensures calls == Uniforms(lights, startIndex)
    {
      calls := [];
      var i := 0;
      while i < |lights|
        invariant 0 <= i <= |lights|
        invariant calls == Uniforms(lights[..i], startIndex)
      {
        assert lights[..i + 1][..i] == lights[..i];
        var light := lights[i];
        calls := calls + [Uniform3(LightPosition, i, light.position), Uniform3(LightIntensity, i, light.intensity)];
        if light.shadow != None {
          var glUnit := (startIndex + i) % TWO_32;
          var texUnitId := if glUnit <= INT_MAX then glUnit else glUnit - TWO_32;
          calls := calls + [Uniform1(ShadowSampler, i, texUnitId), BindToUnit(light.shadow.value, glUnit)];
          calls := calls + [UniformMatrix(ShadowMatrix, i)];
        }
        i := i + 1;
      }
      assert lights[..|lights|] == lights;
    }
  }

  /** After the shadow-map pass every light's texture is bound, light i's to unit startIndex + i. */
  lemma ShadowPassThenUniforms(lights: seq<Light>, width: int, height: int, startIndex: nat, i: nat)
    requires i < |lights|
    requires forall k :: 0 <= k < |lights| ==> lights[k].shadow == Some(ShadowTexture(k, width, height))
    ensures BindToUnit(ShadowTexture(i, width, height), UnitSum(startIndex, i)) in Uniforms(lights, startIndex)
  {
    UniformsBindShadows(lights, startIndex, ShadowTexture(i, width, height), UnitSum(startIndex, i));
  }
}
