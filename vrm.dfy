/** The VRM extensions (src/index.js:354-428). VRM 0.x refers to textures by
    their index in `json.textures`, in the `textureProperties` of each entry of
    `materialProperties`; since the writer may renumber the texture list, the
    read records the image source behind every index (`_textureSources`) and
    the write turns each source back into an index of the written list. VRM
    1.0 only needs its texture pool and its samplers kept. */
module Vrm {
  import opened Common
  import opened Gltf
  import opened Preservation

  const V0Name: string := "VRM"
  const V1Name: string := "VRMC_vrm"

  /** `json.textures[i].source`: throws unless `i` names a texture. */
  function SourceAt(ts: Option<seq<Texture>>, i: Option<nat>): (r: Result<Option<nat>>)
    ensures r.Ok? <==> ts.Some? && i.Some? && i.value < |ts.value|
    ensures r.Err? ==> r.error == TypeError
  {
    if ts.Some? && i.Some? && i.value < |ts.value| then Ok(ts.value[i.value].source) else Err(TypeError)
  }

  /** `_textureSources` of one material: the source behind every texture
      property; it throws if any property does not name a texture. */
  function RecordSources(props: map<string, Option<nat>>, ts: Option<seq<Texture>>): (r: Result<map<string, Option<nat>>>)
    ensures r.Err? ==> r.error == TypeError
    ensures r.Ok? ==> r.value.Keys == props.Keys
  {
    if exists p :: p in props && SourceAt(ts, props[p]).Err? then Err(TypeError)
    else Ok(map p | p in props :: SourceAt(ts, props[p]).value)
  }

  /** What `read` makes of one entry of `materialProperties`: one without
      `textureProperties` is left alone. */
  function RecordMaterial(m: VrmMaterial, ts: Option<seq<Texture>>): (r: Result<VrmMaterial>)
    ensures r.Err? ==> r.error == TypeError
    ensures r.Ok? ==> r.value.textureProperties == m.textureProperties
    ensures r.Ok? && m.textureProperties.Some? ==> r.value.textureSources.Some?
  {
    match m.textureProperties
    case None => Ok(m)
    case Some(props) =>
      match RecordSources(props, ts)
      case Err(e) => Err(e)
      case Ok(sources) => Ok(m.(textureSources := Some(sources)))
  }

  /** Every property of the rewritten `textureProperties`: a recorded one
      is the slot of its source in the written list, any other keeps its
      index. */
  function Overlay(props: map<string, Option<nat>>, sources: map<string, Option<nat>>, index: Index): (r: map<string, Option<nat>>)
    ensures r.Keys == props.Keys + sources.Keys
    ensures forall p :: p in sources ==> r[p] == Lookup(index, sources[p])
    ensures forall p :: p in props && p !in sources ==> r[p] == props[p]
  {
    map p | p in props.Keys + sources.Keys :: if p in sources then Lookup(index, sources[p]) else props[p]
  }

  /** What `write` makes of one entry of `materialProperties`: without
      recorded sources it is left alone; otherwise the recorded properties
      are rewritten and `_textureSources` is deleted. Writing a property into
      a missing `textureProperties` throws. */
  function RewriteMaterial(m: VrmMaterial, index: Index): (r: Result<VrmMaterial>)
    ensures r.Err? <==> m.textureSources.Some? && |m.textureSources.value| > 0 && m.textureProperties.None?
    ensures r.Err? ==> r.error == TypeError
    ensures r.Ok? ==> r.value.textureSources.None?
    ensures r.Ok? && m.textureSources.None? ==> r.value == m
    ensures r.Ok? && m.textureSources.Some? && m.textureProperties.Some? ==>
      r.value.textureProperties == Some(Overlay(m.textureProperties.value, m.textureSources.value, index))
  {
    match m.textureSources
    case None => Ok(m)
    case Some(sources) =>
      match m.textureProperties
      case None => if |sources| == 0 then Ok(m.(textureSources := None)) else Err(TypeError)
      case Some(props) => Ok(VrmMaterial(Some(Overlay(props, sources, index)), None))
  }

  /** The `for … in mat.textureProperties` loop of `read`. */
  method ReadSources(props: map<string, Option<nat>>, ts: Option<seq<Texture>>) returns (r: Result<map<string, Option<nat>>>)
    ensures r == RecordSources(props, ts)
  {
    var sources: map<string, Option<nat>> := map[];
    var todo := props.Keys;
    while todo != {}
      invariant todo <= props.Keys
      invariant sources.Keys == props.Keys - todo
      invariant forall p :: p in sources ==> SourceAt(ts, props[p]) == Ok(sources[p])
      decreases todo
    {
      var p :| p in todo;
      var i := props[p];
      if ts.None? || i.None? || i.value >= |ts.value| {
        assert SourceAt(ts, props[p]).Err?;
        return Err(TypeError);
      }
      sources := sources[p := ts.value[i.value].source];
      todo := todo - {p};
    }
    assert sources == map p | p in props :: SourceAt(ts, props[p]).value;
    return Ok(sources);
  }

  /** The `for … in mat._textureSources` loop of `write`. */
  method WriteSources(props: map<string, Option<nat>>, sources: map<string, Option<nat>>, index: Index)
    returns (r: map<string, Option<nat>>)
    ensures r == Overlay(props, sources, index)
  {
    r := props;
    var todo := sources.Keys;
    while todo != {}
      invariant todo <= sources.Keys
      invariant r.Keys == props.Keys + (sources.Keys - todo)
      invariant forall p :: p in r && p !in sources ==> r[p] == props[p]
      invariant forall p :: p in r && p in todo ==> r[p] == props[p]
      invariant forall p :: p in sources && p !in todo ==> r[p] == Lookup(index, sources[p])
      decreases todo
    {
      var p :| p in todo;
      r := r[p := if sources[p] in index then Some(index[sources[p]]) else None];
      todo := todo - {p};
    }
    assert r == Overlay(props, sources, index);
  }

  /** The `for … of materialProperties` loop of `read`. */
  method ReadMaterials(ms: seq<VrmMaterial>, ts: Option<seq<Texture>>) returns (r: Result<seq<VrmMaterial>>)
    ensures r == Each(ms, m => RecordMaterial(m, ts))
  {
    var f := m => RecordMaterial(m, ts);
    var done: seq<VrmMaterial> := [];
    var i := 0;
    while i < |ms|
      invariant 0 <= i <= |ms|
      invariant Each(ms[..i], f) == Ok(done)
    {
      EachStep(ms, f, i);
      var m := ms[i];
      if m.textureProperties.Some? {
        var sources := ReadSources(m.textureProperties.value, ts);
        if sources.Err? {
          assert Each(ms, f).Err? by { assert f(ms[i]).Err?; }
          return Err(sources.error);
        }
        m := m.(textureSources := Some(sources.value));
      }
      done := done + [m];
      i := i + 1;
    }
    assert ms[..i] == ms;
    return Ok(done);
  }

  /** The body of the `for … of materialProperties` loop of `write`, for one
      material. */
  method WriteMaterial(m: VrmMaterial, index: Index) returns (r: Result<VrmMaterial>)
    ensures r == RewriteMaterial(m, index)
  {
    if m.textureSources.None? {
      return Ok(m);
    }
    var sources := m.textureSources.value;
    if m.textureProperties.None? && |sources| > 0 {
      return Err(TypeError);
    }
    var props := WriteSources(m.textureProperties.GetOr(map[]), sources, index);
    return Ok(VrmMaterial(if m.textureProperties.Some? then Some(props) else None, None));
  }

  /** The `for … of materialProperties` loop of `write`. */
  method WriteMaterials(ms: seq<VrmMaterial>, index: Index) returns (r: Result<seq<VrmMaterial>>)
    ensures r == Each(ms, m => RewriteMaterial(m, index))
  {
    var f := m => RewriteMaterial(m, index);
    var done: seq<VrmMaterial> := [];
    var i := 0;
    while i < |ms|
      invariant 0 <= i <= |ms|
      invariant Each(ms[..i], f) == Ok(done)
    {
      EachStep(ms, f, i);
      var m := WriteMaterial(ms[i], index);
      if m.Err? {
        assert Each(ms, f).Err? by { assert f(ms[i]).Err?; }
        return Err(m.error);
      }
      assert f(ms[i]) == m;
      done := done + [m.value];
      i := i + 1;
    }
    assert ms[..i] == ms;
    return Ok(done);
  }

  /** After a write, every recorded property holds the last slot of the
      written list with the source recorded at read, or nothing when no slot
      of the written list has that source. */
  lemma RewrittenIndex(m: VrmMaterial, ts: seq<Texture>, p: string)
    requires m.textureSources.Some? && m.textureProperties.Some? && p in m.textureSources.value
    ensures var r := RewriteMaterial(m, IndexBySource(ts));
      var s := m.textureSources.value[p];
      && r.Ok? && p in r.value.textureProperties.value
      && match r.value.textureProperties.value[p]
         case None => forall j :: 0 <= j < |ts| ==> ts[j].source != s
         case Some(j) => j < |ts| && ts[j].source == s && forall k :: j < k < |ts| ==> ts[k].source != s
  {
    LookupLast(ts, m.textureSources.value[p]);
  }

  /** Recording the sources and rewriting them through the index of the same
      list gives back every index, when no two textures share a source. */
  lemma {:induction false} RecordRewrite(m: VrmMaterial, ts: seq<Texture>)
    requires forall a, b :: 0 <= a < b < |ts| ==> ts[a].source != ts[b].source
    requires RecordMaterial(m, Some(ts)).Ok?
    requires m.textureProperties.Some? || m.textureSources.None?
    ensures RewriteMaterial(RecordMaterial(m, Some(ts)).value, IndexBySource(ts)) == Ok(m.(textureSources := None))
  {
    if m.textureProperties.Some? {
      var props := m.textureProperties.value;
      assert !exists p :: p in props && SourceAt(Some(ts), props[p]).Err?;
      var sources := RecordSources(props, Some(ts)).value;
      var index := IndexBySource(ts);
      var o := Overlay(props, sources, index);
      forall p | p in props ensures o[p] == props[p] {
        assert SourceAt(Some(ts), props[p]).Ok?;
        LookupDistinct(ts, props[p].value);
      }
      assert o == props;
    }
  }

  /** Read followed by write, with a writer that leaves the texture list as it
      was read and textures of distinct sources: every material's indices come
      back unchanged and its `_textureSources` is gone. The write merges the
      pool's snapshot first, which here restores the records of the list. */
  lemma V0RoundTrip(ms: seq<VrmMaterial>, ts: seq<Texture>)
    requires forall a, b :: 0 <= a < b < |ts| ==> ts[a].source != ts[b].source
    requires forall j :: 0 <= j < |ms| ==> ms[j].textureProperties.Some? || ms[j].textureSources.None?
    requires Each(ms, m => RecordMaterial(m, Some(ts))).Ok?
    ensures var written := Reapplied(ts, Records(ts));
      && written == Records(ts)
      && Each(Each(ms, m => RecordMaterial(m, Some(ts))).value, m => RewriteMaterial(m, IndexBySource(written)))
         == Ok(seq(|ms|, j requires 0 <= j < |ms| => ms[j].(textureSources := None)))
  {
    ReappliedOwnSnapshot(ts);
    SameSourcesSameIndex(ts, Records(ts));
    RewriteRecorded(ms, ts);
  }

  /** Rewriting the recorded materials against the index of the list they
      were recorded from gives them back without `_textureSources`. */
  lemma RewriteRecorded(ms: seq<VrmMaterial>, ts: seq<Texture>)
    requires forall j :: 0 <= j < |ms| ==> ms[j].textureProperties.Some? || ms[j].textureSources.None?
    requires Each(ms, m => RecordMaterial(m, Some(ts))).Ok?
    ensures Each(Each(ms, m => RecordMaterial(m, Some(ts))).value, m => RewriteMaterial(m, IndexBySource(ts)))
         == Ok(seq(|ms|, j requires 0 <= j < |ms| => ms[j].(textureSources := None)))
  {
    var read := Each(ms, m => RecordMaterial(m, Some(ts))).value;
    var f := m => RewriteMaterial(m, IndexBySource(ts));
    forall j | 0 <= j < |read| ensures f(read[j]) == Ok(ms[j].(textureSources := None)) {
      RecordRewrite(ms[j], ts);
    }
    var back := Each(read, f);
    assert back.Ok?;
    assert back.value == seq(|ms|, j requires 0 <= j < |ms| => ms[j].(textureSources := None));
  }

  /** `VRM_v0_Extension`: its `data` is `json.extensions.VRM` of the read
      document, its pool and its `samplers` are kept from read to write. */
  class V0Extension {
    var data: Option<ExtensionData>
    var samplers: Option<seq<Sampler>>
    const pool: TexturePool

    constructor ()
      ensures data.None? && samplers.None? && fresh(pool) && pool.saved.None?
    {
      data := None;
      samplers := None;
      pool := new TexturePool();
    }

    /** `read` (src/index.js:358-376). */
    method Read(json: Json) returns (o: Outcome)
      modifies this`data, this`samplers, pool`saved
      ensures json.extensions.None? ==>
                o == Failed(TypeError) && data == old(data) && samplers == old(samplers) && pool.saved == old(pool.saved)
      ensures json.extensions.Some? ==>
                && (old(pool.saved).Some? ==> pool.saved == old(pool.saved))
                && (old(pool.saved).None? ==> pool.saved == Some(Records(json.textures.GetOr([]))))
                && samplers == Some(json.samplers.GetOr([]))
      ensures json.extensions.Some? && V0Name !in json.extensions.value ==> o == Failed(TypeError) && data.None?
      ensures json.extensions.Some? && V0Name in json.extensions.value ==>
                var found, ts := json.extensions.value[V0Name], json.textures;
                match Each(found.materialProperties.GetOr([]), m => RecordMaterial(m, ts))
                case Err(e) => o == Failed(e)
                case Ok(ms) => o == Done && data == Some(found.(materialProperties := Some(ms)))
    {
      var read := ReadData(json.extensions, V0Name);
      if read.Err? {
        return Failed(read.error);
      }
      data := read.value;
      pool.SaveTextures(json);
      samplers := Some(json.samplers.GetOr([]));
      if data.None? {
        return Failed(TypeError);
      }
      var ms := ReadMaterials(data.value.materialProperties.GetOr([]), json.textures);
      if ms.Err? {
        return Failed(ms.error);
      }
      data := Some(data.value.(materialProperties := Some(ms.value)));
      return Done;
    }

    /** `write` (src/index.js:378-400). */
    method Write(json: Json) returns (o: Outcome)
      modifies this`data, pool`saved, json`textures, json`samplers, json`extensions
      ensures old(pool.saved).Some? && old(json.textures).None? ==>
                && o == Failed(TypeError) && data == old(data)
                && json.samplers == old(json.samplers) && json.extensions == old(json.extensions)
      ensures old(pool.saved).None? && old(json.textures).None? ==>
                && o == Failed(TypeError) && data == old(data) && json.textures.None?
                && json.samplers == Some(samplers.GetOr([])) && json.extensions == old(json.extensions)
      ensures old(json.textures).Some? ==>
                && pool.saved.None?
                && json.textures == Some(if old(pool.saved).Some? then Reapplied(old(json.textures).value, old(pool.saved).value)
                                         else old(json.textures).value)
                && json.samplers == Some(samplers.GetOr([]))
      ensures old(json.textures).Some? && old(data).None? ==>
                o == Failed(TypeError) && data.None? && json.extensions == old(json.extensions)
      ensures old(json.textures).Some? && old(data).Some? ==>
                var index := IndexBySource(json.textures.value);
                match Each(old(data).value.materialProperties.GetOr([]), m => RewriteMaterial(m, index))
                case Err(e) => o == Failed(e)
                case Ok(ms) =>
                  && o == Done && data == Some(old(data).value.(materialProperties := Some(ms)))
                  && json.extensions == WithData(old(json.extensions), V0Name, data)
    {
      o := pool.ReapplyTextures(json);
      if o.Failed? {
        return;
      }
      json.samplers := Some(samplers.GetOr([]));
      if json.textures.None? {
        return Failed(TypeError);
      }
      var index := BuildIndex(json.textures.value);
      if data.None? {
        return Failed(TypeError);
      }
      var ms := WriteMaterials(data.value.materialProperties.GetOr([]), index);
      if ms.Err? {
        return Failed(ms.error);
      }
      data := Some(data.value.(materialProperties := Some(ms.value)));
      json.extensions := WithData(json.extensions, V0Name, data);
      return Done;
    }
  }

  /** `VRM_v1_Extension`: only the texture pool and the samplers. */
  class V1Extension {
    var data: Option<ExtensionData>
    var samplers: Option<seq<Sampler>>
    const pool: TexturePool

    constructor ()
      ensures data.None? && samplers.None? && fresh(pool) && pool.saved.None?
    {
      data := None;
      samplers := None;
      pool := new TexturePool();
    }

    /** `read` (src/index.js:407-416). */
    method Read(json: Json) returns (o: Outcome)
      modifies this`data, this`samplers, pool`saved
      ensures json.extensions.None? ==>
                o == Failed(TypeError) && data == old(data) && samplers == old(samplers) && pool.saved == old(pool.saved)
      ensures json.extensions.Some? ==>
                && o == Done && data == ReadData(json.extensions, V1Name).value
                && (old(pool.saved).Some? ==> pool.saved == old(pool.saved))
                && (old(pool.saved).None? ==> pool.saved == Some(Records(json.textures.GetOr([]))))
                && samplers == Some(json.samplers.GetOr([]))
    {
      var read := ReadData(json.extensions, V1Name);
      if read.Err? {
        return Failed(read.error);
      }
      data := read.value;
      pool.SaveTextures(json);
      samplers := Some(json.samplers.GetOr([]));
      return Done;
    }

    /** `write` (src/index.js:418-427): the data first, then the pool and the
        samplers. */
    method Write(json: Json) returns (o: Outcome)
      modifies pool`saved, json`textures, json`samplers, json`extensions
      ensures json.extensions == WithData(old(json.extensions), V1Name, data)
      ensures old(pool.saved).Some? && old(json.textures).None? ==>
                o == Failed(TypeError) && pool.saved == old(pool.saved) && json.samplers == old(json.samplers)
      ensures old(pool.saved).None? || old(json.textures).Some? ==>
                && o == Done && pool.saved.None? && json.samplers == Some(samplers.GetOr([]))
                && json.textures == if old(pool.saved).Some? then Some(Reapplied(old(json.textures).value, old(pool.saved).value))
                                    else old(json.textures)
    {
      json.extensions := WithData(json.extensions, V1Name, data);
      o := pool.ReapplyTextures(json);
      if o.Failed? {
        return;
      }
      json.samplers := Some(samplers.GetOr([]));
    }
  }
}
