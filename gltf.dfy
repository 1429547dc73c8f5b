/** The parts of a glTF JSON document that the extensions read and rewrite:
    the texture list, the sampler list, the materials' MToon blocks and the
    top-level `extensions` object. A member that may be missing is an
    `Option`; JSON members the core never touches are not modelled. */
module Gltf {
  import opened Common

  /** An entry of `json.textures`: `name`, `source` (the image index),
      `sampler`, and the `source` of its `PIXIV_texture_basis` extension when
      it has one (`Some(None)` for the extension without a `source`). */
  datatype Texture = Texture(name: Option<string>, source: Option<nat>, sampler: Option<nat>, basis: Option<Option<nat>>)

  /** `{ name, source, sampler }`: what the snapshot keeps of a texture. */
  function Record(t: Texture): (r: Texture)
    ensures r.name == t.name && r.source == t.source && r.sampler == t.sampler && r.basis.None?
  {
    Texture(t.name, t.source, t.sampler, None)
  }

  /** The snapshot of a texture list, record by record. */
  function Records(ts: seq<Texture>): (rs: seq<Texture>)
    ensures |rs| == |ts| && forall j :: 0 <= j < |ts| ==> rs[j] == Record(ts[j])
  {
    seq(|ts|, j requires 0 <= j < |ts| => Record(ts[j]))
  }

  /** An entry of `json.samplers`, copied whole. */
  datatype Sampler = Sampler(magFilter: Option<int>, minFilter: Option<int>, wrapS: Option<int>, wrapT: Option<int>)

  /** The value of a member of a `VRMC_materials_mtoon` block: an object that
      may carry a texture `index` and the `_source` bookkeeping member
      (`Some(None)` when `_source` was set to `undefined`), or any other JSON
      value (a number, string, boolean or `null`). */
  datatype MToonValue =
    | TextureRef(index: Option<nat>, source: Option<Option<nat>>)
    | Plain(text: string)

  /** An entry of `json.materials`: its `VRMC_materials_mtoon` extension
      block, if it has one. */
  datatype Material = Material(mtoon: Option<map<string, MToonValue>>)

  /** An entry of a VRM 0.x `materialProperties` list: the
      `textureProperties` object (property name to texture index) and the
      `_textureSources` bookkeeping member (property name to image source). */
  datatype VrmMaterial = VrmMaterial(textureProperties: Option<map<string, Option<nat>>>,
                                     textureSources: Option<map<string, Option<nat>>>)

  /** The value of a member of `json.extensions`: its `materialProperties`,
      which only the VRM 0.x extension reads, and its other members as
      opaque text. */
  datatype ExtensionData = ExtensionData(materialProperties: Option<seq<VrmMaterial>>, rest: string)

  /** The JSON document of one read or one write (`context.jsonDoc.json`).
      The extensions change its members in place. */
  class Json {
    var textures: Option<seq<Texture>>
    var samplers: Option<seq<Sampler>>
    var materials: Option<seq<Material>>
    var extensions: Option<map<string, ExtensionData>>

    constructor (textures: Option<seq<Texture>>, samplers: Option<seq<Sampler>>,
                 materials: Option<seq<Material>>, extensions: Option<map<string, ExtensionData>>)
      ensures this.textures == textures && this.samplers == samplers
      ensures this.materials == materials && this.extensions == extensions
    {
      this.textures := textures;
      this.samplers := samplers;
      this.materials := materials;
      this.extensions := extensions;
    }
  }
}
