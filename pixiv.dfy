/** The two VRoid Hub extensions (src/index.js:554-595).
    `PIXIV_vroid_hub_preview_mesh` is kept on read and refuses to be written;
    `PIXIV_texture_basis` moves the image index of its textures back into
    `source` before the document is read, and refuses to be written too. */
module Pixiv {
  import opened Common
  import opened Gltf
  import opened Preservation

  const PreviewName: string := "PIXIV_vroid_hub_preview_mesh"

  /** One texture after the basis fix: a texture with the extension takes the
      extension's `source` (nothing when the extension has none); any other
      texture is untouched. */
  function FixBasis(t: Texture): (r: Texture)
    ensures t.basis.None? ==> r == t
    ensures t.basis.Some? ==> r.source == t.basis.value
    ensures r.name == t.name && r.sampler == t.sampler && r.basis == t.basis
  {
    match t.basis
    case None => t
    case Some(s) => t.(source := s)
  }

  /** The texture list after the basis fix, texture by texture. */
  function FixedTextures(ts: seq<Texture>): (r: seq<Texture>)
    ensures |r| == |ts| && forall j :: 0 <= j < |ts| ==> r[j] == FixBasis(ts[j])
  {
    seq(|ts|, j requires 0 <= j < |ts| => FixBasis(ts[j]))
  }

  /** Every texture that carries the basis extension has its `source`. */
  predicate BasisAgrees(ts: seq<Texture>) {
    forall j :: 0 <= j < |ts| && ts[j].basis.Some? ==> ts[j].source == ts[j].basis.value
  }

  /** After the fix the list agrees with its basis extensions, and a list
      that already agrees is left as it is. */
  lemma FixedAgrees(ts: seq<Texture>)
    ensures BasisAgrees(FixedTextures(ts))
    ensures BasisAgrees(ts) <==> FixedTextures(ts) == ts
  {
    var r := FixedTextures(ts);
    if BasisAgrees(ts) {
      forall j | 0 <= j < |ts| ensures r[j] == ts[j] {
        assert FixBasis(ts[j]) == ts[j];
      }
    }
    if r == ts {
      forall j | 0 <= j < |ts| && ts[j].basis.Some? ensures ts[j].source == ts[j].basis.value {
        assert r[j] == FixBasis(ts[j]);
      }
    }
  }

  /** A second fix changes nothing. */
  lemma FixIdempotent(ts: seq<Texture>)
    ensures FixedTextures(FixedTextures(ts)) == FixedTextures(ts)
  {
    FixedAgrees(ts);
    FixedAgrees(FixedTextures(ts));
  }

  /** `PIXIVExtension`: the preview mesh data of the document. */
  class PreviewExtension {
    var data: Option<ExtensionData>

    constructor ()
      ensures data.None?
    {
      data := None;
    }

    /** `read` (src/index.js:558-565): a document without `extensions` throws. */
    method Read(json: Json) returns (o: Outcome)
      modifies this`data
      ensures json.extensions.None? ==> o == Failed(TypeError) && data == old(data)
      ensures json.extensions.Some? ==> o == Done && data == ReadData(json.extensions, PreviewName).value
      ensures json.extensions.Some? ==> (data.Some? <==> PreviewName in json.extensions.value)
    {
      var read := ReadData(json.extensions, PreviewName);
      if read.Err? {
        return Failed(read.error);
      }
      data := read.value;
      return Done;
    }

    /** `write` (src/index.js:567-569): always throws. */
    method Write(json: Json) returns (o: Outcome)
      ensures o == Failed(MustBeRemoved)
    {
      return Failed(MustBeRemoved);
    }
  }

  /** `PIXIVBasisExtension`. */
  class BasisExtension {
    constructor ()
    {
    }

    /** `preread` (src/index.js:577-589): the fix, texture by texture, on
        the document's list (an empty one when it has none), which then
        becomes the document's list. */
    method Preread(json: Json)
      modifies json`textures
      ensures json.textures == Some(FixedTextures(old(json.textures).GetOr([])))
    {
      var textures := json.textures.GetOr([]);
      ghost var ts := textures;
      var i := 0;
      while i < |textures|
        invariant 0 <= i <= |textures| == |ts|
        invariant forall j :: 0 <= j < i ==> textures[j] == FixBasis(ts[j])
        invariant forall j :: i <= j < |ts| ==> textures[j] == ts[j]
        modifies {}
      {
        var texture := textures[i];
        if texture.basis.Some? {
          textures := textures[i := texture.(source := texture.basis.value)];
        }
        i := i + 1;
      }
      assert textures == FixedTextures(ts);
      json.textures := Some(textures);
    }

    /** `write` (src/index.js:592-594): always throws. */
    method Write(json: Json) returns (o: Outcome)
      ensures o == Failed(MustBeRemoved)
    {
      return Failed(MustBeRemoved);
    }
  }
}
