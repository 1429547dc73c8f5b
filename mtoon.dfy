/** `VRM_v1_materials_mtoon_Extension` (src/index.js:430-480). The MToon block
    of a material refers to textures by index in its `…Texture` members. The
    preread records the image source behind each index (`_source`) and keeps
    the blocks by material index; the prewrite puts every kept block back on
    its material of the written document, with each index recomputed from the
    recorded source. */
module MToon {
  import opened Common
  import opened Gltf
  import opened Preservation

  /** A `VRMC_materials_mtoon` block: member name to value. */
  type Block = map<string, MToonValue>

  predicate IsLineTerminator(c: char) {
    c == '\n' || c == '\r' || c == '\U{2028}' || c == '\U{2029}'
  }

  predicate LineFree(s: string) {
    forall i :: 0 <= i < |s| ==> !IsLineTerminator(s[i])
  }

  /** `k` is `pre` followed by `Texture`, where `pre` is what `.*` can match:
      any text without a line terminator. */
  predicate TextureMatch(k: string, pre: string) {
    k == pre + "Texture" && LineFree(pre)
  }

  /** `k.match(/^.*Texture$/)`: the name ends in `Texture` and holds no line
      terminator, which is exactly when some `pre` matches `.*`. */
  function IsTextureKey(k: string): (r: bool)
    ensures r <==> exists pre :: TextureMatch(k, pre)
  {
    if |k| >= 7 && k[|k| - 7..] == "Texture" && LineFree(k) then
      assert k == k[..|k| - 7] + "Texture";
      assert TextureMatch(k, k[..|k| - 7]);
      true
    else
      assert forall pre :: TextureMatch(k, pre) ==> k[|k| - 7..] == "Texture" && LineFree(k) by {
        forall pre | TextureMatch(k, pre) ensures k[|k| - 7..] == "Texture" && LineFree(k) {
          assert k[|pre|..] == "Texture";
          forall i | 0 <= i < |k| ensures !IsLineTerminator(k[i]) {
            if i < |pre| { assert k[i] == pre[i]; }
          }
        }
      }
      false
  }

  /** `ext[k]._source = json.textures[ext[k].index].source` for one member:
      it throws unless the member is an object whose `index` names a texture
      (a number, string or boolean has no `index`, `null` no members at all). */
  function MarkValue(v: MToonValue, ts: Option<seq<Texture>>): (r: Result<MToonValue>)
    ensures r.Err? ==> r.error == TypeError
    ensures r.Ok? <==> v.TextureRef? && ts.Some? && v.index.Some? && v.index.value < |ts.value|
    ensures r.Ok? ==> r.value.TextureRef? && r.value.index == v.index
  {
    match v
    case Plain(_) => Err(TypeError)
    case TextureRef(i, _) =>
      if ts.Some? && i.Some? && i.value < |ts.value| then Ok(TextureRef(i, Some(ts.value[i.value].source)))
      else Err(TypeError)
  }

  /** The block after the preread: every texture member carries its source;
      the other members are untouched. */
  function MarkBlock(block: Block, ts: Option<seq<Texture>>): (r: Result<Block>)
    ensures r.Err? ==> r.error == TypeError
    ensures r.Ok? <==> forall k :: k in block && IsTextureKey(k) ==> MarkValue(block[k], ts).Ok?
    ensures r.Ok? ==> r.value.Keys == block.Keys
    ensures r.Ok? ==> forall k :: k in block && IsTextureKey(k) ==> MarkValue(block[k], ts) == Ok(r.value[k])
    ensures r.Ok? ==> forall k :: k in block && !IsTextureKey(k) ==> r.value[k] == block[k]
  {
    if exists k :: k in block && IsTextureKey(k) && MarkValue(block[k], ts).Err? then Err(TypeError)
    else Ok(map k | k in block :: if IsTextureKey(k) then MarkValue(block[k], ts).value else block[k])
  }

  /** One material of the preread loop: one without the extension is skipped. */
  function MarkMaterial(m: Material, ts: Option<seq<Texture>>): (r: Result<Material>)
    ensures r.Err? ==> r.error == TypeError
    ensures r.Ok? ==> (r.value.mtoon.Some? <==> m.mtoon.Some?)
  {
    match m.mtoon
    case None => Ok(m)
    case Some(block) =>
      match MarkBlock(block, ts)
      case Err(e) => Err(e)
      case Ok(marked) => Ok(Material(Some(marked)))
  }

  /** `this.materials_mtoon`: the block of every material that has one, by
      material index. */
  function Blocks(ms: seq<Material>): (r: map<nat, Block>)
    ensures forall idx: nat :: idx in r <==> idx < |ms| && ms[idx].mtoon.Some?
    ensures forall idx :: idx in r ==> r[idx] == ms[idx].mtoon.value
  {
    map idx: nat | idx < |ms| && ms[idx].mtoon.Some? :: ms[idx].mtoon.value
  }

  lemma BlocksSnoc(done: seq<Material>, m: Material)
    ensures Blocks(done + [m]) == if m.mtoon.Some? then Blocks(done)[|done| := m.mtoon.value] else Blocks(done)
  {
    var ms := done + [m];
    assert forall idx :: 0 <= idx < |done| ==> ms[idx] == done[idx];
  }

  /** The member after the prewrite: `index` is the slot of the recorded
      source in the written list (the `undefined` source when none was
      recorded), and `_source` is deleted. A member that is not an object
      throws: a property cannot be set on a primitive in strict code. */
  function UnmarkValue(v: MToonValue, index: Index): (r: Result<MToonValue>)
    ensures r.Err? <==> v.Plain?
    ensures r.Err? ==> r.error == TypeError
    ensures r.Ok? ==> r.value == TextureRef(Lookup(index, v.source.GetOr(None)), None)
  {
    match v
    case Plain(_) => Err(TypeError)
    case TextureRef(_, source) => Ok(TextureRef(Lookup(index, source.GetOr(None)), None))
  }

  function UnmarkBlock(block: Block, index: Index): (r: Result<Block>)
    ensures r.Err? <==> exists k :: k in block && IsTextureKey(k) && block[k].Plain?
    ensures r.Err? ==> r.error == TypeError
    ensures r.Ok? ==> r.value.Keys == block.Keys
    ensures r.Ok? ==> forall k :: k in block && IsTextureKey(k) ==> UnmarkValue(block[k], index) == Ok(r.value[k])
    ensures r.Ok? ==> forall k :: k in block && !IsTextureKey(k) ==> r.value[k] == block[k]
  {
    if exists k :: k in block && IsTextureKey(k) && UnmarkValue(block[k], index).Err? then Err(TypeError)
    else Ok(map k | k in block :: if IsTextureKey(k) then UnmarkValue(block[k], index).value else block[k])
  }

  /** One material index of the prewrite loop: a material without a kept
      block is skipped; otherwise the kept block goes onto the written
      material and is rewritten there. The written material and the kept block
      are the same object, so both change. */
  function RestoreOne(materials: Option<seq<Material>>, blocks: map<nat, Block>, idx: nat, index: Index)
    : (r: Result<(Option<seq<Material>>, map<nat, Block>)>)
    ensures r.Err? ==> r.error == TypeError
    ensures r.Ok? ==> r.value.1.Keys == blocks.Keys
    ensures r.Ok? ==> r.value.0.Some? == materials.Some?
    ensures r.Ok? && materials.Some? ==> |r.value.0.value| == |materials.value|
    ensures r.Ok? && materials.Some? ==> forall j :: 0 <= j < |materials.value| && j != idx ==>
      r.value.0.value[j] == materials.value[j]
    ensures r.Ok? ==> forall j :: j in blocks && j != idx ==> r.value.1[j] == blocks[j]
  {
    if idx !in blocks then Ok((materials, blocks))
    else if materials.None? || idx >= |materials.value| then Err(TypeError)
    else
      match UnmarkBlock(blocks[idx], index)
      case Err(e) => Err(e)
      case Ok(b) => Ok((Some(materials.value[idx := Material(Some(b))]), blocks[idx := b]))
  }

  /** The prewrite loop over the written document's material indices, in
      order. */
  function RestoreAll(materials: Option<seq<Material>>, blocks: map<nat, Block>, indices: seq<nat>, index: Index)
    : (r: Result<(Option<seq<Material>>, map<nat, Block>)>)
    ensures r.Err? ==> r.error == TypeError
    ensures r.Ok? ==> r.value.1.Keys == blocks.Keys
    ensures r.Ok? ==> r.value.0.Some? == materials.Some?
    ensures r.Ok? && materials.Some? ==> |r.value.0.value| == |materials.value|
    ensures r.Ok? && materials.Some? ==> forall j :: 0 <= j < |materials.value| && j !in indices ==>
      r.value.0.value[j] == materials.value[j]
  {
    if |indices| == 0 then Ok((materials, blocks))
    else
      var init := indices[..|indices| - 1];
      assert forall j :: j !in indices ==> j !in init by {
        assert forall k :: 0 <= k < |init| ==> init[k] == indices[k];
      }
      match RestoreAll(materials, blocks, init, index)
      case Err(e) => Err(e)
      case Ok(s) => RestoreOne(s.0, s.1, indices[|indices| - 1], index)
  }

  lemma RestoreAllStep(materials: Option<seq<Material>>, blocks: map<nat, Block>, indices: seq<nat>, index: Index, k: nat)
    requires k < |indices| && RestoreAll(materials, blocks, indices[..k], index).Ok?
    ensures var s := RestoreAll(materials, blocks, indices[..k], index).value;
      RestoreAll(materials, blocks, indices[..k + 1], index) == RestoreOne(s.0, s.1, indices[k], index)
  {
    assert indices[..k + 1][..k] == indices[..k];
  }

  /** A throw ends the loop. */
  lemma {:induction false} RestoreAllPrefixErr(materials: Option<seq<Material>>, blocks: map<nat, Block>, indices: seq<nat>, index: Index, k: nat)
    requires k <= |indices| && RestoreAll(materials, blocks, indices[..k], index).Err?
    ensures RestoreAll(materials, blocks, indices, index).Err?
  {
    if k == |indices| {
      assert indices[..k] == indices;
    } else {
      var init := indices[..|indices| - 1];
      assert init[..k] == indices[..k];
      RestoreAllPrefixErr(materials, blocks, init, index, k);
    }
  }

  /** `index` gives back every slot of `ts`: the lookup of a distinct
      list's own index. */
  predicate Inverts(index: Index, ts: seq<Texture>) {
    forall i :: 0 <= i < |ts| ==> Lookup(index, ts[i].source) == Some(i)
  }

  lemma DistinctInverts(ts: seq<Texture>)
    requires forall a, b :: 0 <= a < b < |ts| ==> ts[a].source != ts[b].source
    ensures Inverts(IndexBySource(ts), ts)
  {
    forall i | 0 <= i < |ts| ensures Lookup(IndexBySource(ts), ts[i].source) == Some(i) {
      LookupDistinct(ts, i);
    }
  }

  /** A block marked against `ts` and rewritten through an index that
      inverts `ts` comes back as it was read; only `_source` is gone. */
  lemma MarkUnmark(block: Block, ts: seq<Texture>, index: Index)
    requires Inverts(index, ts)
    requires MarkBlock(block, Some(ts)).Ok?
    ensures UnmarkBlock(MarkBlock(block, Some(ts)).value, index) == Ok(Stripped(block))
  {
    var marked := MarkBlock(block, Some(ts)).value;
    forall k | k in marked && IsTextureKey(k) ensures UnmarkValue(marked[k], index) == Ok(Stripped(block)[k]) {
      assert MarkValue(block[k], Some(ts)).Ok?;
    }
    var r := UnmarkBlock(marked, index);
    assert r.Ok?;
    assert r.value == Stripped(block);
  }

  /** The block as it was read, without `_source` on its texture members. */
  function Stripped(block: Block): (r: Block)
    ensures r.Keys == block.Keys
  {
    map k | k in block :: if IsTextureKey(k) && block[k].TextureRef? then block[k].(source := None) else block[k]
  }

  /** The invariant of the prewrite loop when no material index repeats: every
      kept block still to come is the one of the preread, and every material
      index done holds its rewritten block. */
  lemma {:induction false} RestoreDone(materials: seq<Material>, blocks: map<nat, Block>, indices: seq<nat>, index: Index)
    requires forall a, b :: 0 <= a < b < |indices| ==> indices[a] != indices[b]
    requires forall k :: 0 <= k < |indices| ==> indices[k] < |materials|
    requires forall idx :: idx in blocks ==> UnmarkBlock(blocks[idx], index).Ok?
    ensures var r := RestoreAll(Some(materials), blocks, indices, index);
      && r.Ok? && r.value.0.Some?
      && (forall idx :: idx in blocks && idx !in indices ==> r.value.1[idx] == blocks[idx])
      && (forall k :: 0 <= k < |indices| && indices[k] in blocks ==>
            r.value.0.value[indices[k]] == Material(Some(UnmarkBlock(blocks[indices[k]], index).value)))
  {
    if |indices| > 0 {
      var n := |indices| - 1;
      var init := indices[..n];
      RestoreDone(materials, blocks, init, index);
      var s := RestoreAll(Some(materials), blocks, init, index).value;
      var idx := indices[n];
      assert idx !in init;
      assert forall j :: j in blocks && j !in indices ==> j !in init;
      var r := RestoreAll(Some(materials), blocks, indices, index);
      assert r == RestoreOne(s.0, s.1, idx, index);
      forall k | 0 <= k < |indices| && indices[k] in blocks
        ensures r.value.0.value[indices[k]] == Material(Some(UnmarkBlock(blocks[indices[k]], index).value))
      {
        if k < n {
          assert init[k] == indices[k] && indices[k] != idx;
        }
      }
    }
  }

  /** The kept blocks are those of the materials `read` with an MToon block,
      and each rewrites through `index` to the block as it was read. */
  predicate RestoresTo(blocks: map<nat, Block>, read: seq<Material>, index: Index) {
    && (forall idx: nat :: idx < |read| && read[idx].mtoon.Some? ==> idx in blocks)
    && forall idx :: idx in blocks ==>
         idx < |read| && read[idx].mtoon.Some? && UnmarkBlock(blocks[idx], index) == Ok(Stripped(read[idx].mtoon.value))
  }

  lemma MarkedRestore(read: seq<Material>, ts: seq<Texture>, index: Index)
    requires Inverts(index, ts)
    requires Each(read, m => MarkMaterial(m, Some(ts))).Ok?
    ensures RestoresTo(Blocks(Each(read, m => MarkMaterial(m, Some(ts))).value), read, index)
  {
    var marked := Each(read, m => MarkMaterial(m, Some(ts))).value;
    var blocks := Blocks(marked);
    forall idx | idx in blocks
      ensures idx < |read| && read[idx].mtoon.Some? && UnmarkBlock(blocks[idx], index) == Ok(Stripped(read[idx].mtoon.value))
    {
      assert MarkMaterial(read[idx], Some(ts)).Ok?;
      MarkUnmark(read[idx].mtoon.value, ts, index);
    }
  }

  lemma RestoreMarked(read: seq<Material>, blocks: map<nat, Block>, index: Index, written: seq<Material>, indices: seq<nat>)
    requires RestoresTo(blocks, read, index)
    requires forall a, b :: 0 <= a < b < |indices| ==> indices[a] != indices[b]
    requires forall k :: 0 <= k < |indices| ==> indices[k] < |written|
    ensures var r := RestoreAll(Some(written), blocks, indices, index);
      && r.Ok?
      && forall k :: 0 <= k < |indices| && indices[k] < |read| && read[indices[k]].mtoon.Some? ==>
           r.value.0.value[indices[k]] == Material(Some(Stripped(read[indices[k]].mtoon.value)))
  {
    RestoreDone(written, blocks, indices, index);
  }

  /** Preread followed by prewrite, with a writer that leaves the texture list
      as it was read, textures of distinct sources and material indices that
      do not repeat and fit the written materials: every written material that
      had an MToon block at read gets the block back with the indices it was
      read with, only `_source` gone. */
  lemma MToonRoundTrip(read: seq<Material>, ts: seq<Texture>, written: seq<Material>, indices: seq<nat>)
    requires forall a, b :: 0 <= a < b < |ts| ==> ts[a].source != ts[b].source
    requires Each(read, m => MarkMaterial(m, Some(ts))).Ok?
    requires forall a, b :: 0 <= a < b < |indices| ==> indices[a] != indices[b]
    requires forall k :: 0 <= k < |indices| ==> indices[k] < |written|
    ensures var blocks := Blocks(Each(read, m => MarkMaterial(m, Some(ts))).value);
      var r := RestoreAll(Some(written), blocks, indices, IndexBySource(Reapplied(ts, Records(ts))));
      && r.Ok?
      && forall k :: 0 <= k < |indices| && indices[k] < |read| && read[indices[k]].mtoon.Some? ==>
           r.value.0.value[indices[k]] == Material(Some(Stripped(read[indices[k]].mtoon.value)))
  {
    ReappliedOwnSnapshot(ts);
    SameSourcesSameIndex(ts, Records(ts));
    DistinctInverts(ts);
    MarkedRestore(read, ts, IndexBySource(ts));
    RestoreMarked(read, Blocks(Each(read, m => MarkMaterial(m, Some(ts))).value), IndexBySource(ts), written, indices);
  }

  /** The `Object.keys(ext)` loop of the preread. */
  method MarkKeys(block: Block, ts: Option<seq<Texture>>) returns (r: Result<Block>)
    ensures r == MarkBlock(block, ts)
  {
    var ext := block;
    var todo := block.Keys;
    while todo != {}
      invariant todo <= block.Keys && ext.Keys == block.Keys
      invariant forall k :: k in block && (k in todo || !IsTextureKey(k)) ==> ext[k] == block[k]
      invariant forall k :: k in block && k !in todo && IsTextureKey(k) ==> MarkValue(block[k], ts) == Ok(ext[k])
      decreases todo
    {
      var k :| k in todo;
      todo := todo - {k};
      if !IsTextureKey(k) {
        continue;
      }
      var v := MarkValue(ext[k], ts);
      if v.Err? {
        return Err(v.error);
      }
      ext := ext[k := v.value];
    }
    assert ext == map k | k in block :: if IsTextureKey(k) then MarkValue(block[k], ts).value else block[k];
    return Ok(ext);
  }

  /** The `Object.keys(ext)` loop of the prewrite. */
  method UnmarkKeys(block: Block, index: Index) returns (r: Result<Block>)
    ensures r == UnmarkBlock(block, index)
  {
    var ext := block;
    var todo := block.Keys;
    while todo != {}
      invariant todo <= block.Keys && ext.Keys == block.Keys
      invariant forall k :: k in block && (k in todo || !IsTextureKey(k)) ==> ext[k] == block[k]
      invariant forall k :: k in block && k !in todo && IsTextureKey(k) ==> UnmarkValue(block[k], index) == Ok(ext[k])
      decreases todo
    {
      var k :| k in todo;
      todo := todo - {k};
      if !IsTextureKey(k) {
        continue;
      }
      match ext[k]
      case Plain(_) =>
        assert UnmarkValue(block[k], index).Err?;
        return Err(TypeError);
      case TextureRef(_, source) =>
        ext := ext[k := TextureRef(Lookup(index, source.GetOr(None)), None)];
    }
    assert ext == map k | k in block :: if IsTextureKey(k) then UnmarkValue(block[k], index).value else block[k];
    return Ok(ext);
  }

  /** The `for (let idx in json.materials)` loop of the preread: every
      material with an MToon block gets it marked, and the marked blocks are
      kept by material index. */
  method MarkMaterials(ms: seq<Material>, ts: Option<seq<Texture>>) returns (r: Result<(seq<Material>, map<nat, Block>)>)
    ensures match Each(ms, m => MarkMaterial(m, ts))
            case Err(e) => r == Err(e)
            case Ok(marked) => r == Ok((marked, Blocks(marked)))
  {
    var f := m => MarkMaterial(m, ts);
    var done: seq<Material> := [];
    var kept: map<nat, Block> := map[];
    var idx := 0;
    while idx < |ms|
      invariant 0 <= idx <= |ms| && |done| == idx
      invariant Each(ms[..idx], f) == Ok(done)
      invariant kept == Blocks(done)
    {
      EachStep(ms, f, idx);
      var mat := ms[idx];
      if mat.mtoon.Some? {
        var ext := MarkKeys(mat.mtoon.value, ts);
        if ext.Err? {
          assert Each(ms, f).Err? by { assert f(ms[idx]).Err?; }
          return Err(ext.error);
        }
        mat := Material(Some(ext.value));
        kept := kept[idx := ext.value];
      }
      BlocksSnoc(done, mat);
      done := done + [mat];
      idx := idx + 1;
    }
    assert ms[..idx] == ms;
    return Ok((done, kept));
  }

  /** The `for (let mat of …listMaterials())` loop of the prewrite, over the
      written index of each material in order. */
  method RestoreMaterials(materials: Option<seq<Material>>, blocks: map<nat, Block>, indices: seq<nat>, index: Index)
    returns (r: Result<(Option<seq<Material>>, map<nat, Block>)>)
    ensures r == RestoreAll(materials, blocks, indices, index)
  {
    var current, kept := materials, blocks;
    var k := 0;
    while k < |indices|
      invariant 0 <= k <= |indices|
      invariant RestoreAll(materials, blocks, indices[..k], index) == Ok((current, kept))
    {
      RestoreAllStep(materials, blocks, indices, index, k);
      var idx := indices[k];
      if idx in kept {
        if current.None? || idx >= |current.value| {
          RestoreAllPrefixErr(materials, blocks, indices, index, k + 1);
          return Err(TypeError);
        }
        var ext := UnmarkKeys(kept[idx], index);
        if ext.Err? {
          RestoreAllPrefixErr(materials, blocks, indices, index, k + 1);
          return Err(TypeError);
        }
        current := Some(current.value[idx := Material(Some(ext.value))]);
        kept := kept[idx := ext.value];
      }
      k := k + 1;
    }
    assert indices[..k] == indices;
    return Ok((current, kept));
  }

  class MToonExtension {
    /** `this.materials_mtoon`; `None` until the preread runs. */
    var blocks: Option<map<nat, Block>>
    const pool: TexturePool

    constructor ()
      ensures blocks.None? && fresh(pool) && pool.saved.None?
    {
      blocks := None;
      pool := new TexturePool();
    }

    /** `preread` (src/index.js:436-455). A missing `json.materials` gives no
        iteration. */
    method Preread(json: Json) returns (o: Outcome)
      modifies this`blocks, pool`saved, json`materials
      ensures old(pool.saved).Some? ==> pool.saved == old(pool.saved)
      ensures old(pool.saved).None? ==> pool.saved == Some(Records(json.textures.GetOr([])))
      ensures old(json.materials).None? ==> o == Done && blocks == Some(map[]) && json.materials.None?
      ensures old(json.materials).Some? ==>
                var ts := json.textures;
                match Each(old(json.materials).value, m => MarkMaterial(m, ts))
                case Err(e) => o == Failed(e)
                case Ok(ms) => o == Done && json.materials == Some(ms) && blocks == Some(Blocks(ms))
    {
      pool.SaveTextures(json);
      blocks := Some(map[]);
      if json.materials.None? {
        return Done;
      }
      var r := MarkMaterials(json.materials.value, json.textures);
      if r.Err? {
        return Failed(r.error);
      }
      json.materials := Some(r.value.0);
      blocks := Some(r.value.1);
      return Done;
    }

    /** `prewrite` (src/index.js:457-479). `materialIndices` is the index in
        the written document of each material of the model, in order. */
    method Prewrite(json: Json, materialIndices: seq<nat>) returns (o: Outcome)
      modifies this`blocks, pool`saved, json`textures, json`materials
      ensures old(json.textures).None? ==>
                o == Failed(TypeError) && json.materials == old(json.materials) && blocks == old(blocks)
      ensures old(json.textures).Some? ==>
                && pool.saved.None?
                && json.textures == Some(if old(pool.saved).Some? then Reapplied(old(json.textures).value, old(pool.saved).value)
                                         else old(json.textures).value)
      ensures old(json.textures).Some? && old(blocks).None? ==>
                && (o == Done <==> |materialIndices| == 0) && (o.Failed? ==> o == Failed(TypeError))
                && json.materials == old(json.materials) && blocks.None?
      ensures old(json.textures).Some? && old(blocks).Some? ==>
                match RestoreAll(old(json.materials), old(blocks).value, materialIndices, IndexBySource(json.textures.value))
                case Err(e) => o == Failed(e)
                case Ok(s) => o == Done && json.materials == s.0 && blocks == Some(s.1)
    {
      o := pool.ReapplyTextures(json);
      if o.Failed? {
        return;
      }
      if json.textures.None? {
        return Failed(TypeError);
      }
      var index := BuildIndex(json.textures.value);
      if blocks.None? {
        if |materialIndices| > 0 {
          return Failed(TypeError);
        }
        return Done;
      }
      var r := RestoreMaterials(json.materials, blocks.value, materialIndices, index);
      if r.Err? {
        return Failed(r.error);
      }
      json.materials := r.value.0;
      blocks := Some(r.value.1);
      return Done;
    }
  }
}
