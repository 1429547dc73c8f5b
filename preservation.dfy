/** The two base classes of the VRM extensions (src/index.js:295-351). The
    first keeps the extension's own member of `json.extensions` from the read
    document and puts it into the written one. The second adds a texture pool:
    at read time a snapshot of `json.textures` is kept, and at write time the
    snapshot is merged back into the texture list the writer produced, slot by
    image source. */
module Preservation {
  import opened Common
  import opened Gltf

  /** `json.extensions[name]` as `read` stores it in `data`: throws when the
      document has no `extensions` object, and is `None` when the member is
      missing. */
  function ReadData(extensions: Option<map<string, ExtensionData>>, name: string): (r: Result<Option<ExtensionData>>)
    ensures r.Err? <==> extensions.None?
    ensures r.Err? ==> r.error == TypeError
    ensures r.Ok? ==> (r.value.Some? <==> name in extensions.value)
    ensures r.Ok? && r.value.Some? ==> r.value.value == extensions.value[name]
  {
    match extensions
    case None => Err(TypeError)
    case Some(e) => Ok(if name in e then Some(e[name]) else None)
  }

  /** The `extensions` object after `write`: with data, the member `name` is
      set (creating the object if need be); without, nothing changes. */
  function WithData(extensions: Option<map<string, ExtensionData>>, name: string, data: Option<ExtensionData>): (r: Option<map<string, ExtensionData>>)
    ensures data.None? ==> r == extensions
    ensures data.Some? ==> r.Some? && name in r.value && r.value[name] == data.value
    ensures data.Some? ==> forall other :: other != name ==>
      (other in r.value <==> extensions.Some? && other in extensions.value)
  {
    match data
    case None => extensions
    case Some(d) => Some(extensions.GetOr(map[])[name := d])
  }

  /** Writing what was read puts the read member back: a read of the written
      document finds the same data, and the other members are those the
      writer had. */
  lemma ReadWritten(read: map<string, ExtensionData>, written: Option<map<string, ExtensionData>>, name: string)
    requires name in read
    ensures var data := ReadData(Some(read), name);
      && data == Ok(Some(read[name]))
      && ReadData(WithData(written, name, data.value), name) == data
      && forall other :: other != name && written.Some? && other in written.value ==>
           WithData(written, name, data.value).value[other] == written.value[other]
  {
  }

  /** `sourceToIdx`: from an image source to a slot of `json.textures`. The
      key `None` is the property `"undefined"` that a texture without a
      `source` indexes. */
  type Index = map<Option<nat>, nat>

  /** Every entry names a slot holding a texture of that source. */
  predicate Indexes(ts: seq<Texture>, index: Index) {
    forall s :: s in index ==> index[s] < |ts| && ts[index[s]].source == s
  }

  /** Moreover every source of the list is a key, and its entry is the last
      slot with that source. */
  predicate LastIndex(ts: seq<Texture>, index: Index) {
    && Indexes(ts, index)
    && forall j :: 0 <= j < |ts| ==> ts[j].source in index && j <= index[ts[j].source]
  }

  /** `json.textures.forEach((tex, i) => sourceToIdx[tex.source] = i)`: a
      later slot of the same source overwrites an earlier one. */
  function IndexBySource(ts: seq<Texture>): (index: Index)
    ensures LastIndex(ts, index)
  {
    if |ts| == 0 then map[]
    else
      var init := ts[..|ts| - 1];
      var index := IndexBySource(init);
      assert forall j :: 0 <= j < |init| ==> ts[j] == init[j];
      index[ts[|ts| - 1].source := |ts| - 1]
  }

  /** There is only one index that names the last slot of every source. */
  lemma LastIndexUnique(ts: seq<Texture>, a: Index, b: Index)
    requires LastIndex(ts, a) && LastIndex(ts, b)
    ensures a == b
  {
    forall s | s in a ensures s in b && b[s] == a[s] {
      assert ts[a[s]].source == s;
      assert ts[b[s]].source == s;
    }
    forall s | s in b ensures s in a {
      assert ts[b[s]].source == s;
    }
  }

  /** `sourceToIdx[s]`: the slot the index gives source `s`, `undefined`
      when it has none. */
  function Lookup(index: Index, s: Option<nat>): Option<nat> {
    if s in index then Some(index[s]) else None
  }

  /** Looking a source up in the index of a list finds the last slot with that
      source, and nothing exactly when no slot has it. */
  lemma LookupLast(ts: seq<Texture>, s: Option<nat>)
    ensures Lookup(IndexBySource(ts), s).None? <==> forall j :: 0 <= j < |ts| ==> ts[j].source != s
    ensures Lookup(IndexBySource(ts), s).Some? ==>
      var j := Lookup(IndexBySource(ts), s).value;
      && j < |ts| && ts[j].source == s
      && forall k :: j < k < |ts| ==> ts[k].source != s
  {
    var index := IndexBySource(ts);
    if s in index {
      forall k | index[s] < k < |ts| ensures ts[k].source != s {
        assert k <= index[ts[k].source];
      }
    }
  }

  /** In a list whose sources are distinct, a texture's source looks up its
      own slot. */
  lemma LookupDistinct(ts: seq<Texture>, j: nat)
    requires j < |ts|
    requires forall a, b :: 0 <= a < b < |ts| ==> ts[a].source != ts[b].source
    ensures Lookup(IndexBySource(ts), ts[j].source) == Some(j)
  {
    var index := IndexBySource(ts);
    assert ts[index[ts[j].source]].source == ts[j].source;
  }

  /** Two lists with the same source in every slot have the same index. */
  lemma SameSourcesSameIndex(a: seq<Texture>, b: seq<Texture>)
    requires |a| == |b| && forall j :: 0 <= j < |a| ==> a[j].source == b[j].source
    ensures IndexBySource(a) == IndexBySource(b)
  {
    var ib := IndexBySource(b);
    assert LastIndex(a, ib) by {
      forall s | s in ib ensures ib[s] < |a| && a[ib[s]].source == s {
        assert b[ib[s]].source == s;
      }
      forall j | 0 <= j < |a| ensures a[j].source in ib && j <= ib[a[j].source] {
        assert a[j].source == b[j].source;
      }
    }
    LastIndexUnique(a, IndexBySource(a), ib);
  }

  /** The sources of the records of a snapshot. */
  function SourcesOf(snapshot: seq<Texture>): set<Option<nat>> {
    if |snapshot| == 0 then {}
    else SourcesOf(snapshot[..|snapshot| - 1]) + {snapshot[|snapshot| - 1].source}
  }

  /** A source is among the snapshot's sources exactly when some record has it. */
  lemma {:induction false} SourcesOfHas(snapshot: seq<Texture>, s: Option<nat>)
    ensures s in SourcesOf(snapshot) <==> exists k :: 0 <= k < |snapshot| && snapshot[k].source == s
  {
    if |snapshot| > 0 {
      var init := snapshot[..|snapshot| - 1];
      SourcesOfHas(init, s);
      if k :| 0 <= k < |init| && init[k].source == s {
        assert snapshot[k] == init[k];
      }
      if k :| 0 <= k < |snapshot| && snapshot[k].source == s {
        if k < |init| {
          assert init[k] == snapshot[k];
        }
      }
    }
  }

  /** The last record of the snapshot with source `s`. */
  function LastWith(snapshot: seq<Texture>, s: Option<nat>): (t: Texture)
    requires s in SourcesOf(snapshot)
    ensures t.source == s
  {
    if snapshot[|snapshot| - 1].source == s then snapshot[|snapshot| - 1]
    else LastWith(snapshot[..|snapshot| - 1], s)
  }

  /** The second loop of `_reapplyTextures` over the snapshot: a record whose
      source is indexed overwrites that slot, any other is pushed and
      indexed. The texture list and the index afterwards. */
  function Reconcile(ts: seq<Texture>, index: Index, snapshot: seq<Texture>): (r: (seq<Texture>, Index))
    requires Indexes(ts, index)
    ensures Indexes(r.0, r.1)
    ensures |ts| <= |r.0|
    ensures forall j :: 0 <= j < |ts| ==> r.0[j].source == ts[j].source
    ensures r.1.Keys == index.Keys + SourcesOf(snapshot)
    ensures forall s :: s in index ==> r.1[s] == index[s]
    ensures forall s :: s in r.1 && s !in index ==> |ts| <= r.1[s]
    ensures SourcesOf(snapshot) <= index.Keys ==> |r.0| == |ts|
  {
    if |snapshot| == 0 then (ts, index)
    else
      var pre, last := snapshot[..|snapshot| - 1], snapshot[|snapshot| - 1];
      var before := Reconcile(ts, index, pre);
      assert SourcesOf(snapshot) == SourcesOf(pre) + {last.source};
      Merge(before.0, before.1, last)
  }

  /** One iteration of that loop, for the record `rec`. */
  function Merge(t: seq<Texture>, i: Index, rec: Texture): (r: (seq<Texture>, Index))
    requires Indexes(t, i)
    ensures Indexes(r.0, r.1)
    ensures |t| <= |r.0| && (rec.source in i ==> |r.0| == |t|)
    ensures forall j :: 0 <= j < |t| ==> r.0[j].source == t[j].source
    ensures r.1.Keys == i.Keys + {rec.source}
    ensures forall s :: s in i ==> r.1[s] == i[s]
    ensures rec.source !in i ==> r.1[rec.source] == |t|
  {
    if rec.source in i then (t[i[rec.source] := rec], i)
    else (t + [rec], i[rec.source := |t|])
  }

  lemma ReconcileStep(ts: seq<Texture>, index: Index, snapshot: seq<Texture>, k: nat)
    requires Indexes(ts, index) && k < |snapshot|
    ensures var before := Reconcile(ts, index, snapshot[..k]);
      Reconcile(ts, index, snapshot[..k + 1]) == Merge(before.0, before.1, snapshot[k])
  {
    assert snapshot[..k + 1][..k] == snapshot[..k];
  }

  /** What `_reapplyTextures` leaves in `json.textures`: the old slots keep
      their sources and change only for a source the snapshot has; the last
      snapshot record of each source is in the list; and nothing is appended
      when every snapshot source was already there. */
  function Reapplied(ts: seq<Texture>, snapshot: seq<Texture>): (r: seq<Texture>)
    ensures |ts| <= |r|
    ensures forall j :: 0 <= j < |ts| ==> r[j].source == ts[j].source
    ensures forall j :: 0 <= j < |ts| && r[j] != ts[j] ==> ts[j].source in SourcesOf(snapshot)
    ensures forall s :: s in SourcesOf(snapshot) ==> exists j :: 0 <= j < |r| && r[j] == LastWith(snapshot, s)
    ensures SourcesOf(snapshot) <= IndexBySource(ts).Keys ==> |r| == |ts|
  {
    var index := IndexBySource(ts);
    ReconcileTouches(ts, index, snapshot);
    ReconcilePlaces(ts, index, snapshot);
    var m := Reconcile(ts, index, snapshot);
    assert forall s :: s in SourcesOf(snapshot) ==> m.0[m.1[s]] == LastWith(snapshot, s);
    m.0
  }

  /** A slot of the old list that `t` changes is the one its source
      indexes, and that source is in the snapshot. */
  predicate TouchesIndexed(ts: seq<Texture>, index: Index, snapshot: seq<Texture>, t: seq<Texture>) {
    forall j :: 0 <= j < |ts| && j < |t| && t[j] != ts[j] ==>
      && ts[j].source in SourcesOf(snapshot)
      && ts[j].source in index && index[ts[j].source] == j
  }

  /** The slots of `t` past the old list hold one record each of a source
      the old index did not have, and the new index `i` points back at them. */
  predicate AppendsNew(ts: seq<Texture>, index: Index, snapshot: seq<Texture>, t: seq<Texture>, i: Index) {
    forall j :: |ts| <= j < |t| ==>
      && t[j].source in SourcesOf(snapshot) && t[j].source !in index
      && t[j].source in i && i[t[j].source] == j
  }

  /** Each snapshot source indexes a slot of `t` that holds the last record
      with that source. */
  predicate PlacesLast(snapshot: seq<Texture>, t: seq<Texture>, i: Index) {
    forall s :: s in SourcesOf(snapshot) ==> s in i && i[s] < |t| && t[i[s]] == LastWith(snapshot, s)
  }

  lemma {:induction false} ReconcileTouches(ts: seq<Texture>, index: Index, snapshot: seq<Texture>)
    requires Indexes(ts, index)
    ensures TouchesIndexed(ts, index, snapshot, Reconcile(ts, index, snapshot).0)
  {
    if |snapshot| > 0 {
      var init := snapshot[..|snapshot| - 1];
      ReconcileTouches(ts, index, init);
      var before := Reconcile(ts, index, init);
      var r := Reconcile(ts, index, snapshot);
      assert TouchesIndexed(ts, index, init, before.0);
      forall j | 0 <= j < |ts| && r.0[j] != ts[j]
        ensures ts[j].source in SourcesOf(snapshot) && ts[j].source in index && index[ts[j].source] == j
      {
        if r.0[j] == before.0[j] {
          assert ts[j].source in SourcesOf(init);
        }
      }
    }
  }

  lemma {:induction false} ReconcileAppends(ts: seq<Texture>, index: Index, snapshot: seq<Texture>)
    requires Indexes(ts, index)
    ensures AppendsNew(ts, index, snapshot, Reconcile(ts, index, snapshot).0, Reconcile(ts, index, snapshot).1)
  {
    if |snapshot| > 0 {
      var init := snapshot[..|snapshot| - 1];
      ReconcileAppends(ts, index, init);
      var before := Reconcile(ts, index, init);
      var rec := snapshot[|snapshot| - 1];
      var r := Reconcile(ts, index, snapshot);
      assert AppendsNew(ts, index, init, before.0, before.1);
      forall j | |ts| <= j < |r.0|
        ensures r.0[j].source in SourcesOf(snapshot) && r.0[j].source !in index
        ensures r.0[j].source in r.1 && r.1[r.0[j].source] == j
      {
        if j < |before.0| {
          assert r.0[j].source == before.0[j].source;
        } else {
          assert r.0[j] == rec && rec.source !in before.1;
        }
      }
    }
  }

  /** Every record ends up in the slot its source indexes afterwards, and the
      one there is the last record with that source. */
  lemma {:induction false} ReconcilePlaces(ts: seq<Texture>, index: Index, snapshot: seq<Texture>)
    requires Indexes(ts, index)
    ensures PlacesLast(snapshot, Reconcile(ts, index, snapshot).0, Reconcile(ts, index, snapshot).1)
  {
    if |snapshot| > 0 {
      var init := snapshot[..|snapshot| - 1];
      ReconcilePlaces(ts, index, init);
      var before := Reconcile(ts, index, init);
      var rec := snapshot[|snapshot| - 1];
      var r := Reconcile(ts, index, snapshot);
      assert PlacesLast(init, before.0, before.1);
      forall s | s in SourcesOf(snapshot) ensures s in r.1 && r.1[s] < |r.0| && r.0[r.1[s]] == LastWith(snapshot, s) {
        if s != rec.source {
          assert s in SourcesOf(init);
          assert r.1[s] == before.1[s];
          assert r.1[rec.source] != r.1[s] by {
            assert r.0[r.1[s]].source == s;
          }
        }
      }
    }
  }

  /** Starting from an index of the last slot of every source, the merge
      keeps that property. */
  lemma {:induction false} ReconcileLastIndex(ts: seq<Texture>, index: Index, snapshot: seq<Texture>)
    requires LastIndex(ts, index)
    ensures LastIndex(Reconcile(ts, index, snapshot).0, Reconcile(ts, index, snapshot).1)
  {
    if |snapshot| > 0 {
      var init := snapshot[..|snapshot| - 1];
      ReconcileLastIndex(ts, index, init);
      var before := Reconcile(ts, index, init);
      var r := Reconcile(ts, index, snapshot);
      assert LastIndex(before.0, before.1);
      forall j | 0 <= j < |r.0| ensures r.0[j].source in r.1 && j <= r.1[r.0[j].source] {
        if j < |before.0| {
          assert r.0[j].source == before.0[j].source;
        }
      }
    }
  }

  /** A merge into a list that already holds, at the slot of each snapshot
      source, the last record with that source changes nothing. */
  lemma ReconcileFixed(ts: seq<Texture>, index: Index, snapshot: seq<Texture>)
    requires Indexes(ts, index) && SourcesOf(snapshot) <= index.Keys
    requires forall s :: s in SourcesOf(snapshot) ==> ts[index[s]] == LastWith(snapshot, s)
    ensures Reconcile(ts, index, snapshot) == (ts, index)
  {
    var r := Reconcile(ts, index, snapshot);
    ReconcileTouches(ts, index, snapshot);
    ReconcilePlaces(ts, index, snapshot);
    assert TouchesIndexed(ts, index, snapshot, r.0);
    assert PlacesLast(snapshot, r.0, r.1);
    assert r.1 == index;
    forall j | 0 <= j < |ts| ensures r.0[j] == ts[j] {
      var s := ts[j].source;
      if s in SourcesOf(snapshot) && s in index && index[s] == j {
        assert r.0[j] == LastWith(snapshot, s);
      }
    }
    assert r.0 == ts;
  }

  /** Merging the same snapshot twice is merging it once: the second merge
      finds every record already in its slot. */
  lemma ReappliedTwice(ts: seq<Texture>, snapshot: seq<Texture>)
    ensures Reapplied(Reapplied(ts, snapshot), snapshot) == Reapplied(ts, snapshot)
  {
    var r := Reconcile(ts, IndexBySource(ts), snapshot);
    ReconcileLastIndex(ts, IndexBySource(ts), snapshot);
    LastIndexUnique(r.0, IndexBySource(r.0), r.1);
    ReconcilePlaces(ts, IndexBySource(ts), snapshot);
    ReconcileFixed(r.0, r.1, snapshot);
  }

  /** Merging a snapshot of the list itself, when no two of its textures
      share a source, strips each texture to its record and moves nothing. */
  lemma ReappliedOwnSnapshot(ts: seq<Texture>)
    requires forall i, j :: 0 <= i < j < |ts| ==> ts[i].source != ts[j].source
    ensures Reapplied(ts, Records(ts)) == Records(ts)
  {
    var index := IndexBySource(ts);
    var snapshot := Records(ts);
    OwnSources(ts);
    ReconcilePlaces(ts, index, snapshot);
    var r := Reconcile(ts, index, snapshot);
    forall j | 0 <= j < |ts| ensures r.0[j] == snapshot[j] {
      OwnSlot(ts, j);
    }
  }

  lemma OwnSources(ts: seq<Texture>)
    ensures SourcesOf(Records(ts)) <= IndexBySource(ts).Keys
  {
    var snapshot := Records(ts);
    forall s | s in SourcesOf(snapshot) ensures s in IndexBySource(ts) {
      SourcesOfHas(snapshot, s);
      var k :| 0 <= k < |snapshot| && snapshot[k].source == s;
      assert ts[k].source == s;
    }
  }

  /** With distinct sources, slot `j` is the one its source indexes and the
      last record of the snapshot with that source is its own. */
  lemma OwnSlot(ts: seq<Texture>, j: nat)
    requires j < |ts|
    requires forall i, j :: 0 <= i < j < |ts| ==> ts[i].source != ts[j].source
    ensures ts[j].source in IndexBySource(ts) && IndexBySource(ts)[ts[j].source] == j
    ensures ts[j].source in SourcesOf(Records(ts)) && LastWith(Records(ts), ts[j].source) == Records(ts)[j]
  {
    var s := ts[j].source;
    var index := IndexBySource(ts);
    assert ts[index[s]].source == s;
    LastWithDistinct(Records(ts), j);
  }

  /** With distinct sources, the last record with a record's source is that
      record. */
  lemma {:induction false} LastWithDistinct(snapshot: seq<Texture>, j: nat)
    requires j < |snapshot|
    requires forall a, b :: 0 <= a < b < |snapshot| ==> snapshot[a].source != snapshot[b].source
    ensures snapshot[j].source in SourcesOf(snapshot) && LastWith(snapshot, snapshot[j].source) == snapshot[j]
  {
    var s := snapshot[j].source;
    SourcesOfHas(snapshot, s);
    if j < |snapshot| - 1 {
      var init := snapshot[..|snapshot| - 1];
      LastWithDistinct(init, j);
      assert init[j] == snapshot[j];
    }
  }

  /** The texture pool of one extension instance (`_vrmTextures`); `None` is
      `null` or `undefined`. The static field of the same name lives on the
      class, not on its instances, and is never read through `this`: every
      extension instance keeps a snapshot of its own. An empty snapshot is
      truthy in JavaScript, so `Some([])` is a held snapshot. */
  class TexturePool {
    var saved: Option<seq<Texture>>

    constructor ()
      ensures saved.None?
    {
      saved := None;
    }

    /** `_saveTextures` (src/index.js:328-335): keeps the records of
        `json.textures` (or of none when it is missing), unless a snapshot is
        already held. */
    method SaveTextures(json: Json)
      modifies this`saved
      ensures old(saved).Some? ==> saved == old(saved)
      ensures old(saved).None? ==> saved == Some(Records(json.textures.GetOr([])))
    {
      if saved.Some? {
        return;
      }
      saved := Some(Records(json.textures.GetOr([])));
    }

    /** `_reapplyTextures` (src/index.js:337-351): merges the snapshot back
        into `json.textures` and lets it go. Without a snapshot it does
        nothing; with one, a missing `json.textures` throws. */
    method ReapplyTextures(json: Json) returns (o: Outcome)
      modifies this`saved, json`textures
      ensures old(saved).None? ==> o == Done && saved.None? && json.textures == old(json.textures)
      ensures old(saved).Some? && old(json.textures).None? ==>
                o == Failed(TypeError) && saved == old(saved) && json.textures.None?
      ensures old(saved).Some? && old(json.textures).Some? ==>
                && o == Done && saved.None?
                && json.textures == Some(Reapplied(old(json.textures).value, old(saved).value))
    {
      if saved.None? {
        return Done;
      }
      if json.textures.None? {
        return Failed(TypeError);
      }
      var ts := json.textures.value;
      var sourceToIdx := BuildIndex(ts);
      var snapshot := saved.value;
      var k := 0;
      while k < |snapshot|
        invariant 0 <= k <= |snapshot|
        invariant json.textures.Some?
        invariant (json.textures.value, sourceToIdx) == Reconcile(ts, IndexBySource(ts), snapshot[..k])
      {
        ReconcileStep(ts, IndexBySource(ts), snapshot, k);
        var tex := snapshot[k];
        if tex.source in sourceToIdx {
          json.textures := Some(json.textures.value[sourceToIdx[tex.source] := tex]);
        } else {
          sourceToIdx := sourceToIdx[tex.source := |json.textures.value|];
          json.textures := Some(json.textures.value + [tex]);
        }
        k := k + 1;
      }
      assert snapshot[..k] == snapshot;
      saved := None;
      return Done;
    }
  }

  /** The first loop of `_reapplyTextures` (and of the rewrites that follow
      it): the index of the last slot of every source. */
  method BuildIndex(ts: seq<Texture>) returns (index: Index)
    ensures index == IndexBySource(ts)
  {
    index := map[];
    var i := 0;
    while i < |ts|
      invariant 0 <= i <= |ts|
      invariant index == IndexBySource(ts[..i])
    {
      assert ts[..i + 1][..i] == ts[..i];
      index := index[ts[i].source := i];
      i := i + 1;
    }
    assert ts[..i] == ts;
  }
}
