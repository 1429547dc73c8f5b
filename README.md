# vrh-deobfuscator, modelled in Dafny

The VRoid Hub deobfuscator takes a VRM model that VRoid Hub has obfuscated
and gives back the positions the vertices had before. The obfuscation is
keyed by a seed. `computeSeedMap` derives one seed per known scheme
timestamp. The base seeds come from a fixed table. The offset added to them
is either the model id read as a decimal number, or, for a signed download
URL, a 32-bit word of the SHA-1 digest of part of the URL's path.

From the seed, a `Deobfuscator` builds two things with an xorshift128
generator (`RandomGenerator`), or with the compiled generators for scheme
"5.0":
- a 256 x 256 RGBA meta texture;
- one lookup buffer per primitive.

`processDocument` first attaches a lookup buffer to every primitive. It then
moves every vertex of every `POSITION` buffer back. The factor for each
vertex comes from the texel that the lookup buffer names. Three sets of
already-written components make sure that a buffer shared by several
primitives is corrected once.

Around that core sit the glTF-Transform extensions that carry the vendor JSON
through a read and a write:
- the preservation base class (`PreservationExtension`);
- the texture pool that snapshots `json.textures` and merges it back
  (`TexturePoolExtension`);
- VRM 0.x `textureProperties`, rewritten through image sources;
- VRM 1.0;
- the MToon material blocks, whose texture indices are rewritten the same way;
- the two `PIXIV_*` extensions.

The model has one Dafny module per part:
- `Common` holds the errors, `Option`, `Result`, JavaScript numbers and a generic
  throwing traversal.
- `Numbers` rounds integers to doubles.
- `Text` has `includes`, `split`/`join` and `parseInt`.
- `Prng` is the generator.
- `Seeds` is the seed map.
- `Deobfuscation` covers the texture, the lookups and the displacement pass.
- `Gltf` holds the JSON entities.
- `Preservation`, `Vrm`, `MToon` and `Pixiv` are the extensions.

State that the source changes in place is modelled as classes with
`modifies` clauses:
- the generator;
- the `Set`s of seen components;
- the position buffers, which are arrays;
- the JSON document;
- the extension instances.

Every such method is proved against a function or a ghost specification.
In two places the code does less than it appears to; the model follows the code:
- `case "4.0", "5.0":` in `processVertexDisplacement` is a comma expression,
  so only version "5.0" is accepted. Every other version, "4.0" included, throws
  `Unknown version` before any vertex changes, and no legacy subtraction branch
  exists.
- The first loop of `processDocument` throws on a primitive without
  `POSITION`, so the `continue` of the second loop never runs.

## Model

| member | source | states |
|---|---|---|
| Common.Each | src/index.js:365-373 | a traversal that may throw succeeds exactly when every step does, holds each step's value in order, and otherwise throws the error of some failing step |
| Common.EachStep | src/index.js:365-373 | the traversal of a prefix one element longer is the shorter traversal extended by that element's step, or that step's error |
| Numbers.RoundMagnitude | src/index.js:101 | the result is a multiple of the double spacing at that magnitude, within half a spacing of the input, ties going to the even multiple |
| Numbers.RoundToDouble | src/index.js:101 | integers up to 2^53 in magnitude are held by a double exactly |
| Numbers.ExactBelow | src/index.js:101 | rounding leaves every magnitude up to 2^53 unchanged |
| Numbers.ToDouble | src/index.js:101 | the number nearest an integer is never NaN: it is the rounded integer while that stays below 2^1024 in magnitude, otherwise the infinity of the integer's sign; integers up to 2^53 are kept exactly and below 2^54 the result is finite |
| Numbers.NearDouble | src/index.js:101 | below 2^54 in magnitude the rounded value stays within 2^54 |
| Numbers.Add | src/index.js:101 | JavaScript addition is NaN exactly when an operand is NaN or the operands are infinities of opposite signs; otherwise an infinite operand is the result; two finite operands give their exact sum rounded to a double, exact within 2^53 |
| Numbers.AddBelow | src/index.js:101 | a sum of two integers below 2^54 in magnitude is the finite rounded sum |
| Numbers.Word | src/index.js:111-127 | the 32-bit word the bitwise operators read from NaN or an infinity is 0 |
| Numbers.WordModulo | src/index.js:111-127 | numbers that agree modulo 2^32 give the same 32-bit word |
| Text.Includes | src/index.js:74-77 | a pattern that starts the text is included, and an included pattern is no longer than the text |
| Text.IncludesMeansOccurs | src/index.js:74-77 | `includes` holds exactly when the pattern occurs at some position |
| Text.IndexOf | src/index.js:80 | the index found holds the first occurrence of the separator; no index means the separator is absent |
| Text.Split | src/index.js:80 | `split` yields at least one piece and no piece contains the separator |
| Text.JoinSplit | src/index.js:80 | joining the pieces of a split on the same separator gives the string back |
| Text.Join | src/index.js:80 | one piece joins to itself; with Text.JoinSplit and Text.SplitJoin, `join` and `split` on one separator are inverse |
| Text.IndexOfAfter | src/index.js:80 | the first separator of `a`, the separator, `b` is the one after `a` when `a` has none |
| Text.SplitJoin | src/index.js:80 | splitting the join of pieces without the separator gives the pieces back |
| Text.Drop | src/index.js:80 | `slice(k)` has the pieces from the k-th on, none when there are fewer, and the first k pieces followed by it are the whole list |
| Text.AfterSeparatorsSuffix | src/index.js:80 | the text after the k-th separator is a suffix of the text |
| Text.SliceJoin | src/index.js:80 | `split(c).slice(k).join(c)` is the text after the k-th separator, or "" if there are fewer |
| Text.SliceJoinPast | src/index.js:80 | past the first separator, `split(c).slice(k).join(c)` is `split(c).slice(k - 1).join(c)` of the rest |
| Text.TrimEnd | src/index.js:821 | removing trailing separators leaves a prefix that does not end in the separator, and only separators were removed |
| Text.TrimStart | src/index.js:101 | `parseInt` skips exactly the leading white space: every character removed is white space and what remains is a suffix that does not start with white space |
| Text.LeadingDigits | src/index.js:101 | the longest prefix made only of decimal digits |
| Text.ParsedInteger | src/index.js:101 | `parseInt` reads nothing exactly when no digit follows the optional sign |
| Text.ParseInt | src/index.js:101 | `parseInt` gives NaN exactly when no digits are read; otherwise the integer read rounded to a double, that integer itself up to 2^53, or the infinity of its sign when it is too large |
| Text.ParseIntOfDecimal | src/index.js:101 | `parseInt` of the decimal notation of any integer up to 2^53, followed by a non-digit, reads that integer |
| Prng.Seeded | src/index.js:107-112 | a seed's state holds the three fixed words in x, y and z and the seed's 32-bit word in w |
| Prng.Step | src/index.js:122-129 | a step moves y, z and w down into x, y and z |
| Prng.Magnitude | src/index.js:115 | `Math.abs` of the signed value of a word is at most 2^31 |
| Prng.Fraction | src/index.js:114-116 | `next()` lies in [0, 1] |
| Prng.InRange | src/index.js:118-120 | `nextInRange(range)` lies below `range` |
| Prng.FloorOfScaled | src/index.js:118-120 | the floor of `range * next()` computed on the exact quotient equals the integer formula |
| Prng.InRange256 | src/index.js:118-120 | with 256 buckets a draw is the magnitude divided by 2^23, and the one word of magnitude 2^31 wraps to 0 |
| Prng.Draw | src/index.js:118-120 | every byte drawn lies in [0, 255] |
| Prng.RandomGenerator.constructor | src/index.js:107-112 | a new generator holds the three fixed words and the seed's 32-bit word |
| Prng.RandomGenerator.NextWord | src/index.js:122-129 | `_next` advances the state by one xorshift128 step and returns the new `w` |
| Prng.RandomGenerator.Next | src/index.js:114-116 | `next` advances one step and returns a fraction in [0, 1] of the new word |
| Prng.RandomGenerator.NextInRange | src/index.js:118-120 | `nextInRange` advances one step and returns a value below the range |
| Prng.RandomGenerator.ReplaceX | src/index.js:131-133 | `replaceX` changes the `x` word and nothing else |
| Seeds.Int32LE | src/index.js:86-89 | the four digest bytes read as a signed little-endian word lie in the 32-bit range |
| Seeds.Int32LEOfEncode | src/index.js:86-89 | encoding a 32-bit integer as four little-endian bytes and reading it back gives the integer |
| Seeds.EncodeOfInt32LE | src/index.js:86-89 | reading four bytes and encoding the result gives the bytes back |
| Seeds.StartingStateBounds | src/index.js:20-30 | every base seed of the table lies in [0, 2^15) |
| Seeds.ApiVersionOffset | src/index.js:75-79 | the number of skipped segments is 6 exactly when the URL contains `/v1/` or `/v2/`, and 5 otherwise |
| Seeds.HashedPath | src/index.js:75-80 | the hashed path is the URL text after its fifth slash, or its sixth for `/v1/` and `/v2/` URLs, and is a suffix of the URL |
| Seeds.HashOffset | src/index.js:82-89 | the digest offset is a signed 32-bit integer |
| Seeds.SignedUrl | src/index.js:74 | a URL selects the hash exactly when it is present and `s=op` occurs in it |
| Seeds.Offset | src/index.js:74-103 | a signed URL gives a finite signed 32-bit offset; otherwise the offset is `parseInt` of the id |
| Seeds.ComputeSeedMap | src/index.js:72-104 | the seed map has exactly the keys of the table, each its base seed plus the offset under JavaScript addition |
| Seeds.SignedSeeds | src/index.js:74-95 | with an `s=op` URL each seed is its base plus the digest word exactly, whatever the id |
| Seeds.IdOffset | src/index.js:98-103 | without a signed URL the offset of a decimal id is that id |
| Seeds.IdSeeds | src/index.js:98-103 | a decimal id gives each seed as its base plus the id rounded to a double; the sum is exact for ids up to 2^53 - 2^15 |
| Seeds.NaNSeeds | src/index.js:98-103 | an id with no leading digits makes every seed NaN |
| Seeds.InfiniteSeeds | src/index.js:98-103 | an id of more digits than a double holds makes every seed that infinity |
| Seeds.SeedFor | src/index.js:706-710 | the seed lookup succeeds exactly when the timestamp has an entry, and otherwise throws naming the timestamp |
| Seeds.SeedFound | src/index.js:706-710 | a computed seed map finds a seed exactly for the timestamps of the table |
| Seeds.ParseVRoidHubURL | src/index.js:820-821 | the id extracted from a URL contains no slash |
| Seeds.ParseVRoidHubURLIsLastSegment | src/index.js:820-821 | the id is the last path segment of the URL once trailing slashes are removed |
| Deobfuscation.Start | src/index.js:152-155 | a fresh generator's y, z and w are those of the seed, and its x is 0x2567de00 for timestamp 1599883309 and the fixed word otherwise |
| Deobfuscation.NewGenerator | src/index.js:152-155 | the generator starts from the seed's state, with `x` replaced for timestamp 1599883309 only |
| Deobfuscation.TexelChannel | src/index.js:156-162 | channel c of texel t is draw 3t + c for the colours and 255 for the alpha |
| Deobfuscation.Texture | src/index.js:156-164 | the first n texels drawn take 4n bytes; Deobfuscation.TextureByte gives each byte |
| Deobfuscation.MetaTexture | src/index.js:145-165 | for "5.0" the meta texture is the compiled generator's texture of the seed; otherwise it has 2^18 bytes |
| Deobfuscation.TextureByte | src/index.js:156-164 | byte 4t + c of the drawn texture is draw 3t + c for a colour channel and 255 for the alpha |
| Deobfuscation.MetaTextureOpaque | src/index.js:145-165 | without the compiled generator the meta texture has 2^18 bytes and every texel is opaque |
| Deobfuscation.DrawByte | src/index.js:158-160 | one `nextInRange(256)` is the next draw of the generator's stream and advances it by one |
| Deobfuscation.DrawRgb | src/index.js:158-160 | the three draws of texel i are draws 3i, 3i + 1 and 3i + 2 of the stream |
| Deobfuscation.StoreTexel | src/index.js:157-162 | the stores of texel i append its three colours and an opaque alpha to what is already written |
| Deobfuscation.DrawTexel | src/index.js:157-162 | one loop pass extends the texture written so far by one texel and advances the generator three draws |
| Deobfuscation.DrawTexture | src/index.js:156-164 | the loop fills the whole texture with the generator's texels in order |
| Deobfuscation.GenerateMetaTexture | src/index.js:145-165 | `_generateMetaTexture` returns a fresh buffer holding the meta texture of the seed, version and timestamp |
| Deobfuscation.Channel | src/index.js:167-173 | a typed-array read has a value exactly inside the buffer |
| Deobfuscation.MetaPosition | src/index.js:167-173 | a channel is read only when both coordinates are numbers, and in a full texture every coordinate pair in [0, 256) reads all three channels |
| Deobfuscation.MetaPositionOfDrawn | src/index.js:167-173 | inside the texture `_getMetaPosition(u, v)` reads the three draws stored for texel 256v + u |
| Deobfuscation.Coord | src/index.js:191-192 | a lookup coordinate exists exactly inside the lookup buffer |
| Deobfuscation.LookupEntry | src/index.js:229 | a lookup entry lies strictly between 0 and 1, and `Math.floor(entry * 256)` gives back its draw |
| Deobfuscation.Lookup | src/index.js:226-230 | the drawn lookup buffer has the requested length |
| Deobfuscation.LookupAt | src/index.js:226-230 | entry k of a drawn lookup buffer is the middle of bucket draw k |
| Deobfuscation.LookupCoord | src/index.js:191-192 | reading a drawn lookup entry back as a coordinate gives the draw, which lies in [0, 255] |
| Deobfuscation.LookupCoords | src/index.js:191-192 | every coordinate read from a drawn lookup buffer is the draw at its position |
| Deobfuscation.LookupPrefix | src/index.js:226-230 | a shorter lookup buffer from the same seed is a prefix of a longer one |
| Deobfuscation.DrawEntry | src/index.js:226-230 | one loop pass extends the lookup buffer by its next entry and advances the generator one draw |
| Deobfuscation.DrawLookup | src/index.js:226-230 | the loop fills a fresh buffer with the first n lookup entries of the generator |
| Deobfuscation.CorrectVertex | src/index.js:190-210 | a correction keeps the buffer's length; Deobfuscation.CorrectVertexEffect states what it changes |
| Deobfuscation.Pass | src/index.js:190-210 | the pass keeps the buffer's length; Deobfuscation.PassFrame, PassSettles and PassKeepsSeen state what it changes |
| Deobfuscation.CorrectVertexEffect | src/index.js:190-210 | a correction changes only its own vertex and only adds to the sets; a vertex already in the sets is left alone, and any other adds exactly its new components |
| Deobfuscation.PassFrame | src/index.js:190-210 | the pass over the first n vertices changes nothing from vertex n on and only adds to the sets |
| Deobfuscation.PassSettles | src/index.js:190-210 | after the pass every vertex it covered has all components in the sets |
| Deobfuscation.PassOfSettled | src/index.js:190-210 | a pass over vertices already in the sets changes nothing |
| Deobfuscation.PassIdempotent | src/index.js:190-210 | a second pass with any lookup buffer and texture changes nothing, so each vertex is corrected at most once |
| Deobfuscation.PassKeepsSeen | src/index.js:190-210 | a vertex whose components are in the sets before the pass keeps its values |
| Deobfuscation.Processed.constructor | src/index.js:249 | the three sets start empty |
| Deobfuscation.Processed.Add | src/index.js:207-209 | the three `add`s put each component in its own set |
| Deobfuscation.Deobfuscator.constructor | src/index.js:137-143 | the new deobfuscator keeps its seed, version and timestamp, and holds the meta texture they determine |
| Deobfuscation.Construct | src/index.js:137-149 | constructing throws a `RangeError` exactly when version "5.0" needs `BigInt` of a seed that is NaN or infinite |
| Deobfuscation.Deobfuscator.MetaData | src/index.js:219-231 | the lookup buffer of n vertices is, for "5.0", what the compiled generator returns for 2n entries; otherwise it has 2n entries whose k-th coordinate is draw k of a fresh generator |
| Deobfuscation.Deobfuscator.ProcessPrimitive | src/index.js:215-238 | a primitive without positions throws; otherwise it gets a fresh lookup buffer of two entries per vertex |
| Deobfuscation.Deobfuscator.ProcessVertexDisplacement | src/index.js:175-213 | any version but "5.0" throws with buffer and sets unchanged; "5.0" leaves buffer and sets as the specified pass does |
| Deobfuscation.Deobfuscator.AttachMesh | src/index.js:244-246 | the loop over one mesh throws exactly when some primitive lacks positions, and otherwise yields each primitive's lookup buffer in order |
| Deobfuscation.Deobfuscator.MetasAppend | src/index.js:243-247 | lookup buffers for two runs of primitives, concatenated, are those for the concatenated run |
| Deobfuscation.Deobfuscator.AttachLookups | src/index.js:243-247 | the first loop throws exactly when some primitive of the document lacks positions, and otherwise yields every lookup buffer in visiting order |
| Deobfuscation.Deobfuscator.Displaced | src/index.js:240-271 | the buffers after `processDocument` are the same buffers with the same lengths; Deobfuscation.RunSettles and RunKeepFirst state what the shared-set run does to them |
| Deobfuscation.Deobfuscator.DisplaceJob | src/index.js:251-269 | one call of the second loop moves the buffers and sets from the run of the first n jobs to that of n + 1, or throws leaving them unchanged |
| Deobfuscation.Deobfuscator.DisplaceMesh | src/index.js:251-269 | the primitives of one mesh extend the run to the end of that mesh, or the first one throws having changed nothing |
| Deobfuscation.Deobfuscator.DisplaceAll | src/index.js:249-270 | the second loop throws exactly when there is a primitive and the version is not "5.0", changing nothing; otherwise every buffer ends as the shared-set run specifies |
| Deobfuscation.Deobfuscator.ProcessDocument | src/index.js:240-271 | `processDocument` throws a `TypeError` exactly when a primitive lacks positions and an unknown-version error exactly when the version is not "5.0" and there is a primitive; it leaves every position buffer unchanged when it throws, and otherwise leaves every buffer displaced |
| Deobfuscation.PrimitivesPrefix | src/index.js:243-244 | primitives of the first m meshes come first in visiting order |
| Deobfuscation.PrimitiveAt | src/index.js:243-244 | primitive k of mesh m sits, in visiting order, after all primitives of the earlier meshes |
| Deobfuscation.Run | src/index.js:249-270 | a run of passes over shared buffers keeps the same set of buffers and each buffer's length |
| Deobfuscation.RunStep | src/index.js:249-270 | one job more in the run is that job's pass over its buffer's current contents with the current sets |
| Deobfuscation.KeepFirst | src/index.js:249-270 | keeping the first job of each buffer keeps only jobs of the list |
| Deobfuscation.KeepFirstTargets | src/index.js:249-270 | keeping the first job of each buffer keeps every buffer exactly once |
| Deobfuscation.RunSettles | src/index.js:249-270 | after a run every vertex of every touched buffer is in the sets |
| Deobfuscation.RunKeepFirst | src/index.js:249-270 | a buffer shared by several primitives is corrected only by the first; the run equals the run of just the first job per buffer |
| Gltf.Record | src/index.js:330-334 | the snapshot record of a texture keeps its name, source and sampler and drops everything else |
| Gltf.Records | src/index.js:330-334 | the snapshot is the record of each texture, in order |
| Preservation.ReadData | src/index.js:299-305 | `read` throws on a document without `extensions`, and otherwise holds the extension's member exactly when it is present |
| Preservation.WithData | src/index.js:309-318 | `write` with data sets the extension's member (creating `extensions`) and keeps the other members; without data nothing changes |
| Preservation.ReadWritten | src/index.js:299-318 | writing what was read makes a later read find the same data, and the writer's other members survive |
| Preservation.IndexBySource | src/index.js:341 | `sourceToIdx` maps every source of the list to the last slot that has it |
| Preservation.LastIndexUnique | src/index.js:341 | only one index maps every source to its last slot |
| Preservation.LookupLast | src/index.js:341-344 | looking up a source finds its last slot, and finds nothing exactly when no slot has it |
| Preservation.LookupDistinct | src/index.js:341-344 | with distinct sources each texture's source looks up its own slot |
| Preservation.SameSourcesSameIndex | src/index.js:341 | lists with the same source in every slot have the same index |
| Preservation.SourcesOfHas | src/index.js:342-349 | a source belongs to the snapshot's sources exactly when some record has it |
| Preservation.LastWith | src/index.js:342-349 | the last record with a source has that source |
| Preservation.Reconcile | src/index.js:342-349 | the merge keeps old slots' sources and old index entries, indexes every snapshot source, and appends only when a snapshot source was not indexed |
| Preservation.Merge | src/index.js:343-348 | one record overwrites the slot of its indexed source, or is pushed and indexed at the end |
| Preservation.ReconcileTouches | src/index.js:342-349 | the merge changes an old slot only if it is its source's indexed slot and that source is in the snapshot |
| Preservation.ReconcileAppends | src/index.js:342-349 | every appended slot holds a snapshot source the old index lacked, and the new index points at it |
| Preservation.ReconcilePlaces | src/index.js:342-349 | after the merge each snapshot source's slot holds the last record with that source |
| Preservation.ReconcileLastIndex | src/index.js:341-349 | starting from the last-slot index, the merge keeps the index naming the last slot of every source |
| Preservation.ReconcileFixed | src/index.js:342-349 | merging into a list that already holds each source's last record changes nothing |
| Preservation.Reapplied | src/index.js:337-351 | the merged list keeps the old slots' sources and changes an old slot only for a source the snapshot has; it holds the last snapshot record of every source; it grows only when a snapshot source was missing |
| Preservation.ReappliedTwice | src/index.js:337-351 | reapplying the same snapshot twice equals reapplying it once |
| Preservation.ReappliedOwnSnapshot | src/index.js:328-351 | reapplying a list's own snapshot, when sources are distinct, gives the list's records in place |
| Preservation.OwnSlot | src/index.js:328-344 | with distinct sources a slot is its source's indexed slot, and its record is the last with that source |
| Preservation.LastWithDistinct | src/index.js:342-349 | with distinct sources the last record with a record's source is that record |
| Preservation.TexturePool.constructor | src/index.js:324-326 | a new pool holds no snapshot |
| Preservation.TexturePool.SaveTextures | src/index.js:328-335 | `_saveTextures` keeps the records of `json.textures` unless a snapshot is already held |
| Preservation.TexturePool.ReapplyTextures | src/index.js:337-351 | `_reapplyTextures` does nothing without a snapshot, throws on missing `json.textures`, and otherwise merges the snapshot back and drops it |
| Preservation.BuildIndex | src/index.js:341 | the `forEach` loop builds the last-slot index of the list |
| Vrm.SourceAt | src/index.js:371 | `json.textures[i].source` succeeds exactly when i names a texture, else throws a `TypeError` |
| Vrm.RecordSources | src/index.js:370-372 | `_textureSources` has the same properties as `textureProperties`, or the loop throws a `TypeError` |
| Vrm.RecordMaterial | src/index.js:366-373 | read keeps `textureProperties` and records sources for every material that has them |
| Vrm.Overlay | src/index.js:391-393 | each recorded property gets the slot of its source in the written list; the others keep their index |
| Vrm.RewriteMaterial | src/index.js:388-395 | write throws exactly when sources must go into a missing `textureProperties`; otherwise it rewrites the recorded properties and deletes `_textureSources` |
| Vrm.ReadSources | src/index.js:370-372 | the `for … in` loop of read computes the recorded sources of one material |
| Vrm.WriteSources | src/index.js:391-393 | the `for … in` loop of write computes the rewritten properties of one material |
| Vrm.ReadMaterials | src/index.js:366-373 | the `materialProperties` loop of read records every material or throws the first material's error |
| Vrm.WriteMaterial | src/index.js:388-395 | the body of the write loop rewrites one material as specified |
| Vrm.WriteMaterials | src/index.js:388-395 | the `materialProperties` loop of write rewrites every material or throws the first material's error |
| Vrm.RewrittenIndex | src/index.js:385-393 | after write every recorded property holds the last slot of the written list with its recorded source, or nothing when no slot has it |
| Vrm.RecordRewrite | src/index.js:366-395 | recording a material's sources and rewriting them through the same distinct list's index gives back every index |
| Vrm.V0RoundTrip | src/index.js:358-400 | read then write, with the texture list unchanged and distinct sources, returns every material's indices unchanged and removes `_textureSources` |
| Vrm.V0Extension.constructor | src/index.js:354-356 | a new VRM 0.x extension holds no data, no samplers and an empty pool |
| Vrm.V0Extension.Read | src/index.js:358-376 | read throws without `extensions` or the `VRM` member, records every material's sources, snapshots the textures and keeps the samplers |
| Vrm.V0Extension.Write | src/index.js:378-400 | write merges the pool back, puts back the samplers, rewrites every material through the written list's index and writes the data, throwing where the source does |
| Vrm.V1Extension.constructor | src/index.js:403-405 | a new VRM 1.0 extension holds no data, no samplers and an empty pool |
| Vrm.V1Extension.Read | src/index.js:407-416 | read throws without `extensions`, and otherwise keeps the `VRMC_vrm` member, snapshots the textures and keeps the samplers |
| Vrm.V1Extension.Write | src/index.js:418-427 | write puts back the `VRMC_vrm` data, merges the pool back and restores the samplers, throwing only on a held snapshot without `json.textures` |
| MToon.IsTextureKey | src/index.js:449 | a member name matches `/^.*Texture$/` exactly when it is some text without a line terminator followed by `Texture` |
| MToon.MarkValue | src/index.js:450 | recording a member's source succeeds exactly on an object whose `index` names a texture, and keeps the index |
| MToon.MarkBlock | src/index.js:448-451 | the preread block records the source of every texture member and leaves the other members alone, or throws |
| MToon.MarkMaterial | src/index.js:444-452 | a material keeps having an MToon block exactly when it had one |
| MToon.Blocks | src/index.js:452 | `materials_mtoon` holds the block of exactly the materials that have one, by material index |
| MToon.BlocksSnoc | src/index.js:443-453 | one more material adds its block, if it has one, at its index |
| MToon.UnmarkValue | src/index.js:474-476 | a texture member becomes the slot of its recorded source with `_source` removed; a primitive member throws |
| MToon.UnmarkBlock | src/index.js:473-477 | the prewrite block throws exactly when a texture member is not an object, and otherwise rewrites only the texture members |
| MToon.RestoreOne | src/index.js:466-477 | one material of the prewrite changes only its own material and kept block |
| MToon.RestoreAll | src/index.js:465-478 | the prewrite loop leaves materials whose index is not visited unchanged, and keeps the same block indices |
| MToon.RestoreAllStep | src/index.js:465-478 | the loop over one more index is one more material step after the shorter loop |
| MToon.RestoreAllPrefixErr | src/index.js:465-478 | a throw ends the prewrite loop |
| MToon.DistinctInverts | src/index.js:461-463 | with distinct sources the index gives every slot back |
| MToon.MarkUnmark | src/index.js:448-477 | a block marked against a list and rewritten through an index inverting that list comes back as read, with only `_source` gone |
| MToon.Stripped | src/index.js:476 | stripping `_source` keeps the block's members |
| MToon.RestoreDone | src/index.js:465-478 | with no repeated material index, every visited material gets its kept block rewritten and unvisited kept blocks are untouched |
| MToon.MarkedRestore | src/index.js:443-477 | the blocks kept by the preread are those of the materials with MToon, each rewriting to the block as read |
| MToon.RestoreMarked | src/index.js:465-478 | the prewrite puts each kept block, as read, on its written material |
| MToon.MToonRoundTrip | src/index.js:436-479 | preread then prewrite, with the texture list unchanged and distinct sources, gives every material its MToon block back with the indices it was read with |
| MToon.MarkKeys | src/index.js:448-451 | the `Object.keys` loop of the preread computes the marked block |
| MToon.UnmarkKeys | src/index.js:473-477 | the `Object.keys` loop of the prewrite computes the rewritten block |
| MToon.MarkMaterials | src/index.js:443-453 | the preread loop marks every material and keeps the marked blocks by index, or throws the first error |
| MToon.RestoreMaterials | src/index.js:465-478 | the prewrite loop computes the specified restore |
| MToon.MToonExtension.constructor | src/index.js:430-434 | a new MToon extension holds no blocks and an empty pool |
| MToon.MToonExtension.Preread | src/index.js:436-455 | the preread snapshots the textures, marks every material's block and keeps the blocks by material index, or throws |
| MToon.MToonExtension.Prewrite | src/index.js:456-479 | the prewrite merges the pool back and puts each kept block, rewritten through the written list's index, on its written material, throwing where the source does |
| Pixiv.FixBasis | src/index.js:580-584 | a texture with the basis extension takes its source; any other is untouched |
| Pixiv.FixedTextures | src/index.js:580-584 | the basis fix applies to each texture in order |
| Pixiv.FixedAgrees | src/index.js:577-589 | after the fix every basis texture's source matches its extension, and a list already matching is unchanged |
| Pixiv.FixIdempotent | src/index.js:577-589 | a second fix changes nothing |
| Pixiv.PreviewExtension.constructor | src/index.js:554-556 | a new preview extension holds no data |
| Pixiv.PreviewExtension.Read | src/index.js:558-565 | read throws without `extensions`, and otherwise holds the preview member exactly when present |
| Pixiv.PreviewExtension.Write | src/index.js:567-569 | write always throws: the preview mesh must be removed |
| Pixiv.BasisExtension.Preread | src/index.js:577-589 | the preread replaces the texture list by its basis-fixed version |
| Pixiv.BasisExtension.Write | src/index.js:592-594 | write always throws: the basis extension must be removed |

## Left out

- `decrypt` (src/index.js:32-70), which covers AES-CBC, the zstd frame and the key derivation, is not modelled. It is cryptography and decompression from libraries outside this code.
- Seeds.HashOffset: SHA-1 and the UTF-8 encoding of the path are the parameter `digestOf`. Only the choice of bytes and their little-endian reading are modelled.
- The compiled `generate_texture` and `generate_buffer` of version "5.0" are function values in `Generators`. They are WebAssembly with no source here.
- `adjustComponent`'s floating-point factor `2^(sample / 8)`, the division by 255 and the store into a `Float32Array` (src/index.js:172, 182-187) are one function value of type `Adjust`. Component equality stands for `SameValueZero`. The model proves what the pass does with the factors, not the floating-point value of any vertex.
- File and network I/O are not modelled:
  - reading the input file and fetching from VRoid Hub (597-650);
  - the cache and the debug dumps (274-289, 316-317, 812);
  - `mkdir` and the console logging.
- Texture normalization (src/index.js:714-808) is not modelled. It decodes KTX2/Basis/PNG/WebP with external codecs.
- The glTF-Transform document lifecycle is not modelled. This covers the extension registration, `listMeshes`/`listPrimitives` as live objects, and `materialIndexMap`. The model takes the primitives as a `Document` value and the map as the `materialIndices` parameter of MToon.MToonExtension.Prewrite.
- `node_constraint` repair and the emissive-multiplier fix (src/index.js:482-552) are not modelled. They fall outside the deobfuscation and texture-preservation core.
- Numbers.Add: signed zero is not modelled. It cannot show in a seed: every base seed is at least 0, so adding -0 gives the base, and ToInt32 and `BigInt` read -0 as 0.
- Deobfuscation.Construct takes `timestamp` and `version` as strings. In the JSON (src/index.js:696) they may be numbers. A numeric timestamp still finds its seed, because `seedMap[timestamp]` converts it to a string. It fails the strict comparison with "1599883309" (src/index.js:152, 222), though, so `replaceX` is skipped. The model's string comparison does not capture that case.
- Deobfuscation.Deobfuscator.MetaData models the output of `generate_buffer` as `seq<real>`, which cannot hold NaN. A NaN entry would make its coordinate NaN and its texel reads `undefined`, like a read past the end of the buffer. The model does not follow that case.
- Deobfuscation.Deobfuscator.ProcessDocument does not describe the partial state left after a throw inside a JSON rewrite or a displacement call. The whole conversion aborts there. The extension methods say only which error is thrown.
- Vrm.V0Extension.Read does not model that `data` aliases `json.extensions.VRM`. The writes on it are modelled as a value that the extension keeps.
- Seeds.SeedFor (`seedMap[timestamp]`, src/index.js:706) does not find inherited keys. The source's lookup on an `Object.fromEntries` object does, so a timestamp such as `"constructor"` finds a value there instead of throwing. Other JSON prototype keys, such as `__proto__` in `sourceToIdx`, are not modelled either.
- Deobfuscation.Deobfuscator.ProcessDocument models the META accessor that `processPrimitive` attaches to each primitive (src/index.js:233-237), and its `dispose()` at the end (268), as lookup buffers returned as values, not as document state. So the accessors the source leaves attached after a throw are not modelled: those of every primitive before an unknown-version throw (186), and those of the earlier primitives before a missing-positions throw (216).
- JSON values are modelled with their schema types (Gltf.Material, Gltf.VrmMaterial, Gltf.MToonValue). Two cases are not represented:
  - a `null` entry of `json.materials` or of `materialProperties`, on which the source throws a `TypeError` (src/index.js:367-368, 444-445);
  - a texture index of another JSON type, such as the string `"0"`, which `json.textures[…]` accepts like the number (src/index.js:371, 450).
- Prng.RandomGenerator.NextInRange is stated only for ranges below 2^22, where the double product is exact. The core only uses 256.
- Deobfuscation.Deobfuscator.ProcessVertexDisplacement requires `3 * vertexCount <= position.Length`, which `length / 3` always meets. A typed array read past its end yields `undefined`, which the model does not follow.
- JSON members that the core never reads are not modelled.
- The order of `Object.keys` and `for … in` is not modelled. The loops over keys pick an arbitrary key each step. Their results do not depend on the order.
- `PIXIVBasisExtension.read` is not modelled, because it does nothing.
- The command-line argument check (src/index.js:823-828) is not modelled.
- Generator determinism has no lemma of its own. It holds by construction, because every draw is a function of the starting state in Prng.Draw.
