/** `Deobfuscator` (src/index.js:136-271): builds a meta texture and one
    lookup buffer per primitive from the seed, and moves every vertex of every
    position buffer back once, by a factor read from the texture at the texel
    the lookup names. */
module Deobfuscation {
  import opened Common
  import Numbers
  import Prng

  /** `someConstantIdk`, the second argument of both external generators. */
  const GeneratorConstant: int := 2352940687395663367

  /** The timestamp whose generators start from a different `x`. */
  const ReplaceTimestamp: string := "1599883309"
  const ReplacedX: bv32 := 0x2567de00

  /** The meta texture: 256 x 256 texels of four bytes. */
  const Texels: nat := 0x1_0000
  const TextureSize: nat := 0x4_0000

  /** `generate_texture` and `generate_buffer`, the compiled generators of
      version "5.0", as functions of their arguments. */
  datatype Generators = Generators(texture: (int, int) -> seq<Byte>, buffer: (int, int, nat) -> seq<real>)

  /** The state of a fresh generator for `seed` and `timestamp`, `replaceX`
      applied. */
  function Start(seed: Num, timestamp: string): (s: Prng.State)
    ensures s.y == Prng.Seeded(seed).y && s.z == Prng.Seeded(seed).z && s.w == Numbers.Word(seed)
    ensures s.x == if timestamp == ReplaceTimestamp then ReplacedX else Prng.Seeded(seed).x
  {
    var s := Prng.Seeded(seed);
    if timestamp == ReplaceTimestamp then s.(x := ReplacedX) else s
  }

  /** `new RandomGenerator(seed)`, with `replaceX` for the one timestamp. */
  method NewGenerator(seed: Num, timestamp: string) returns (g: Prng.RandomGenerator)
    ensures fresh(g) && g.Current() == Start(seed, timestamp)
  {
    g := new Prng.RandomGenerator(seed);
    if timestamp == ReplaceTimestamp {
      g.ReplaceX(ReplacedX);
    }
  }

  /** Texel `t` of the generated texture: draws `3t`, `3t+1` and `3t+2` as
      red, green and blue, and an opaque alpha. */
  function Texel(s: Prng.State, t: nat): seq<Byte> {
    [Prng.Draw(s, 3 * t), Prng.Draw(s, 3 * t + 1), Prng.Draw(s, 3 * t + 2), 255]
  }

  /** Channel `c` of texel `t`. */
  lemma TexelChannel(s: Prng.State, t: nat, c: nat)
    requires c < 4
    ensures Texel(s, t)[c] == if c == 3 then 255 else Prng.Draw(s, 3 * t + c)
  {
    if c == 0 {
      assert Texel(s, t)[0] == Prng.Draw(s, 3 * t);
    } else if c == 1 {
      assert Texel(s, t)[1] == Prng.Draw(s, 3 * t + 1);
    } else if c == 2 {
      assert Texel(s, t)[2] == Prng.Draw(s, 3 * t + 2);
    }
  }

  /** The first `n` texels the generator in state `s` draws. */
  function Texture(s: Prng.State, n: nat): (data: seq<Byte>)
    ensures |data| == 4 * n
  {
    if n == 0 then [] else Texture(s, n - 1) + Texel(s, n - 1)
  }

  /** `_generateMetaTexture`. */
  function MetaTexture(seed: Num, version: string, timestamp: string, gen: Generators): (data: seq<Byte>)
    requires version == "5.0" ==> seed.Finite?
    ensures version == "5.0" ==> data == gen.texture(seed.value, GeneratorConstant)
    ensures version != "5.0" ==> |data| == TextureSize
  {
    if version == "5.0" then gen.texture(seed.value, GeneratorConstant)
    else Texture(Start(seed, timestamp), Texels)
  }

  /** Byte `4t + c` of the drawn texture is channel `c` of texel `t`: a
      colour channel is draw `3t + c` and the alpha is 255. */
  lemma {:induction false} TextureByte(s: Prng.State, n: nat, t: nat, c: nat)
    requires t < n && c < 4
    ensures Texture(s, n)[4 * t + c] == if c == 3 then 255 else Prng.Draw(s, 3 * t + c)
  {
    var prefix, last := Texture(s, n - 1), Texel(s, n - 1);
    assert Texture(s, n) == prefix + last;
    if t < n - 1 {
      TextureByte(s, n - 1, t, c);
      assert 4 * t + c < |prefix|;
      assert Texture(s, n)[4 * t + c] == prefix[4 * t + c];
      assert Texture(s, n)[4 * t + c] == if c == 3 then 255 else Prng.Draw(s, 3 * t + c);
    } else {
      assert 4 * t + c == |prefix| + c;
      assert Texture(s, n)[4 * t + c] == last[c];
      TexelChannel(s, t, c);
      assert Texture(s, n)[4 * t + c] == if c == 3 then 255 else Prng.Draw(s, 3 * t + c);
    }
  }

  /** The drawn meta texture has 2^18 bytes and every fourth byte, the alpha
      of a texel, is 255. */
  lemma MetaTextureOpaque(seed: Num, version: string, timestamp: string, gen: Generators, t: nat)
    requires version != "5.0" && t < Texels
    ensures |MetaTexture(seed, version, timestamp, gen)| == TextureSize
    ensures MetaTexture(seed, version, timestamp, gen)[4 * t + 3] == 255
  {
    TextureByte(Start(seed, timestamp), Texels, t, 3);
  }

  /** One `nextInRange(256)`: the `k`-th draw of the generator's stream. */
  method DrawByte(prng: Prng.RandomGenerator, ghost s0: Prng.State, ghost k: nat) returns (r: Byte)
    requires prng.Current() == Prng.After(s0, k)
    modifies prng
    ensures prng.Current() == Prng.After(s0, k + 1)
    ensures r == Prng.Draw(s0, k)
  {
    r := prng.NextInRange(256);
  }

  /** The three draws of one texel. */
  method DrawRgb(prng: Prng.RandomGenerator, ghost s0: Prng.State, i: nat) returns (r: Byte, g: Byte, b: Byte)
    requires prng.Current() == Prng.After(s0, 3 * i)
    modifies prng
    ensures prng.Current() == Prng.After(s0, 3 * i + 3)
    ensures r == Prng.Draw(s0, 3 * i) && g == Prng.Draw(s0, 3 * i + 1) && b == Prng.Draw(s0, 3 * i + 2)
  {
    r := DrawByte(prng, s0, 3 * i);
    g := DrawByte(prng, s0, 3 * i + 1);
    b := DrawByte(prng, s0, 3 * i + 2);
  }

  /** The stores of one pass of the loop of `_generateMetaTexture`: texel `i`
      gets the three draws and an opaque alpha. */
  method StoreTexel(data: array<Byte>, i: nat, r: Byte, g: Byte, b: Byte)
    requires 4 * i + 4 <= data.Length
    modifies data
    ensures data[..4 * i + 4] == old(data[..4 * i]) + [r, g, b, 255]
  {
    data[4 * i] := r;
    data[4 * i + 1] := g;
    data[4 * i + 2] := b;
    data[4 * i + 3] := 255;
  }

  /** One pass of the loop of `_generateMetaTexture`. */
  method DrawTexel(data: array<Byte>, prng: Prng.RandomGenerator, ghost s0: Prng.State, i: nat)
    requires 4 * i + 4 <= data.Length
    requires prng.Current() == Prng.After(s0, 3 * i)
    requires data[..4 * i] == Texture(s0, i)
    modifies data, prng
    ensures prng.Current() == Prng.After(s0, 3 * (i + 1))
    ensures data[..4 * (i + 1)] == Texture(s0, i + 1)
  {
    var r, g, b := DrawRgb(prng, s0, i);
    StoreTexel(data, i, r, g, b);
  }

  /** The loop of `_generateMetaTexture`. */
  method DrawTexture(prng: Prng.RandomGenerator) returns (data: array<Byte>)
    modifies prng
    ensures fresh(data)
    ensures data[..] == Texture(old(prng.Current()), Texels)
  {
    ghost var s0 := prng.Current();
    data := new Byte[TextureSize];
    var i := 0;
    while i < Texels
      invariant 0 <= i <= Texels
      invariant prng.Current() == Prng.After(s0, 3 * i)
      invariant data[..4 * i] == Texture(s0, i)
    {
      DrawTexel(data, prng, s0, i);
      i := i + 1;
    }
    assert data[..] == data[..4 * Texels];
  }

  /** `_generateMetaTexture` (src/index.js:145-165): the compiled generator for
      "5.0", otherwise the texture drawn from a fresh generator. */
  method GenerateMetaTexture(seed: Num, version: string, timestamp: string, gen: Generators)
    returns (data: array<Byte>)
    requires version == "5.0" ==> seed.Finite?
    ensures fresh(data)
    ensures data[..] == MetaTexture(seed, version, timestamp, gen)
  {
    if version == "5.0" {
      var t := gen.texture(seed.value, GeneratorConstant);
      data := new Byte[|t|](j requires 0 <= j < |t| => t[j]);
      return;
    }
    var prng := NewGenerator(seed, timestamp);
    data := DrawTexture(prng);
  }

  /** The three colour channels `_getMetaPosition` reads; `None` is the
      `undefined` of a read outside the buffer. */
  datatype Sample = Sample(r: Option<Byte>, g: Option<Byte>, b: Option<Byte>)

  /** `data[index]` of a typed array. */
  function Channel(data: seq<Byte>, index: int): (c: Option<Byte>)
    ensures c.Some? <==> 0 <= index < |data|
  {
    if 0 <= index < |data| then Some(data[index]) else None
  }

  /** `_getMetaPosition(u, v)` (src/index.js:167-173): the texel at column
      `u` and row `v`; a coordinate that is NaN reads nothing. The division by
      255 is left to the adjustment that consumes the sample. */
  function MetaPosition(data: seq<Byte>, u: Option<int>, v: Option<int>): (m: Sample)
    ensures (m.r.Some? || m.g.Some? || m.b.Some?) ==> u.Some? && v.Some?
    ensures u.Some? && v.Some? && 0 <= u.value < 256 && 0 <= v.value < 256 && |data| == TextureSize ==>
              m.r.Some? && m.g.Some? && m.b.Some?
  {
    if u.Some? && v.Some? then
      var index := (v.value * 256 + u.value) * 4;
      Sample(Channel(data, index), Channel(data, index + 1), Channel(data, index + 2))
    else Sample(None, None, None)
  }

  /** Inside the texture, `_getMetaPosition` returns the three draws that
      `_generateMetaTexture` stored for texel `256v + u`. */
  lemma MetaPositionOfDrawn(s: Prng.State, u: int, v: int)
    requires 0 <= u < 256 && 0 <= v < 256
    ensures var t := v * 256 + u;
      MetaPosition(Texture(s, Texels), Some(u), Some(v))
        == Sample(Some(Prng.Draw(s, 3 * t)), Some(Prng.Draw(s, 3 * t + 1)), Some(Prng.Draw(s, 3 * t + 2)))
  {
    var t := v * 256 + u;
    var data := Texture(s, Texels);
    assert (v * 256 + u) * 4 == 4 * t && t < Texels;
    assert MetaPosition(data, Some(u), Some(v)) == Sample(Channel(data, 4 * t), Channel(data, 4 * t + 1), Channel(data, 4 * t + 2));
    TextureByte(s, Texels, t, 0);
    TextureByte(s, Texels, t, 1);
    TextureByte(s, Texels, t, 2);
  }

  /** `Math.floor(meta[k] * 256)`: NaN (here `None`) past the end of the
      buffer. */
  function Coord(meta: seq<real>, k: nat): (c: Option<int>)
    ensures c.Some? <==> k < |meta|
  {
    if k < |meta| then Some((meta[k] * 256.0).Floor) else None
  }

  /** Entry `k` of a drawn lookup buffer: the middle of bucket `draw_k`. A
      `Float32Array` holds it exactly. */
  function LookupEntry(s: Prng.State, k: nat): (e: real)
    ensures 0.0 < e < 1.0
    ensures (e * 256.0).Floor == Prng.Draw(s, k)
  {
    var d := Prng.Draw(s, k);
    assert (d as real + 0.5) / 256.0 * 256.0 == d as real + 0.5;
    (d as real + 0.5) / 256.0
  }

  /** The first `n` entries of the lookup buffer a generator in state `s`
      draws. */
  function Lookup(s: Prng.State, n: nat): (meta: seq<real>)
    ensures |meta| == n
  {
    if n == 0 then [] else Lookup(s, n - 1) + [LookupEntry(s, n - 1)]
  }

  lemma {:induction false} LookupAt(s: Prng.State, n: nat, k: nat)
    requires k < n
    ensures Lookup(s, n)[k] == LookupEntry(s, k)
  {
    if k < n - 1 {
      LookupAt(s, n - 1, k);
    }
  }

  /** Reading a drawn lookup entry back as a coordinate gives the draw, so
      every coordinate of the generator path lies in [0, 255]. */
  lemma LookupCoord(s: Prng.State, n: nat, k: nat)
    requires k < n
    ensures Coord(Lookup(s, n), k) == Some(Prng.Draw(s, k))
    ensures 0 <= Coord(Lookup(s, n), k).value < 256
  {
    LookupAt(s, n, k);
    var d := Prng.Draw(s, k);
    assert LookupEntry(s, k) * 256.0 == d as real + 0.5;
  }

  lemma LookupCoords(s: Prng.State, n: nat)
    ensures forall k :: 0 <= k < n ==> Coord(Lookup(s, n), k) == Some(Prng.Draw(s, k))
  {
    forall k | 0 <= k < n ensures Coord(Lookup(s, n), k) == Some(Prng.Draw(s, k)) {
      LookupCoord(s, n, k);
    }
  }

  /** Every primitive starts a fresh generator, so a shorter lookup buffer is
      a prefix of a longer one. */
  lemma {:induction false} LookupPrefix(s: Prng.State, m: nat, n: nat)
    requires m <= n
    ensures Lookup(s, n)[..m] == Lookup(s, m)
  {
    if m < n {
      LookupPrefix(s, m, n - 1);
      assert Lookup(s, n)[..n - 1] == Lookup(s, n - 1);
    }
  }

  /** One pass of the loop of `processPrimitive`. */
  method DrawEntry(meta: array<real>, prng: Prng.RandomGenerator, ghost s0: Prng.State, i: nat)
    requires i < meta.Length
    requires prng.Current() == Prng.After(s0, i)
    requires meta[..i] == Lookup(s0, i)
    modifies meta, prng
    ensures prng.Current() == Prng.After(s0, i + 1)
    ensures meta[..i + 1] == Lookup(s0, i + 1)
  {
    var d := DrawByte(prng, s0, i);
    meta[i] := (d as real + 0.5) / 256.0;
  }

  /** The loop of `processPrimitive`: `n` lookup entries from the generator. */
  method DrawLookup(prng: Prng.RandomGenerator, n: nat) returns (meta: array<real>)
    modifies prng
    ensures fresh(meta)
    ensures meta[..] == Lookup(old(prng.Current()), n)
  {
    ghost var s0 := prng.Current();
    meta := new real[n];
    var i := 0;
    while i < n
      invariant 0 <= i <= n
      invariant prng.Current() == Prng.After(s0, i)
      invariant meta[..i] == Lookup(s0, i)
    {
      DrawEntry(meta, prng, s0, i);
      i := i + 1;
    }
    assert meta[..] == meta[..n];
  }

  /** The three `Set`s of `processDocument`: the x, y and z values already
      written by a correction. Element equality stands for `SameValueZero`. */
  datatype Seen<V> = Seen(x: set<V>, y: set<V>, z: set<V>)

  /** What `processVertexDisplacement` keeps between vertices: the position
      buffer and the sets. */
  datatype PassState<V> = PassState(position: seq<V>, seen: Seen<V>)

  /** The `adjustComponent` of version "5.0" followed by the store into the
      `Float32Array`: a component and the texture byte its factor comes from
      (`None` for an `undefined` read) give the stored component. */
  type Adjust<!V> = (V, Option<Byte>) -> V

  /** Whether all three components of vertex `i` are in their sets. */
  predicate SeenVertex<V>(p: seq<V>, seen: Seen<V>, i: nat)
    requires 3 * i + 3 <= |p|
  {
    p[3 * i] in seen.x && p[3 * i + 1] in seen.y && p[3 * i + 2] in seen.z
  }

  /** Whether the first `n` vertices are all in the sets. */
  predicate Settled<V>(p: seq<V>, seen: Seen<V>, n: nat)
    requires 3 * n <= |p|
  {
    forall i :: 0 <= i < n ==> SeenVertex(p, seen, i)
  }

  predicate Includes<V>(big: Seen<V>, small: Seen<V>) {
    small.x <= big.x && small.y <= big.y && small.z <= big.z
  }

  /** One iteration of the loop of `processVertexDisplacement`
      (src/index.js:190-209): a vertex whose three components are all in the
      sets is left alone; otherwise each component is adjusted by its channel
      of the texel the lookup entries `2i` and `2i+1` name, and the stored
      values join the sets. */
  function CorrectVertex<V>(st: PassState<V>, i: nat, meta: seq<real>, data: seq<Byte>, adjust: Adjust<V>): (r: PassState<V>)
    requires 3 * i + 3 <= |st.position|
    ensures |r.position| == |st.position|
  {
    var p, seen := st.position, st.seen;
    if SeenVertex(p, seen, i) then st
    else
      var m := MetaPosition(data, Coord(meta, 2 * i), Coord(meta, 2 * i + 1));
      var a, b, c := adjust(p[3 * i], m.r), adjust(p[3 * i + 1], m.g), adjust(p[3 * i + 2], m.b);
      PassState(p[3 * i := a][3 * i + 1 := b][3 * i + 2 := c], Seen(seen.x + {a}, seen.y + {b}, seen.z + {c}))
  }

  /** The loop of `processVertexDisplacement` over its first `n` vertices. */
  function Pass<V>(st: PassState<V>, n: nat, meta: seq<real>, data: seq<Byte>, adjust: Adjust<V>): (r: PassState<V>)
    requires 3 * n <= |st.position|
    ensures |r.position| == |st.position|
  {
    if n == 0 then st else CorrectVertex(Pass(st, n - 1, meta, data, adjust), n - 1, meta, data, adjust)
  }

  /** A correction changes only its own vertex, and only adds to the sets; the
      vertex is in the sets afterwards. A vertex already in the sets changes
      nothing; any other adds exactly its three new components. */
  lemma CorrectVertexEffect<V>(st: PassState<V>, i: nat, meta: seq<real>, data: seq<Byte>, adjust: Adjust<V>)
    requires 3 * i + 3 <= |st.position|
    ensures var r := CorrectVertex(st, i, meta, data, adjust);
      && (forall k :: 0 <= k < |st.position| && !(3 * i <= k < 3 * i + 3) ==> r.position[k] == st.position[k])
      && Includes(r.seen, st.seen)
      && SeenVertex(r.position, r.seen, i)
    ensures SeenVertex(st.position, st.seen, i) ==> CorrectVertex(st, i, meta, data, adjust) == st
    ensures var r := CorrectVertex(st, i, meta, data, adjust);
      !SeenVertex(st.position, st.seen, i) ==>
        r.seen == Seen(st.seen.x + {r.position[3 * i]}, st.seen.y + {r.position[3 * i + 1]}, st.seen.z + {r.position[3 * i + 2]})
  {
  }

  /** The pass changes nothing from vertex `n` on, and only adds to the sets. */
  lemma {:induction false} PassFrame<V>(st: PassState<V>, n: nat, meta: seq<real>, data: seq<Byte>, adjust: Adjust<V>)
    requires 3 * n <= |st.position|
    ensures var r := Pass(st, n, meta, data, adjust);
      && (forall k :: 3 * n <= k < |st.position| ==> r.position[k] == st.position[k])
      && Includes(r.seen, st.seen)
  {
    if n > 0 {
      PassFrame(st, n - 1, meta, data, adjust);
      CorrectVertexEffect(Pass(st, n - 1, meta, data, adjust), n - 1, meta, data, adjust);
    }
  }

  /** After the pass every one of its vertices is in the sets: each was either
      already there or was added when corrected, and the sets only grow. */
  lemma {:induction false} PassSettles<V>(st: PassState<V>, n: nat, meta: seq<real>, data: seq<Byte>, adjust: Adjust<V>)
    requires 3 * n <= |st.position|
    ensures var r := Pass(st, n, meta, data, adjust); Settled(r.position, r.seen, n)
  {
    if n > 0 {
      var before := Pass(st, n - 1, meta, data, adjust);
      PassSettles(st, n - 1, meta, data, adjust);
      CorrectVertexEffect(before, n - 1, meta, data, adjust);
      var r := Pass(st, n, meta, data, adjust);
      forall i | 0 <= i < n
        ensures SeenVertex(r.position, r.seen, i)
      {
        if i < n - 1 {
          assert SeenVertex(before.position, before.seen, i);
        }
      }
    }
  }

  /** A pass over vertices that are all in the sets changes nothing. */
  lemma {:induction false} PassOfSettled<V>(st: PassState<V>, n: nat, meta: seq<real>, data: seq<Byte>, adjust: Adjust<V>)
    requires 3 * n <= |st.position| && Settled(st.position, st.seen, n)
    ensures Pass(st, n, meta, data, adjust) == st
  {
    if n > 0 {
      PassOfSettled(st, n - 1, meta, data, adjust);
      assert SeenVertex(st.position, st.seen, n - 1);
    }
  }

  /** So a second pass over the same vertices, whatever its lookup buffer and
      texture, changes nothing: each vertex is corrected at most once. */
  lemma PassIdempotent<V>(st: PassState<V>, n: nat, meta: seq<real>, data: seq<Byte>, meta': seq<real>, data': seq<Byte>, adjust: Adjust<V>)
    requires 3 * n <= |st.position|
    ensures var r := Pass(st, n, meta, data, adjust); Pass(r, n, meta', data', adjust) == r
  {
    PassSettles(st, n, meta, data, adjust);
    PassOfSettled(Pass(st, n, meta, data, adjust), n, meta', data', adjust);
  }

  /** A vertex whose components are all in the sets before the pass keeps its
      values: later additions to the sets never unsettle it. */
  lemma {:induction false} PassKeepsSeen<V>(st: PassState<V>, n: nat, i: nat, meta: seq<real>, data: seq<Byte>, adjust: Adjust<V>)
    requires i < n && 3 * n <= |st.position| && SeenVertex(st.position, st.seen, i)
    ensures var r := Pass(st, n, meta, data, adjust);
      r.position[3 * i] == st.position[3 * i]
      && r.position[3 * i + 1] == st.position[3 * i + 1]
      && r.position[3 * i + 2] == st.position[3 * i + 2]
  {
    var before := Pass(st, n - 1, meta, data, adjust);
    PassFrame(st, n - 1, meta, data, adjust);
    CorrectVertexEffect(before, n - 1, meta, data, adjust);
    if i < n - 1 {
      PassKeepsSeen(st, n - 1, i, meta, data, adjust);
    } else {
      assert SeenVertex(before.position, before.seen, i);
    }
  }

  /** `processed`: the three `Set`s, which the displacement pass adds to in
      place. */
  class Processed<V(==)> {
    var x: set<V>
    var y: set<V>
    var z: set<V>

    function Current(): Seen<V>
      reads this
    {
      Seen(x, y, z)
    }

    /** `[new Set(), new Set(), new Set()]`. */
    constructor ()
      ensures Current() == Seen({}, {}, {})
    {
      x, y, z := {}, {}, {};
    }

    /** The three `has` tests of one vertex. */
    predicate Has(a: V, b: V, c: V)
      reads this
    {
      a in x && b in y && c in z
    }

    /** The three `add`s of one vertex. */
    method Add(a: V, b: V, c: V)
      modifies this
      ensures Current() == Seen(old(x) + {a}, old(y) + {b}, old(z) + {c})
    {
      x, y, z := x + {a}, y + {b}, z + {c};
    }
  }

  /** The meta texture and the lookup buffers of a seed, and the pass that
      undoes the displacement. `metaTextureData` is never written after the
      constructor fills it, so it is kept as a value. */
  class Deobfuscator {
    const seed: Num
    const version: string
    const timestamp: string
    const generators: Generators
    const metaTextureData: seq<Byte>

    /** The seed is an integer whenever the compiled generators need
        `BigInt(seed)`. */
    predicate SeedUsable() {
      version == "5.0" ==> seed.Finite?
    }

    /** What the constructor establishes: a usable seed, and the texture that
        `_generateMetaTexture` makes. */
    ghost predicate Valid() {
      && SeedUsable()
      && metaTextureData == MetaTexture(seed, version, timestamp, generators)
    }

    /** `new Deobfuscator(seed, version, timestamp)` once `BigInt(seed)` is
        known not to throw; `Construct` is the whole constructor. */
    constructor (seed: Num, version: string, timestamp: string, generators: Generators)
      requires version == "5.0" ==> seed.Finite?
      ensures this.seed == seed && this.version == version && this.timestamp == timestamp
      ensures this.generators == generators
      ensures Valid()
    {
      var data := GenerateMetaTexture(seed, version, timestamp, generators);
      this.seed := seed;
      this.version := version;
      this.timestamp := timestamp;
      this.generators := generators;
      metaTextureData := data[..];
    }

    /** The lookup buffer `processPrimitive` attaches to a primitive of
        `count` vertices. */
    function MetaData(count: nat): (meta: seq<real>)
      requires SeedUsable()
      ensures version == "5.0" ==> meta == generators.buffer(seed.value, GeneratorConstant, 2 * count)
      ensures version != "5.0" ==> |meta| == 2 * count
      ensures version != "5.0" ==>
                forall k :: 0 <= k < 2 * count ==> Coord(meta, k) == Some(Prng.Draw(Start(seed, timestamp), k))
    {
      if version == "5.0" then generators.buffer(seed.value, GeneratorConstant, 2 * count)
      else LookupCoords(Start(seed, timestamp), 2 * count); Lookup(Start(seed, timestamp), 2 * count)
    }

    /** `processPrimitive` (src/index.js:215-238): the lookup buffer for a
        primitive, from the compiled generator for "5.0" and otherwise from a
        fresh generator; a primitive without positions throws. */
    method ProcessPrimitive<V>(primitive: Primitive<V>) returns (r: Result<array<real>>)
      requires SeedUsable()
      ensures primitive.position.None? ==> r == Err(TypeError)
      ensures primitive.position.Some? ==>
                r.Ok? && fresh(r.value) && r.value[..] == MetaData(primitive.position.value.Length / 3)
    {
      if primitive.position.None? {
        return Err(TypeError);
      }
      var vertexCount := primitive.position.value.Length / 3;
      var metaData: array<real>;
      if version == "5.0" {
        var b := generators.buffer(seed.value, GeneratorConstant, 2 * vertexCount);
        metaData := new real[|b|](k requires 0 <= k < |b| => b[k]);
      } else {
        var randomGenerator := NewGenerator(seed, timestamp);
        metaData := DrawLookup(randomGenerator, 2 * vertexCount);
      }
      return Ok(metaData);
    }

    /** `processVertexDisplacement` (src/index.js:175-213). Only version "5.0"
        passes the `switch` (the label `"4.0", "5.0"` is a comma expression);
        any other version throws before a vertex is touched. Otherwise every
        vertex is corrected in place unless all of its components are in the
        sets, and the corrected values join the sets. */
    method ProcessVertexDisplacement<V(==)>(position: array<V>, vertexCount: nat, meta: seq<real>,
                                            processed: Processed<V>, adjust: Adjust<V>)
      returns (o: Outcome)
      requires 3 * vertexCount <= position.Length
      modifies position, processed
      ensures version != "5.0" ==>
                && o == Failed(UnknownVersion(version))
                && position[..] == old(position[..])
                && processed.Current() == old(processed.Current())
      ensures version == "5.0" ==>
                && o == Done
                && PassState(position[..], processed.Current())
                   == Pass(PassState(old(position[..]), old(processed.Current())), vertexCount, meta, metaTextureData, adjust)
    {
      if version != "5.0" {
        return Failed(UnknownVersion(version));
      }
      ghost var st0 := PassState(position[..], processed.Current());
      var i := 0;
      while i < vertexCount
        invariant 0 <= i <= vertexCount
        invariant PassState(position[..], processed.Current()) == Pass(st0, i, meta, metaTextureData, adjust)
      {
        var m := MetaPosition(metaTextureData, Coord(meta, 2 * i), Coord(meta, 2 * i + 1));
        if !processed.Has(position[3 * i], position[3 * i + 1], position[3 * i + 2]) {
          position[3 * i] := adjust(position[3 * i], m.r);
          position[3 * i + 1] := adjust(position[3 * i + 1], m.g);
          position[3 * i + 2] := adjust(position[3 * i + 2], m.b);
          processed.Add(position[3 * i], position[3 * i + 1], position[3 * i + 2]);
        }
        i := i + 1;
      }
      return Done;
    }

    /** The calls `processDocument` makes, once every primitive has a buffer:
        each buffer with the lookup buffer of its vertex count. */
    ghost function Jobs<V>(ps: seq<Primitive<V>>): (jobs: seq<Job<V>>)
      requires SeedUsable() && HasPositions(ps)
      ensures |jobs| == |ps|
    {
      seq(|ps|, k requires 0 <= k < |ps| => Job(ps[k].position.value, MetaData(ps[k].position.value.Length / 3)))
    }

    lemma JobsFit<V>(doc: Document<V>, store: map<array<V>, seq<V>>)
      requires SeedUsable() && HasPositions(Primitives(doc.meshes)) && store.Keys == Positions(doc)
      ensures Fits(store, Jobs(Primitives(doc.meshes)))
    {
      var ps := Primitives(doc.meshes);
      forall k | 0 <= k < |ps| ensures Jobs(ps)[k].target in store {
        assert Jobs(ps)[k].target == ps[k].position.value;
      }
    }

    /** The buffers' contents after `processDocument`, from their contents
        before: the pass over every primitive in turn, with one set of seen
        components for the whole document. */
    ghost function Displaced<V>(doc: Document<V>, store: map<array<V>, seq<V>>, adjust: Adjust<V>)
      : (after: map<array<V>, seq<V>>)
      requires SeedUsable() && HasPositions(Primitives(doc.meshes)) && store.Keys == Positions(doc)
      ensures after.Keys == store.Keys
      ensures forall a :: a in after ==> |after[a]| == |store[a]|
    {
      JobsFit(doc, store);
      Run(store, Seen({}, {}, {}), Jobs(Primitives(doc.meshes)), metaTextureData, adjust).0
    }

    /** Primitive `k` of mesh `m` has a buffer of the document, and its job is
        that buffer with its lookup buffer. */
    lemma JobAt<V>(doc: Document<V>, metas: seq<seq<real>>, m: nat, k: nat)
      requires SeedUsable() && Metas(Primitives(doc.meshes), metas)
      requires m < |doc.meshes| && k < |doc.meshes[m].primitives|
      ensures var ps, i := Primitives(doc.meshes), |Primitives(doc.meshes[..m])| + k;
              && i < |ps| && doc.meshes[m].primitives[k].position.Some?
              && var a := doc.meshes[m].primitives[k].position.value;
              && a in Positions(doc) && Jobs(ps)[i] == Job(a, metas[i])
    {
      PrimitiveAt(doc.meshes, m, k);
    }

    /** The primitives of a mesh have buffers among `buffers`, and are the
        jobs from `idx` on, with the lookup buffers from `idx` on. */
    ghost predicate MeshReady<V>(primitives: seq<Primitive<V>>, metas: seq<seq<real>>, idx: nat,
                                 buffers: set<array<V>>, jobs: seq<Job<V>>)
    {
      && idx + |primitives| <= |jobs| && idx + |primitives| <= |metas|
      && (forall k :: 0 <= k < |primitives| ==> primitives[k].position.Some?)
      && (forall k :: 0 <= k < |primitives| ==>
            primitives[k].position.value in buffers
            && jobs[idx + k] == Job(primitives[k].position.value, metas[idx + k]))
    }

    /** Primitive `k` of a ready mesh: its buffer and its job. */
    lemma PrimitiveReady<V>(primitives: seq<Primitive<V>>, metas: seq<seq<real>>, idx: nat,
                           buffers: set<array<V>>, jobs: seq<Job<V>>, k: nat)
      requires MeshReady(primitives, metas, idx, buffers, jobs) && k < |primitives|
      ensures idx + k < |jobs| && idx + k < |metas| && primitives[k].position.Some?
      ensures primitives[k].position.value in buffers
      ensures jobs[idx + k] == Job(primitives[k].position.value, metas[idx + k])
    {
    }

    /** The jobs of mesh `m` follow those of the meshes before it. */
    lemma MeshJobs<V>(doc: Document<V>, metas: seq<seq<real>>, m: nat)
      requires SeedUsable() && Metas(Primitives(doc.meshes), metas) && m < |doc.meshes|
      ensures |Primitives(doc.meshes[..m + 1])| == |Primitives(doc.meshes[..m])| + |doc.meshes[m].primitives|
      ensures MeshReady(doc.meshes[m].primitives, metas, |Primitives(doc.meshes[..m])|, Positions(doc), Jobs(Primitives(doc.meshes)))
    {
      var primitives, idx := doc.meshes[m].primitives, |Primitives(doc.meshes[..m])|;
      var ps := Primitives(doc.meshes);
      var jobs, buffers := Jobs(ps), Positions(doc);
      PrimitivesOfPrefix(doc.meshes, m);
      PrimitivesPrefix(doc.meshes, m + 1);
      assert idx + |primitives| <= |jobs| == |metas|;
      forall k | 0 <= k < |primitives|
        ensures primitives[k].position.Some?
        ensures primitives[k].position.value in buffers && jobs[idx + k] == Job(primitives[k].position.value, metas[idx + k])
      {
        JobAt(doc, metas, m, k);
      }
      assert MeshReady(primitives, metas, idx, buffers, jobs);
    }

    /** The lookup buffers the first loop of `processDocument` attaches. */
    ghost predicate Metas<V>(ps: seq<Primitive<V>>, metas: seq<seq<real>>)
      requires SeedUsable()
    {
      && HasPositions(ps) && |metas| == |ps|
      && forall i :: 0 <= i < |ps| ==> metas[i] == MetaData(ps[i].position.value.Length / 3)
    }

    /** The primitives of one mesh in the first loop of `processDocument`
        (src/index.js:244-246): their lookup buffers in order, or the
        `TypeError` of the first primitive without a `POSITION`. */
    method AttachMesh<V>(primitives: seq<Primitive<V>>) returns (r: Result<seq<seq<real>>>)
      requires SeedUsable()
      ensures r.Err? <==> !HasPositions(primitives)
      ensures r.Err? ==> r.error == TypeError
      ensures r.Ok? ==> Metas(primitives, r.value)
    {
      var metas: seq<seq<real>> := [];
      var k := 0;
      while k < |primitives|
        invariant 0 <= k <= |primitives|
        invariant Metas(primitives[..k], metas)
      {
        var lookup := ProcessPrimitive(primitives[k]);
        if lookup.Err? {
          return Err(lookup.error);
        }
        assert primitives[..k + 1] == primitives[..k] + [primitives[k]];
        metas := metas + [lookup.value[..]];
        k := k + 1;
      }
      assert primitives[..k] == primitives;
      return Ok(metas);
    }

    /** The lookup buffers of two runs of primitives, one after the other. */
    lemma MetasAppend<V>(ps: seq<Primitive<V>>, metas: seq<seq<real>>, qs: seq<Primitive<V>>, more: seq<seq<real>>)
      requires SeedUsable() && Metas(ps, metas) && Metas(qs, more)
      ensures Metas(ps + qs, metas + more)
    {
      var all, ms := ps + qs, metas + more;
      forall i | 0 <= i < |all|
        ensures all[i].position.Some? && ms[i] == MetaData(all[i].position.value.Length / 3)
      {
        if i < |ps| {
          assert all[i] == ps[i] && ms[i] == metas[i];
        } else {
          assert all[i] == qs[i - |ps|] && ms[i] == more[i - |ps|];
        }
      }
    }

    /** The first loop of `processDocument` (src/index.js:243-247): the
        lookup buffer of every primitive in visiting order, or the `TypeError`
        of the first primitive without a `POSITION`. */
    method AttachLookups<V>(meshes: seq<Mesh<V>>) returns (r: Result<seq<seq<real>>>)
      requires SeedUsable()
      ensures r.Err? <==> !HasPositions(Primitives(meshes))
      ensures r.Err? ==> r.error == TypeError
      ensures r.Ok? ==> Metas(Primitives(meshes), r.value)
    {
      var metas: seq<seq<real>> := [];
      var m := 0;
      while m < |meshes|
        invariant 0 <= m <= |meshes|
        invariant Metas(Primitives(meshes[..m]), metas)
      {
        var more := AttachMesh(meshes[m].primitives);
        if more.Err? {
          MissingPosition(meshes, m);
          return Err(more.error);
        }
        MetasAppend(Primitives(meshes[..m]), metas, meshes[m].primitives, more.value);
        PrimitivesOfPrefix(meshes, m);
        metas := metas + more.value;
        m := m + 1;
      }
      assert meshes[..m] == meshes;
      return Ok(metas);
    }

    /** `states` holds the run of every prefix of the jobs: entry `n` is the
        buffers' contents and the sets after the first `n` jobs. */
    ghost predicate Runs<V>(states: seq<RunState<V>>, store0: map<array<V>, seq<V>>, jobs: seq<Job<V>>, adjust: Adjust<V>) {
      && |states| == |jobs| + 1
      && forall n {:trigger jobs[..n]} :: 0 <= n <= |jobs| ==>
           Fits(store0, jobs[..n]) && states[n] == Run(store0, Seen({}, {}, {}), jobs[..n], metaTextureData, adjust)
    }

    /** The runs of all prefixes of the jobs. */
    ghost function RunStates<V>(store0: map<array<V>, seq<V>>, jobs: seq<Job<V>>, adjust: Adjust<V>): (states: seq<RunState<V>>)
      requires Fits(store0, jobs)
      ensures Runs(states, store0, jobs, adjust)
    {
      FitsPrefixes(store0, jobs);
      seq(|jobs| + 1, n requires 0 <= n <= |jobs| => Run(store0, Seen({}, {}, {}), jobs[..n], metaTextureData, adjust))
    }

    /** The buffers and the sets are as the run of the first `n` jobs leaves
        them. */
    ghost predicate Reached<V>(buffers: set<array<V>>, processed: Processed<V>, states: seq<RunState<V>>, n: nat)
      reads buffers, processed
    {
      n < |states| && Store(buffers) == states[n].0 && processed.Current() == states[n].1
    }

    /** Before the first job the buffers hold what they held at the start,
        and after the last one what the whole run leaves. */
    lemma ReachedEnds<V>(buffers: set<array<V>>, processed: Processed<V>, states: seq<RunState<V>>,
                         store0: map<array<V>, seq<V>>, jobs: seq<Job<V>>, adjust: Adjust<V>, n: nat)
      requires Runs(states, store0, jobs, adjust) && Reached(buffers, processed, states, n)
      requires n == 0 || n == |jobs|
      ensures n == 0 ==> Store(buffers) == store0
      ensures n == |jobs| ==> Fits(store0, jobs) && Store(buffers) == Run(store0, Seen({}, {}, {}), jobs, metaTextureData, adjust).0
    {
      if n == 0 {
        assert jobs[..0] == [];
      }
      if n == |jobs| {
        assert jobs[..n] == jobs;
      }
    }

    /** One call of `processVertexDisplacement` in the second loop: the state
        of the buffers and the sets moves from the run of the first `n` jobs to
        the run of the first `n + 1`. */
    method DisplaceJob<V(==)>(ghost buffers: set<array<V>>, ghost store0: map<array<V>, seq<V>>,
                              ghost jobs: seq<Job<V>>, ghost states: seq<RunState<V>>, ghost n: nat,
                              position: array<V>, meta: seq<real>, processed: Processed<V>, adjust: Adjust<V>)
      returns (o: Outcome)
      requires n < |jobs| && store0.Keys == buffers && Fits(store0, jobs)
      requires jobs[n] == Job(position, meta)
      requires Runs(states, store0, jobs, adjust) && Reached(buffers, processed, states, n)
      modifies position, processed
      ensures version != "5.0" ==>
                && o == Failed(UnknownVersion(version))
                && Reached(buffers, processed, states, n)
      ensures version == "5.0" ==> o == Done && Reached(buffers, processed, states, n + 1)
    {
      ghost var stored := Store(buffers);
      RunStep(store0, Seen({}, {}, {}), jobs, n, metaTextureData, adjust);
      ghost var before := states[n];
      assert before.0[position] == position[..];
      o := ProcessVertexDisplacement(position, position.Length / 3, meta, processed, adjust);
      ghost var after := if o == Done then before.0[position := position[..]] else before.0;
      forall a | a in buffers ensures a[..] == after[a] {
        if a != position {
          assert a[..] == stored[a];
        }
      }
      StoreIs(buffers, after);
    }

    /** The primitives of one mesh in the second loop of `processDocument`
        (src/index.js:251-269), jobs `idx` onwards: the run of the jobs before
        the mesh becomes the run of the jobs up to its end. */
    method DisplaceMesh<V(==)>(primitives: seq<Primitive<V>>, metas: seq<seq<real>>, idx: nat,
                               processed: Processed<V>, adjust: Adjust<V>,
                               ghost buffers: set<array<V>>, ghost store0: map<array<V>, seq<V>>,
                               ghost jobs: seq<Job<V>>, ghost states: seq<RunState<V>>)
      returns (o: Outcome, next: nat)
      requires store0.Keys == buffers && Fits(store0, jobs) && Runs(states, store0, jobs, adjust)
      requires MeshReady(primitives, metas, idx, buffers, jobs)
      requires idx > 0 ==> version == "5.0"
      requires Reached(buffers, processed, states, idx)
      modifies buffers, processed
      ensures o.Failed? ==>
                && o == Failed(UnknownVersion(version)) && version != "5.0" && idx < |jobs|
                && next == idx && Reached(buffers, processed, states, idx)
      ensures o == Done ==>
                && next == idx + |primitives|
                && (next > 0 ==> version == "5.0")
                && Reached(buffers, processed, states, next)
    {
      next := idx;
      o := Done;
      while next < idx + |primitives|
        invariant idx <= next <= idx + |primitives|
        invariant next > 0 ==> version == "5.0"
        invariant o == Done
        invariant Reached(buffers, processed, states, next)
      {
        // Every primitive has a buffer here: the first loop threw otherwise.
        PrimitiveReady(primitives, metas, idx, buffers, jobs, next - idx);
        var position := primitives[next - idx].position.value;
        o := DisplaceJob(buffers, store0, jobs, states, next, position, metas[next], processed, adjust);
        if o.Failed? {
          return;
        }
        next := next + 1;
      }
    }

    /** The second loop of `processDocument` (src/index.js:249-270), once
        every primitive has its buffer and its lookup buffer. */
    method DisplaceAll<V(==)>(doc: Document<V>, metas: seq<seq<real>>, adjust: Adjust<V>) returns (o: Outcome)
      requires SeedUsable() && Metas(Primitives(doc.meshes), metas)
      modifies Positions(doc)
      ensures o == Failed(UnknownVersion(version)) <==> |Primitives(doc.meshes)| > 0 && version != "5.0"
      ensures o == Done <==> |Primitives(doc.meshes)| == 0 || version == "5.0"
      ensures o.Failed? ==> Store(Positions(doc)) == old(Store(Positions(doc)))
      ensures o == Done ==> Store(Positions(doc)) == Displaced(doc, old(Store(Positions(doc))), adjust)
    {
      ghost var buffers := Positions(doc);
      ghost var store0 := Store(buffers);
      JobsFit(doc, store0);
      ghost var jobs := Jobs(Primitives(doc.meshes));
      ghost var states := RunStates(store0, jobs, adjust);
      var processed := new Processed<V>();
      var idx := 0;
      var m := 0;
      assert doc.meshes[..0] == [];
      assert jobs[..0] == [];
      o := Done;
      while m < |doc.meshes|
        invariant 0 <= m <= |doc.meshes|
        invariant idx == |Primitives(doc.meshes[..m])| <= |jobs|
        invariant idx > 0 ==> version == "5.0"
        invariant o == Done
        invariant Reached(buffers, processed, states, idx)
      {
        var primitives := doc.meshes[m].primitives;
        MeshJobs(doc, metas, m);
        o, idx := DisplaceMesh(primitives, metas, idx, processed, adjust, buffers, store0, jobs, states);
        if o.Failed? {
          ReachedEnds(buffers, processed, states, store0, jobs, adjust, idx);
          return;
        }
        m := m + 1;
      }
      assert doc.meshes[..m] == doc.meshes;
      ReachedEnds(buffers, processed, states, store0, jobs, adjust, idx);
    }

    /** `processDocument` (src/index.js:240-271). The first loop gives every
        primitive its lookup buffer and throws at the first one without a
        `POSITION`, so the `continue` of the second loop never runs. The second
        loop passes over every buffer in turn with one set of seen components;
        with a version other than "5.0" its first call throws before anything
        changes. */
    method ProcessDocument<V(==)>(doc: Document<V>, adjust: Adjust<V>) returns (o: Outcome)
      requires Valid()
      modifies Positions(doc)
      ensures var ps := Primitives(doc.meshes);
              o == Failed(TypeError) <==> !HasPositions(ps)
      ensures var ps := Primitives(doc.meshes);
              o == Failed(UnknownVersion(version)) <==> HasPositions(ps) && |ps| > 0 && version != "5.0"
      ensures var ps := Primitives(doc.meshes);
              o == Done <==> HasPositions(ps) && (|ps| == 0 || version == "5.0")
      ensures o.Failed? ==> Store(Positions(doc)) == old(Store(Positions(doc)))
      ensures o == Done ==> Store(Positions(doc)) == Displaced(doc, old(Store(Positions(doc))), adjust)
    {
      ghost var before := Store(Positions(doc));
      var lookups := AttachLookups(doc.meshes);
      assert Store(Positions(doc)) == before;
      if lookups.Err? {
        return Failed(lookups.error);
      }
      o := DisplaceAll(doc, lookups.value, adjust);
    }
  }

  /** `root.listMeshes()` and `mesh.listPrimitives()`, reduced to what the
      pass reads: the `POSITION` buffer of each primitive, if it has one. */
  datatype Primitive<V> = Primitive(position: Option<array<V>>)
  datatype Mesh<V> = Mesh(primitives: seq<Primitive<V>>)
  datatype Document<V> = Document(meshes: seq<Mesh<V>>)

  /** The primitives of all meshes, in the order `processDocument` visits them. */
  function Primitives<V>(meshes: seq<Mesh<V>>): seq<Primitive<V>> {
    if |meshes| == 0 then [] else Primitives(meshes[..|meshes| - 1]) + meshes[|meshes| - 1].primitives
  }

  lemma PrimitivesOfPrefix<V>(meshes: seq<Mesh<V>>, m: nat)
    requires m < |meshes|
    ensures Primitives(meshes[..m + 1]) == Primitives(meshes[..m]) + meshes[m].primitives
  {
    assert meshes[..m + 1][..m] == meshes[..m];
  }

  /** The primitives of the first `m` meshes come first among all of them. */
  lemma {:induction false} PrimitivesPrefix<V>(meshes: seq<Mesh<V>>, m: nat)
    requires m <= |meshes|
    ensures var pre := Primitives(meshes[..m]);
            |pre| <= |Primitives(meshes)| && Primitives(meshes)[..|pre|] == pre
    decreases |meshes| - m
  {
    if m < |meshes| {
      PrimitivesPrefix(meshes, m + 1);
      PrimitivesOfPrefix(meshes, m);
    } else {
      assert meshes[..m] == meshes;
    }
  }

  /** Where primitive `k` of mesh `m` sits among all primitives. */
  lemma PrimitiveAt<V>(meshes: seq<Mesh<V>>, m: nat, k: nat)
    requires m < |meshes| && k < |meshes[m].primitives|
    ensures var i := |Primitives(meshes[..m])| + k;
            i < |Primitives(meshes)| && Primitives(meshes)[i] == meshes[m].primitives[k]
  {
    PrimitivesOfPrefix(meshes, m);
    PrimitivesPrefix(meshes, m + 1);
    var q := Primitives(meshes[..m + 1]);
    var i := |Primitives(meshes[..m])| + k;
    assert q[i] == meshes[m].primitives[k];
    assert Primitives(meshes)[..|q|][i] == q[i];
  }

  /** A mesh with a primitive without positions leaves the document with one. */
  lemma MissingPosition<V>(meshes: seq<Mesh<V>>, m: nat)
    requires m < |meshes| && !HasPositions(meshes[m].primitives)
    ensures !HasPositions(Primitives(meshes))
  {
    var k :| 0 <= k < |meshes[m].primitives| && meshes[m].primitives[k].position.None?;
    PrimitiveAt(meshes, m, k);
  }

  predicate HasPositions<V>(ps: seq<Primitive<V>>) {
    forall k :: 0 <= k < |ps| ==> ps[k].position.Some?
  }

  /** The position buffers of a document. Two primitives may share one. */
  function Positions<V>(doc: Document<V>): set<array<V>> {
    var ps := Primitives(doc.meshes);
    set k | 0 <= k < |ps| && ps[k].position.Some? :: ps[k].position.value
  }

  /** The contents of a set of buffers. */
  ghost function Store<V>(buffers: set<array<V>>): (store: map<array<V>, seq<V>>)
    reads buffers
    ensures store.Keys == buffers
  {
    map a | a in buffers :: a[..]
  }

  /** The contents of a set of buffers, buffer by buffer. */
  lemma StoreIs<V>(buffers: set<array<V>>, m: map<array<V>, seq<V>>)
    requires m.Keys == buffers && forall a :: a in buffers ==> a[..] == m[a]
    ensures Store(buffers) == m
  {
  }

  /** One call of `processVertexDisplacement`: the buffer and the lookup buffer
      of one primitive. The vertex count is the buffer's length over 3. */
  datatype Job<V> = Job(target: array<V>, meta: seq<real>)

  ghost predicate Fits<V>(store: map<array<V>, seq<V>>, jobs: seq<Job<V>>) {
    forall k :: 0 <= k < |jobs| ==> jobs[k].target in store
  }

  lemma FitsPrefix<V>(store: map<array<V>, seq<V>>, jobs: seq<Job<V>>, n: nat)
    requires Fits(store, jobs) && n <= |jobs|
    ensures Fits(store, jobs[..n])
  {
    var init := jobs[..n];
    forall k | 0 <= k < |init| ensures init[k].target in store {
      assert init[k] == jobs[k];
    }
  }

  lemma FitsPrefixes<V>(store: map<array<V>, seq<V>>, jobs: seq<Job<V>>)
    requires Fits(store, jobs)
    ensures forall n :: 0 <= n <= |jobs| ==> Fits(store, jobs[..n])
  {
    forall n | 0 <= n <= |jobs| ensures Fits(store, jobs[..n]) {
      FitsPrefix(store, jobs, n);
    }
  }

  /** The buffers' contents and the sets at one point of a run. */
  type RunState<V> = (map<array<V>, seq<V>>, Seen<V>)

  /** The pass applied to each job in turn, with the sets shared by all of
      them: the buffers' contents and the sets afterwards. */
  ghost function Run<V>(store: map<array<V>, seq<V>>, seen: Seen<V>, jobs: seq<Job<V>>, data: seq<Byte>, adjust: Adjust<V>)
    : (r: RunState<V>)
    requires Fits(store, jobs)
    ensures r.0.Keys == store.Keys
    ensures forall a :: a in r.0 ==> |r.0[a]| == |store[a]|
    decreases |jobs|
  {
    if |jobs| == 0 then (store, seen)
    else
      var j := jobs[|jobs| - 1];
      FitsPrefix(store, jobs, |jobs| - 1);
      var before := Run(store, seen, jobs[..|jobs| - 1], data, adjust);
      var cur := before.0[j.target];
      var p := Pass(PassState(cur, before.1), |cur| / 3, j.meta, data, adjust);
      (before.0[j.target := p.position], p.seen)
  }

  /** A run one job longer is that job's pass after the shorter run. */
  lemma RunStep<V>(store: map<array<V>, seq<V>>, seen: Seen<V>, jobs: seq<Job<V>>, n: nat, data: seq<Byte>, adjust: Adjust<V>)
    requires n < |jobs| && Fits(store, jobs)
    ensures Fits(store, jobs[..n]) && Fits(store, jobs[..n + 1])
    ensures var before := Run(store, seen, jobs[..n], data, adjust);
            var cur := before.0[jobs[n].target];
            var p := Pass(PassState(cur, before.1), |cur| / 3, jobs[n].meta, data, adjust);
            Run(store, seen, jobs[..n + 1], data, adjust) == (before.0[jobs[n].target := p.position], p.seen)
  {
    FitsPrefix(store, jobs, n);
    FitsPrefix(store, jobs, n + 1);
    assert jobs[..n + 1][..n] == jobs[..n];
  }

  function Targets<V>(jobs: seq<Job<V>>): set<array<V>> {
    set k | 0 <= k < |jobs| :: jobs[k].target
  }

  /** The jobs whose buffer no earlier job has. */
  function KeepFirst<V>(jobs: seq<Job<V>>): (r: seq<Job<V>>)
    ensures forall k :: 0 <= k < |r| ==> r[k] in jobs
  {
    if |jobs| == 0 then []
    else
      var init := KeepFirst(jobs[..|jobs| - 1]);
      if jobs[|jobs| - 1].target in Targets(jobs[..|jobs| - 1]) then init
      else init + [jobs[|jobs| - 1]]
  }

  /** Keeping the first job of each buffer keeps every buffer, once. */
  lemma {:induction false} KeepFirstTargets<V>(jobs: seq<Job<V>>)
    ensures var r := KeepFirst(jobs);
      && Targets(r) == Targets(jobs)
      && forall i, j :: 0 <= i < j < |r| ==> r[i].target != r[j].target
  {
    if |jobs| > 0 {
      var init, last := jobs[..|jobs| - 1], jobs[|jobs| - 1];
      KeepFirstTargets(init);
      var k := KeepFirst(init);
      assert Targets(jobs) == Targets(init) + {last.target} by {
        forall t | t in Targets(jobs) ensures t in Targets(init) + {last.target} {
          var i :| 0 <= i < |jobs| && jobs[i].target == t;
          if i < |jobs| - 1 { assert init[i] == jobs[i]; }
        }
        forall t | t in Targets(init) ensures t in Targets(jobs) {
          var i :| 0 <= i < |init| && init[i].target == t;
          assert jobs[i] == init[i];
        }
        assert jobs[|jobs| - 1].target == last.target;
      }
      if last.target !in Targets(init) {
        var r := k + [last];
        assert Targets(r) == Targets(k) + {last.target} by {
          forall t | t in Targets(r) ensures t in Targets(k) + {last.target} {
            var i :| 0 <= i < |r| && r[i].target == t;
            if i < |k| { assert r[i] == k[i]; }
          }
          forall t | t in Targets(k) ensures t in Targets(r) {
            var i :| 0 <= i < |k| && k[i].target == t;
            assert r[i] == k[i];
          }
          assert r[|k|] == last;
        }
        forall i, j | 0 <= i < j < |r| ensures r[i].target != r[j].target {
          assert r[i] == k[i];
          if j < |k| { assert r[j] == k[j]; }
          else { assert r[i].target in Targets(k); }
        }
      }
    }
  }

  /** More in the sets keeps a vertex in them. */
  lemma SettledGrows<V>(p: seq<V>, small: Seen<V>, big: Seen<V>, n: nat)
    requires 3 * n <= |p| && Settled(p, small, n) && Includes(big, small)
    ensures Settled(p, big, n)
  {
    forall i | 0 <= i < n ensures SeenVertex(p, big, i) {
      assert SeenVertex(p, small, i);
    }
  }

  /** After a run every vertex of every buffer it touched is in the sets. */
  lemma {:induction false} RunSettles<V>(store: map<array<V>, seq<V>>, seen: Seen<V>, jobs: seq<Job<V>>, data: seq<Byte>, adjust: Adjust<V>)
    requires Fits(store, jobs)
    ensures var r := Run(store, seen, jobs, data, adjust);
      forall t :: t in Targets(jobs) ==> Settled(r.0[t], r.1, |r.0[t]| / 3)
    decreases |jobs|
  {
    if |jobs| > 0 {
      var init, j := jobs[..|jobs| - 1], jobs[|jobs| - 1];
      FitsPrefix(store, jobs, |jobs| - 1);
      RunSettles(store, seen, init, data, adjust);
      var before := Run(store, seen, init, data, adjust);
      var cur := before.0[j.target];
      var p := Pass(PassState(cur, before.1), |cur| / 3, j.meta, data, adjust);
      PassSettles(PassState(cur, before.1), |cur| / 3, j.meta, data, adjust);
      PassFrame(PassState(cur, before.1), |cur| / 3, j.meta, data, adjust);
      var r := Run(store, seen, jobs, data, adjust);
      assert r == (before.0[j.target := p.position], p.seen);
      forall t | t in Targets(jobs) ensures Settled(r.0[t], r.1, |r.0[t]| / 3) {
        if t != j.target {
          var i :| 0 <= i < |jobs| && jobs[i].target == t;
          assert init[i] == jobs[i];
          assert t in Targets(init);
          SettledGrows(before.0[t], before.1, r.1, |before.0[t]| / 3);
        }
      }
    }
  }

  /** A buffer that several primitives share is corrected by the first of
      them only: every later pass over it finds all of its vertices in the
      sets. So the run equals the run with just the first job of each buffer. */
  lemma {:induction false} RunKeepFirst<V>(store: map<array<V>, seq<V>>, seen: Seen<V>, jobs: seq<Job<V>>, data: seq<Byte>, adjust: Adjust<V>)
    requires Fits(store, jobs)
    ensures Fits(store, KeepFirst(jobs))
    ensures Run(store, seen, jobs, data, adjust) == Run(store, seen, KeepFirst(jobs), data, adjust)
    decreases |jobs|
  {
    if |jobs| > 0 {
      var init, j := jobs[..|jobs| - 1], jobs[|jobs| - 1];
      FitsPrefix(store, jobs, |jobs| - 1);
      RunKeepFirst(store, seen, init, data, adjust);
      var before := Run(store, seen, init, data, adjust);
      var cur := before.0[j.target];
      var k := KeepFirst(init);
      if j.target in Targets(init) {
        RunSettles(store, seen, init, data, adjust);
        PassOfSettled(PassState(cur, before.1), |cur| / 3, j.meta, data, adjust);
        assert before.0[j.target := cur] == before.0;
      } else {
        var r := k + [j];
        assert r[..|r| - 1] == k;
      }
    }
  }

  /** `construct`: `new Deobfuscator(seed, version, timestamp)`, which throws a
      `RangeError` when version "5.0" needs `BigInt` of a seed that is NaN or
      infinite. */
  method Construct(seed: Num, version: string, timestamp: string, generators: Generators)
    returns (r: Result<Deobfuscator>)
    ensures r.Err? <==> version == "5.0" && !seed.Finite?
    ensures r.Err? ==> r.error == RangeError
    ensures r.Ok? ==>
              && fresh(r.value) && r.value.Valid()
              && r.value.seed == seed && r.value.version == version && r.value.timestamp == timestamp
              && r.value.generators == generators
  {
    if version == "5.0" && !seed.Finite? {
      return Err(RangeError);
    }
    var d := new Deobfuscator(seed, version, timestamp, generators);
    return Ok(d);
  }
}
