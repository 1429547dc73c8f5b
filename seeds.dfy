/** `computeSeedMap` (src/index.js:72-104) and the seed lookup that follows
    (src/index.js:706-710). Every entry of a fixed table of timestamps is moved
    by one offset: either the model id read as a decimal number, or, for a
    signed download URL, 32 bits of the SHA-1 digest of part of its path. */
module Seeds {
  import opened Common
  import Numbers
  import Text

  /** A SHA-1 digest: 20 bytes. */
  type Digest = d: seq<Byte> | |d| == 20 witness seq(20, i => 0)

  /** `seedMapStartingState`: the base seed of every known obfuscation
      timestamp. */
  const StartingState: map<string, int> := map[
    "612168628" := 0,
    "1599883309" := 3549,
    "1761208024" := 3174,
    "1698286986" := 21955,
    "1689231785" := 32123,
    "1667373233" := 5453,
    "1764841611" := 29199,
    "legacy" := 0
  ]

  /** `DataView.getInt32(offset, true)`: four bytes, least significant first,
      read as a two's-complement 32-bit integer. */
  function Int32LE(b0: Byte, b1: Byte, b2: Byte, b3: Byte): (r: int)
    ensures -Numbers.TwoTo31 <= r < Numbers.TwoTo31
  {
    var u: int := b0 as int + 0x100 * b1 + 0x1_0000 * b2 + 0x100_0000 * b3;
    if u < Numbers.TwoTo31 then u else u - Numbers.TwoTo32
  }

  /** The four little-endian bytes of a signed 32-bit integer: the inverse of
      `Int32LE`. */
  function EncodeInt32LE(v: int): (b: seq<Byte>)
    requires -Numbers.TwoTo31 <= v < Numbers.TwoTo31
    ensures |b| == 4
  {
    var u := if v < 0 then v + Numbers.TwoTo32 else v;
    var q1 := u / 0x100;
    var q2 := q1 / 0x100;
    var q3 := q2 / 0x100;
    [u % 0x100, q1 % 0x100, q2 % 0x100, q3]
  }

  lemma Int32LEOfEncode(v: int)
    requires -Numbers.TwoTo31 <= v < Numbers.TwoTo31
    ensures var b := EncodeInt32LE(v); Int32LE(b[0], b[1], b[2], b[3]) == v
  {
    var u := if v < 0 then v + Numbers.TwoTo32 else v;
    var q1 := u / 0x100;
    var q2 := q1 / 0x100;
    var q3 := q2 / 0x100;
    assert u == u % 0x100 + 0x100 * q1;
    assert q1 == q1 % 0x100 + 0x100 * q2;
    assert q2 == q2 % 0x100 + 0x100 * q3;
  }

  lemma EncodeOfInt32LE(b0: Byte, b1: Byte, b2: Byte, b3: Byte)
    ensures EncodeInt32LE(Int32LE(b0, b1, b2, b3)) == [b0, b1, b2, b3]
  {
    var low: int := b2 as int + 0x100 * b3;
    var high: int := b1 as int + 0x100 * low;
    var u: int := b0 as int + 0x100 * high;
    Numbers.DivUnique(u, 0x100, high, b0);
    Numbers.DivUnique(high, 0x100, low, b1);
    Numbers.DivUnique(low, 0x100, b3, b2);
  }

  /** Every base seed is below 2^15. */
  lemma StartingStateBounds(key: string)
    requires key in StartingState
    ensures 0 <= StartingState[key] < 0x8000
  {
  }

  /** The number of leading path segments the hash skips: one more for the
      versioned API paths. */
  function ApiVersionOffset(url: string): (k: nat)
    ensures k == 5 || k == 6
    ensures k == 6 <==> Text.Includes(url, "/v1/") || Text.Includes(url, "/v2/")
  {
    if Text.Includes(url, "/v1/") || Text.Includes(url, "/v2/") then 6 else 5
  }

  /** `url.split("/").slice(k).join("/")`: the hashed part of the URL is what
      follows its fifth (or sixth) slash, a suffix of the URL. */
  function HashedPath(url: string): (path: string)
    ensures path == Text.AfterSeparators(url, '/', ApiVersionOffset(url))
    ensures Text.IsSuffix(path, url)
  {
    Text.SliceJoin(url, '/', ApiVersionOffset(url));
    Text.AfterSeparatorsSuffix(url, '/', ApiVersionOffset(url));
    Text.Join(Text.Drop(Text.Split(url, '/'), ApiVersionOffset(url)), '/')
  }

  /** The 32-bit integer stored in the last four bytes of the digest of the
      hashed path. `digestOf` stands for SHA-1 over the path's UTF-8 bytes. */
  function HashOffset(url: string, digestOf: string -> Digest): (h: int)
    ensures -Numbers.TwoTo31 <= h < Numbers.TwoTo31
  {
    var d := digestOf(HashedPath(url));
    Int32LE(d[16], d[17], d[18], d[19])
  }

  /** Whether `url?.includes("s=op")` selects the hash. */
  function SignedUrl(url: Option<string>): (signed: bool)
    ensures signed <==> url.Some? && exists i :: Text.OccursAt(url.value, "s=op", i)
  {
    if url.Some? then Text.IncludesMeansOccurs(url.value, "s=op"); Text.Includes(url.value, "s=op")
    else false
  }

  /** The amount added to every base seed. */
  function Offset(inputValue: string, url: Option<string>, digestOf: string -> Digest): (offset: Num)
    ensures SignedUrl(url) ==> offset.Finite? && -Numbers.TwoTo31 <= offset.value < Numbers.TwoTo31
    ensures !SignedUrl(url) ==> offset == Text.ParseInt(inputValue)
  {
    if SignedUrl(url) then Finite(HashOffset(url.value, digestOf)) else Text.ParseInt(inputValue)
  }

  /** `computeSeedMap(inputValue, url)`: the same keys as the table, each
      mapped to its base seed plus the offset (JavaScript addition). */
  function ComputeSeedMap(inputValue: string, url: Option<string>, digestOf: string -> Digest): (m: map<string, Num>)
    ensures m.Keys == StartingState.Keys
    ensures forall key :: key in StartingState ==>
      m[key] == Numbers.Add(Finite(StartingState[key]), Offset(inputValue, url, digestOf))
  {
    var offset := Offset(inputValue, url, digestOf);
    map key | key in StartingState :: Numbers.Add(Finite(StartingState[key]), offset)
  }

  /** With a signed URL every seed is its base plus the digest word, exactly:
      the id plays no part. */
  lemma SignedSeeds(inputValue: string, url: string, digestOf: string -> Digest, key: string)
    requires Text.Includes(url, "s=op") && key in StartingState
    ensures ComputeSeedMap(inputValue, Some(url), digestOf)[key]
      == Finite(StartingState[key] + HashOffset(url, digestOf))
  {
    assert Offset(inputValue, Some(url), digestOf) == Finite(HashOffset(url, digestOf));
    StartingStateBounds(key);
  }

  /** Otherwise a decimal id `n` is the offset, for any integer a double
      holds exactly. */
  lemma IdOffset(n: nat, url: Option<string>, digestOf: string -> Digest)
    requires !SignedUrl(url) && n <= Numbers.TwoTo53
    ensures Offset(Text.Decimal(n), url, digestOf) == Finite(n)
  {
    Text.ParseIntOfDecimal(n, "");
    assert Text.Decimal(n) + "" == Text.Decimal(n);
  }

  /** So a decimal id `n` gives every seed as its base plus `n`, rounded to a
      double like any JavaScript sum; below 2^53 - 2^15 the sum is exact. The
      digest plays no part. */
  lemma IdSeeds(n: nat, url: Option<string>, digestOf: string -> Digest, key: string)
    requires !SignedUrl(url) && key in StartingState && n <= Numbers.TwoTo53
    ensures ComputeSeedMap(Text.Decimal(n), url, digestOf)[key]
      == Finite(Numbers.RoundToDouble(StartingState[key] + n))
    ensures n <= Numbers.TwoTo53 - 0x8000 ==>
      ComputeSeedMap(Text.Decimal(n), url, digestOf)[key] == Finite(StartingState[key] + n)
  {
    IdOffset(n, url, digestOf);
    StartingStateBounds(key);
    Numbers.AddBelow(StartingState[key], n);
  }

  /** An id without leading digits makes every seed NaN. */
  lemma NaNSeeds(inputValue: string, url: Option<string>, digestOf: string -> Digest, key: string)
    requires !SignedUrl(url) && key in StartingState && Text.ParseInt(inputValue).NaN?
    ensures ComputeSeedMap(inputValue, url, digestOf)[key].NaN?
  {
  }

  /** An id of more digits than a double holds makes every seed that infinity. */
  lemma InfiniteSeeds(inputValue: string, url: Option<string>, digestOf: string -> Digest, key: string)
    requires !SignedUrl(url) && key in StartingState && Text.ParseInt(inputValue).Infinite?
    ensures ComputeSeedMap(inputValue, url, digestOf)[key] == Text.ParseInt(inputValue)
  {
  }

  /** `seedMap[timestamp]`, throwing when the timestamp has no entry. */
  function SeedFor(seedMap: map<string, Num>, timestamp: string): (r: Result<Num>)
    ensures r.Ok? <==> timestamp in seedMap
    ensures r.Ok? ==> r.value == seedMap[timestamp]
    ensures r.Err? ==> r.error == SeedNotFound(timestamp)
  {
    if timestamp in seedMap then Ok(seedMap[timestamp]) else Err(SeedNotFound(timestamp))
  }

  /** A computed map finds a seed exactly for the timestamps of the table,
      whatever the id and URL. */
  lemma SeedFound(inputValue: string, url: Option<string>, digestOf: string -> Digest, timestamp: string)
    ensures SeedFor(ComputeSeedMap(inputValue, url, digestOf), timestamp).Ok? <==> timestamp in StartingState
  {
  }

  /** `parseVRoidHubURL`: the last path segment once trailing slashes are
      removed. */
  function ParseVRoidHubURL(url: string): (id: string)
    ensures '/' !in id
  {
    var parts := Text.Split(Text.TrimEnd(url, '/'), '/');
    parts[|parts| - 1]
  }

  /** The id is a suffix of the trimmed URL that starts the URL or follows a
      slash. */
  lemma ParseVRoidHubURLIsLastSegment(url: string)
    ensures var t, id := Text.TrimEnd(url, '/'), ParseVRoidHubURL(url);
      && |id| <= |t| && id == t[|t| - |id|..]
      && (|id| == |t| || t[|t| - |id| - 1] == '/')
  {
    var t := Text.TrimEnd(url, '/');
    var parts := Text.Split(t, '/');
    Text.JoinSplit(t, '/');
    if |parts| >= 2 {
      Text.JoinLast(parts, '/');
      var front := Text.Join(parts[..|parts| - 1], '/') + ['/'];
      var id := parts[|parts| - 1];
      assert t == front + id;
      assert t[|front|..] == id && t[|front| - 1] == '/';
    }
  }
}
