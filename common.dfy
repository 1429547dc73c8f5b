/** Values shared by every part of the model: optional values, the errors the
    deobfuscator throws, and the JavaScript numbers it computes seeds with. */
module Common {

  /** A value that may be absent: `undefined` (or a missing JSON member) is `None`. */
  datatype Option<+T> = None | Some(value: T) {
    function GetOr(default: T): T {
      if Some? then value else default
    }
  }

  /** An element of a `Uint8Array` or of a digest. */
  type Byte = b: int | 0 <= b < 256

  /** The exceptions thrown by the core, one constructor per kind. */
  datatype Error =
    | TypeError                      // a member read or written on `undefined` or `null`
    | RangeError                     // `BigInt` of a number that is not an integer (NaN or an infinity)
    | UnknownVersion(version: string) // the displacement pass does not know the obfuscation version
    | SeedNotFound(timestamp: string) // the seed map has no entry for the document's timestamp
    | MustBeRemoved                  // a consume-only extension was asked to write itself back

  /** The outcome of an operation that returns a value or throws. */
  datatype Result<+T> = Ok(value: T) | Err(error: Error)

  /** The outcome of an operation that returns nothing or throws. */
  datatype Outcome = Done | Failed(error: Error)

  /** A JavaScript number as it arises in seed computation: every value the core
      produces is an integer that a double can hold, an infinity (`parseInt` of
      an id of more than 308 digits), or NaN. */
  datatype Num = Finite(value: int) | Infinite(negative: bool) | NaN

  /** Every entry of a list through a step that may throw; the first throw
      ends the loop. */
  function Each<A, B>(xs: seq<A>, f: A -> Result<B>): (r: Result<seq<B>>)
    ensures r.Ok? <==> forall j :: 0 <= j < |xs| ==> f(xs[j]).Ok?
    ensures r.Ok? ==> |r.value| == |xs| && forall j :: 0 <= j < |xs| ==> r.value[j] == f(xs[j]).value
    ensures r.Err? ==> exists j :: 0 <= j < |xs| && f(xs[j]).Err? && r.error == f(xs[j]).error
  {
    if |xs| == 0 then Ok([])
    else
      var init := xs[..|xs| - 1];
      assert forall j :: 0 <= j < |init| ==> init[j] == xs[j];
      match Each(init, f)
      case Err(e) => Err(e)
      case Ok(done) =>
        match f(xs[|xs| - 1])
        case Err(e) => Err(e)
        case Ok(y) => Ok(done + [y])
  }

  lemma EachStep<A, B>(xs: seq<A>, f: A -> Result<B>, i: nat)
    requires i < |xs| && Each(xs[..i], f).Ok?
    ensures Each(xs[..i + 1], f) == match f(xs[i])
      case Err(e) => Err(e)
      case Ok(y) => Ok(Each(xs[..i], f).value + [y])
  {
    assert xs[..i + 1][..i] == xs[..i];
  }
}
