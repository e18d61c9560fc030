/** `coerceDirs` (src/core/utils.ts): turning a loosely typed `dirs` setting into a list of strings. */
module CoreUtils {
  import opened Wrappers
  import opened Env

  /** `undefined` is `None`; an array maps through `String`, a string becomes a one-element list,
      anything else gives the empty list. */
  function CoerceDirs(d: Option<Value>): (r: seq<string>)
    ensures d.Some? && d.value.Arr? ==>
      |r| == |d.value.items| && forall i :: 0 <= i < |r| ==> r[i] == Render(d.value.items[i])
    ensures d.Some? && d.value.Str? ==> r == [d.value.s]
    ensures d.None? || !(d.value.Arr? || d.value.Str?) ==> r == []
  {
    match d
    case Some(Arr(items)) => seq(|items|, i requires 0 <= i < |items| => Render(items[i]))
    case Some(Str(s)) => [s]
    case _ => []
  }

  /** The strings of a list, as an array value. */
  function Strings(xs: seq<string>): (v: Value)
    ensures v.Arr? && |v.items| == |xs|
  {
    Arr(seq(|xs|, i requires 0 <= i < |xs| => Str(xs[i])))
  }

  /** Coercing an already coerced list changes nothing: `String` of a string is that string. */
  lemma CoerceDirsIdempotent(d: Option<Value>)
    ensures CoerceDirs(Some(Strings(CoerceDirs(d)))) == CoerceDirs(d)
  {
    var r := CoerceDirs(d);
    var again := CoerceDirs(Some(Strings(r)));
    assert |again| == |r|;
    forall i | 0 <= i < |r| ensures again[i] == r[i] {
      assert Strings(r).items[i] == Str(r[i]);
    }
  }
}
