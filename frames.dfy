/** `get_frame_list`: the frame templates offered to the user are the directory entries
    whose lower-cased name ends with one of the application's allowed suffixes. The two
    applications differ only in the suffixes. */
module Frames {
  import opened Python

  /** The suffix test of the list comprehension: `f.lower().endswith(suffixes)`. No dot is
      required before the suffix. */
  predicate Listed(name: string, suffixes: seq<string>)
  {
    EndsWithAny(Lower(name), suffixes)
  }

  /** `a` is `b` with some elements removed, the rest kept in their order. */
  predicate IsSubsequence(a: seq<string>, b: seq<string>)
  {
    if a == [] then true
    else if b == [] then false
    else if a[0] == b[0] then IsSubsequence(a[1..], b[1..])
    else IsSubsequence(a, b[1..])
  }

  /** `[f for f in listing if f.lower().endswith(suffixes)]`: every listed name passes the
      test, each name that passes appears as often as in the listing, and the listing order
      is kept. */
  function FrameList(listing: seq<string>, suffixes: seq<string>): (r: seq<string>)
    ensures forall i :: 0 <= i < |r| ==> Listed(r[i], suffixes)
    ensures forall f :: multiset(r)[f] == if Listed(f, suffixes) then multiset(listing)[f] else 0
    ensures IsSubsequence(r, listing)
  {
    if listing == [] then []
    else
      var rest := FrameList(listing[1..], suffixes);
      assert listing == [listing[0]] + listing[1..];
      if Listed(listing[0], suffixes) then
        assert ([listing[0]] + rest)[1..] == rest;
        [listing[0]] + rest
      else
        assert rest != [] ==> rest[0] != listing[0];
        rest
  }
}
