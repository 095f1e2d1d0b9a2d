/** Tag normalisation. `str_slug::slug` belongs to an external crate whose source is not part
    of this model, so it is a parameter of every operation that uses it and no law about it
    is assumed. */
module Slugs {

  type Slugger = string -> string

  /** `tags.into_iter().map(|tag| slug(tag.into())).collect::<HashSet<_>>()`: the slugs are
      inserted one tag after the other. The set holds the slug of every tag and nothing else. */
  function SlugImage(slug: Slugger, ts: seq<string>): (r: set<string>)
    ensures forall t :: t in ts ==> slug(t) in r
    ensures forall x :: x in r ==> exists t :: t in ts && slug(t) == x
    decreases |ts|
  {
    if ts == [] then {}
    else
      var rest := SlugImage(slug, ts[1..]);
      assert forall t :: t in ts ==> t == ts[0] || t in ts[1..];
      {slug(ts[0])} + rest
  }

  /** Collecting two lists one after the other gives the union of their images. */
  lemma {:induction false} SlugImageAppend(slug: Slugger, a: seq<string>, b: seq<string>)
    ensures SlugImage(slug, a + b) == SlugImage(slug, a) + SlugImage(slug, b)
  {
    forall x | x in SlugImage(slug, a + b) ensures x in SlugImage(slug, a) + SlugImage(slug, b) {
      var t :| t in a + b && slug(t) == x;
      if t in a {
        assert x in SlugImage(slug, a);
      } else {
        assert x in SlugImage(slug, b);
      }
    }
  }

  /** Slugging collapses tags, never invents them: at most one tag per input string. */
  lemma {:induction false} SlugImageSize(slug: Slugger, ts: seq<string>)
    ensures |SlugImage(slug, ts)| <= |ts|
  {
    if ts != [] {
      SlugImageSize(slug, ts[1..]);
    }
  }
}
