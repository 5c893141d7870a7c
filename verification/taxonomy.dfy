/**
 * Naming helpers of src/utils/taxonomy.ts: ad set and creative names built from a campaign
 * name and a cleaned, alphanumeric-only part, and the empty UTM parameters.
 */
module Taxonomy {
  import opened Options
  import opened Text
  import opened Types

  /** `[a-zA-Z0-9]`. */
  predicate IsAlnum(c: char) {
    ('a' <= c <= 'z') || ('A' <= c <= 'Z') || ('0' <= c <= '9')
  }

  predicate AllAlnum(s: string) {
    forall i :: 0 <= i < |s| ==> IsAlnum(s[i])
  }

  /** `replace(/\s+/g, '')`. */
  function DropSpace(s: string): (r: string)
    ensures NoSpace(r) && |r| <= |s|
  {
    if s == [] then []
    else (if IsSpace(s[0]) then [] else [s[0]]) + DropSpace(s[1..])
  }

  /** `replace(/[^a-zA-Z0-9]/g, '')`. */
  function KeepAlnum(s: string): (r: string)
    ensures AllAlnum(r) && |r| <= |s|
  {
    if s == [] then []
    else (if IsAlnum(s[0]) then [s[0]] else []) + KeepAlnum(s[1..])
  }

  /** The two replacements of `generateAdSetName` and `generateCreativeName`, in order. */
  function CleanName(s: string): (r: string)
    ensures AllAlnum(r) && '_' !in r && |r| <= |s|
  {
    var r := KeepAlnum(DropSpace(s));
    assert '_' !in r by {
      forall i | 0 <= i < |r| ensures r[i] != '_' {
        assert IsAlnum(r[i]);
      }
    }
    r
  }

  /** Dropping whitespace first changes nothing: no whitespace character is alphanumeric. */
  lemma {:induction false} CleanNameIsKeepAlnum(s: string)
    ensures CleanName(s) == KeepAlnum(s)
  {
    if s != [] {
      CleanNameIsKeepAlnum(s[1..]);
      KeepAlnumConcat(if IsSpace(s[0]) then [] else [s[0]], DropSpace(s[1..]));
      assert s == [s[0]] + s[1..];
      KeepAlnumConcat([s[0]], s[1..]);
    }
  }

  /** Keeping the alphanumerics of a concatenation keeps those of each part, in order. */
  lemma {:induction false} KeepAlnumConcat(a: string, b: string)
    ensures KeepAlnum(a + b) == KeepAlnum(a) + KeepAlnum(b)
  {
    if a == [] {
      assert a + b == b;
    } else {
      assert (a + b)[0] == a[0];
      assert (a + b)[1..] == a[1..] + b;
      KeepAlnumConcat(a[1..], b);
    }
  }

  /** A string that is all alphanumeric is its own cleaning. */
  lemma {:induction false} KeepAlnumOfAlnum(s: string)
    requires AllAlnum(s)
    ensures KeepAlnum(s) == s
  {
    if s != [] {
      KeepAlnumOfAlnum(s[1..]);
      assert s == [s[0]] + s[1..];
    }
  }

  /** Cleaning is idempotent, and only alphanumerics remain. */
  lemma CleanIdempotent(s: string)
    ensures AllAlnum(CleanName(s))
    ensures CleanName(CleanName(s)) == CleanName(s)
  {
    CleanNameIsKeepAlnum(CleanName(s));
    KeepAlnumOfAlnum(CleanName(s));
  }

  /** `generateUTMParameters`: no term. */
  function UtmParameters(): (u: Utm)
    ensures u.term.None?
  {
    Utm(None)
  }

  /** The text after the last underscore, or the whole string without one. */
  function LastSegment(s: string): (r: string)
    ensures '_' !in r
  {
    if s == [] then []
    else if s[|s| - 1] == '_' then []
    else LastSegment(s[..|s| - 1]) + [s[|s| - 1]]
  }

  /** The last segment after an underscore followed by underscore-free text is that text. */
  lemma {:induction false} LastSegmentAfter(p: string, t: string)
    requires '_' !in t
    ensures LastSegment(p + "_" + t) == t
  {
    var s := p + "_" + t;
    if t == [] {
      assert s == p + "_";
    } else {
      var u := t[..|t| - 1];
      assert s[|s| - 1] == t[|t| - 1];
      assert s[..|s| - 1] == p + "_" + u;
      assert '_' !in u by {
        forall i | 0 <= i < |u| ensures u[i] != '_' {
          assert u[i] == t[i];
        }
      }
      LastSegmentAfter(p, u);
      assert t == u + [t[|t| - 1]];
    }
  }

  /**
   * `generateAdSetName(campaignName, targeting, adSetType)`: the name is the campaign name,
   * the type and the cleaned targeting joined by `_`, which is then its last `_` segment.
   */
  function AdSetName(campaignName: string, targeting: string, adSetType: string): (name: string)
    ensures StartsWith(name, campaignName + "_" + adSetType + "_")
    ensures |name| == |campaignName| + |adSetType| + 2 + |CleanName(targeting)|
    ensures name[|campaignName| + |adSetType| + 2..] == CleanName(targeting)
    ensures LastSegment(name) == CleanName(targeting)
  {
    var p := campaignName + "_" + adSetType;
    LastSegmentAfter(p, CleanName(targeting));
    p + "_" + CleanName(targeting)
  }

  /**
   * `generateCreativeName`: the dimensions are appended only when present and not empty. The
   * name is the campaign name and the cleaned asset type joined by `_`, followed by `_` and the
   * dimensions when there are any; without dimensions its last segment is the asset type, and
   * with underscore-free dimensions it is the dimensions.
   */
  function CreativeName(campaignName: string, assetType: string, dimensions: Option<string>): (name: string)
    ensures StartsWith(name, campaignName + "_" + CleanName(assetType))
    ensures !Truthy(dimensions) ==> |name| == |campaignName| + 1 + |CleanName(assetType)|
    ensures Truthy(dimensions) ==>
      |name| == |campaignName| + 2 + |CleanName(assetType)| + |dimensions.value|
      && name[|campaignName| + 1 + |CleanName(assetType)|..] == "_" + dimensions.value
    ensures !Truthy(dimensions) ==> LastSegment(name) == CleanName(assetType)
    ensures Truthy(dimensions) && '_' !in dimensions.value ==> LastSegment(name) == dimensions.value
  {
    var c := CleanName(assetType);
    if Truthy(dimensions) then
      var name := (campaignName + "_" + c) + "_" + dimensions.value;
      if '_' !in dimensions.value then
        LastSegmentAfter(campaignName + "_" + c, dimensions.value);
        name
      else name
    else
      LastSegmentAfter(campaignName, c);
      campaignName + "_" + c
  }
}
