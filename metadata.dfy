/**
 * The metadata the crawler extracts from a page's `<meta>` elements.
 *
 * Each element is the three attributes the extraction reads; an absent
 * attribute (`getAttribute` returning `null`) is `None`. The key of an
 * element is its `name`, or its `property` when `name` is falsy (JavaScript
 * `||`, so an empty string counts as absent); an element contributes only
 * when both its key and its `content` are non-empty strings, and a later
 * element overwrites an earlier one with the same key.
 */
module Metadata {
  import opened Wrappers

  datatype MetaElement = MetaElement(name: Option<string>, property: Option<string>, content: Option<string>)

  /** JavaScript truthiness of a possibly-null string attribute. */
  predicate Truthy(a: Option<string>) {
    a.Some? && a.value != ""
  }

  /** `meta.getAttribute('name') || meta.getAttribute('property')` */
  function Key(m: MetaElement): Option<string> {
    if Truthy(m.name) then m.name else m.property
  }

  /** `name && content`: the element is stored in the map. */
  predicate Kept(m: MetaElement) {
    Truthy(Key(m)) && Truthy(m.content)
  }

  function KeyName(m: MetaElement): string
    requires Kept(m)
  {
    Key(m).value
  }

  function ContentOf(m: MetaElement): string
    requires Kept(m)
  {
    m.content.value
  }

  /** One iteration of the `forEach` callback. */
  function Visit(tags: map<string, string>, m: MetaElement): map<string, string> {
    if Kept(m) then tags[KeyName(m) := ContentOf(m)] else tags
  }

  /** The map built by visiting the elements in document order. */
  function MetaTags(ms: seq<MetaElement>): map<string, string>
    decreases |ms|
  {
    if ms == [] then map[] else Visit(MetaTags(ms[..|ms| - 1]), ms[|ms| - 1])
  }

  /** Visiting one more element is one more step of the fold. */
  lemma MetaTagsSnoc(ms: seq<MetaElement>, m: MetaElement)
    ensures MetaTags(ms + [m]) == Visit(MetaTags(ms), m)
  {
  }

  /**
   * The key is the `name` attribute when it is non-empty and the `property`
   * attribute otherwise; an element with neither leaves the map unchanged.
   */
  lemma KeyedByNameElseProperty(ms: seq<MetaElement>, m: MetaElement)
    requires Truthy(m.content)
    ensures Truthy(m.name) ==> MetaTags(ms + [m]) == MetaTags(ms)[m.name.value := m.content.value]
    ensures !Truthy(m.name) && Truthy(m.property) ==>
              MetaTags(ms + [m]) == MetaTags(ms)[m.property.value := m.content.value]
    ensures !Truthy(m.name) && !Truthy(m.property) ==> MetaTags(ms + [m]) == MetaTags(ms)
  {
  }

  /** An element without a non-empty key and content adds nothing. */
  lemma SkippedElementChangesNothing(ms: seq<MetaElement>, m: MetaElement)
    requires !Kept(m)
    ensures MetaTags(ms + [m]) == MetaTags(ms)
  {
  }

  /** The keys of the map are exactly the keys of the kept elements. */
  lemma {:induction false} MetaTagsKeys(ms: seq<MetaElement>, k: string)
    ensures k in MetaTags(ms) <==> exists i :: 0 <= i < |ms| && Kept(ms[i]) && KeyName(ms[i]) == k
    decreases |ms|
  {
    if ms != [] {
      var init, last := ms[..|ms| - 1], ms[|ms| - 1];
      assert ms == init + [last];
      MetaTagsKeys(init, k);
      if k in MetaTags(ms) && !(Kept(last) && KeyName(last) == k) {
        var i :| 0 <= i < |init| && Kept(init[i]) && KeyName(init[i]) == k;
        assert ms[i] == init[i];
      }
      if exists i :: 0 <= i < |ms| && Kept(ms[i]) && KeyName(ms[i]) == k {
        var i :| 0 <= i < |ms| && Kept(ms[i]) && KeyName(ms[i]) == k;
        if i < |init| {
          assert init[i] == ms[i];
        }
      }
    }
  }

  /** Every entry of the map is the content of some kept element with that key. */
  lemma {:induction false} EntriesComeFromElements(ms: seq<MetaElement>, k: string)
    requires k in MetaTags(ms)
    ensures exists i :: 0 <= i < |ms| && Kept(ms[i]) && KeyName(ms[i]) == k && ContentOf(ms[i]) == MetaTags(ms)[k]
    decreases |ms|
  {
    var init, last := ms[..|ms| - 1], ms[|ms| - 1];
    if Kept(last) && KeyName(last) == k {
      assert ms[|ms| - 1] == last;
    } else {
      EntriesComeFromElements(init, k);
      var i :| 0 <= i < |init| && Kept(init[i]) && KeyName(init[i]) == k && ContentOf(init[i]) == MetaTags(init)[k];
      assert ms[i] == init[i];
    }
  }

  /**
   * When several kept elements share a key, the map holds the content of the
   * last of them in document order.
   */
  lemma {:induction false} LastWins(ms: seq<MetaElement>, i: nat)
    requires i < |ms| && Kept(ms[i])
    requires forall j :: i < j < |ms| && Kept(ms[j]) ==> KeyName(ms[j]) != KeyName(ms[i])
    ensures KeyName(ms[i]) in MetaTags(ms) && MetaTags(ms)[KeyName(ms[i])] == ContentOf(ms[i])
    decreases |ms|
  {
    var init, last := ms[..|ms| - 1], ms[|ms| - 1];
    if i < |ms| - 1 {
      assert init[i] == ms[i];
      forall j | i < j < |init| && Kept(init[j])
        ensures KeyName(init[j]) != KeyName(init[i])
      {
        assert init[j] == ms[j];
      }
      LastWins(init, i);
    }
  }

  // The extraction as the browser runs it: a plain object `{}` is the
  // dictionary, and assigning to its `__proto__` key calls the prototype
  // setter, which ignores a string value instead of storing it.

  const ProtoKey := "__proto__"

  function VisitAsWritten(tags: map<string, string>, m: MetaElement): map<string, string> {
    if Kept(m) && KeyName(m) != ProtoKey then tags[KeyName(m) := ContentOf(m)] else tags
  }

  function MetaTagsAsWritten(ms: seq<MetaElement>): map<string, string>
    decreases |ms|
  {
    if ms == [] then map[] else VisitAsWritten(MetaTagsAsWritten(ms[..|ms| - 1]), ms[|ms| - 1])
  }

  /** The extraction as written loses exactly the `__proto__` entry. */
  lemma {:induction false} AsWrittenDropsProtoKey(ms: seq<MetaElement>)
    ensures MetaTagsAsWritten(ms) == MetaTags(ms) - {ProtoKey}
    decreases |ms|
  {
    if ms != [] {
      AsWrittenDropsProtoKey(ms[..|ms| - 1]);
    }
  }

  /** A page with `<meta name="__proto__" content="x">` yields an empty map. */
  lemma ProtoKeyCounterexample()
    ensures var ms := [MetaElement(Some(ProtoKey), None, Some("x"))];
            MetaTagsAsWritten(ms) == map[] && MetaTags(ms) == map[ProtoKey := "x"]
  {
  }
}
