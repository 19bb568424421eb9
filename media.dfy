/**
 * `processMedia`: each media reference of a message is downloaded and
 * handed to the upload helper, and the references that made it through
 * are collected in order. The download is an oracle: for the item at each
 * position it either fails or yields the byte count, together with the
 * time-and-random filename stem and the url the upload helper returned
 * (which always returns one, a placeholder when the upload itself fails).
 */
module MediaResolver {
  import opened Wrappers
  import opened JsText
  import opened Json
  import opened GeneratorModel

  datatype Fetch = Failed | Fetched(size: nat, stem: string, url: string)

  /** `s.split('/')[1]`: the text between the first and the second slash, `undefined` without a slash. */
  function Subtype(s: string): (r: Option<string>)
    ensures r.None? <==> '/' !in s
    ensures r.Some? ==> '/' !in r.value
  {
    if '/' !in s then None
    else
      var i := FirstIndex(s, '/');
      var rest := s[i + 1..];
      Some(if '/' in rest then rest[..FirstIndex(rest, '/')] else rest)
  }

  function FirstIndex(s: string, c: char): (i: nat)
    requires c in s
    ensures i < |s| && s[i] == c && c !in s[..i]
  {
    if s[0] == c then 0 else 1 + FirstIndex(s[1..], c)
  }

  /**
   * The extension: the subtype of a string MIME type, `jpg` when it is
   * missing or empty; `None` when the value is neither nullish nor a
   * string, where calling `split` throws.
   */
  function Extension(mimetype: Option<Json>): (r: Option<string>)
    ensures r.Some? <==> Nullish(mimetype) || mimetype.value.JStr?
    ensures r.Some? ==> r.value != ""
  {
    if Nullish(mimetype) then Some("jpg")
    else if mimetype.value.JStr? then
      var sub := Subtype(mimetype.value.s);
      Some(if sub.None? || sub.value == "" then "jpg" else sub.value)
    else None
  }

  /** The stored image for one media reference, or `None` when it is skipped. */
  function Resolve(media: Json, f: Fetch): Option<Image> {
    var url := Get(Some(media), "url");
    var mimetype := Get(Some(media), "mimetype");
    var ext := Extension(mimetype);
    if !Truthy(url) || f.Failed? || ext.None? then None
    else Some(Image(f.url, Some(f.stem + "." + ext.value), Some(f.size),
      if mimetype.Some? && mimetype.value.JStr? then Some(mimetype.value.s) else None))
  }

  /** The images collected from the first `n` items. */
  function Collected(items: seq<Json>, fetch: nat -> Fetch, n: nat): seq<Image>
    requires n <= |items|
  {
    if n == 0 then []
    else
      var prev := Collected(items, fetch, n - 1);
      var r := Resolve(items[n - 1], fetch(n - 1));
      if r.Some? then prev + [r.value] else prev
  }

  method ProcessMedia(items: seq<Json>, fetch: nat -> Fetch) returns (uploaded: seq<Image>)
    ensures uploaded == Collected(items, fetch, |items|)
  {
    uploaded := [];
    for i := 0 to |items|
      invariant uploaded == Collected(items, fetch, i)
    {
      var media := items[i];
      if !Truthy(Get(Some(media), "url")) {
        continue;
      }
      var f := fetch(i);
      if f.Failed? {
        continue;
      }
      var ext := Extension(Get(Some(media), "mimetype"));
      if ext.None? {
        continue;
      }
      uploaded := uploaded + [Resolve(media, f).value];
    }
  }

  /** The positions whose item is kept, in increasing order. */
  function Kept(items: seq<Json>, fetch: nat -> Fetch, n: nat): seq<nat>
    requires n <= |items|
  {
    if n == 0 then []
    else Kept(items, fetch, n - 1) + if Resolve(items[n - 1], fetch(n - 1)).Some? then [n - 1] else []
  }

  /**
   * The result is the in-order subsequence of the items that have a url,
   * whose download succeeded and whose MIME type did not make the
   * filename throw: exactly the kept positions, increasing, each giving
   * its own image.
   */
  lemma CollectedIsSubsequence(items: seq<Json>, fetch: nat -> Fetch, n: nat)
    requires n <= |items|
    ensures |Collected(items, fetch, n)| == |Kept(items, fetch, n)|
    ensures forall j :: 0 <= j < |Kept(items, fetch, n)| ==> Kept(items, fetch, n)[j] < n
    ensures forall j, k :: 0 <= j < k < |Kept(items, fetch, n)| ==> Kept(items, fetch, n)[j] < Kept(items, fetch, n)[k]
    ensures forall i :: 0 <= i < n ==> (i in Kept(items, fetch, n) <==> Resolve(items[i], fetch(i)).Some?)
    ensures forall j :: 0 <= j < |Kept(items, fetch, n)| ==>
      Resolve(items[Kept(items, fetch, n)[j]], fetch(Kept(items, fetch, n)[j])) == Some(Collected(items, fetch, n)[j])
  {
    KeptIncreasing(items, fetch, n);
    KeptMembers(items, fetch, n);
    CollectedAtKept(items, fetch, n);
  }

  lemma {:induction false} KeptIncreasing(items: seq<Json>, fetch: nat -> Fetch, n: nat)
    requires n <= |items|
    ensures forall j :: 0 <= j < |Kept(items, fetch, n)| ==> Kept(items, fetch, n)[j] < n
    ensures forall j, k :: 0 <= j < k < |Kept(items, fetch, n)| ==> Kept(items, fetch, n)[j] < Kept(items, fetch, n)[k]
  {
    if n > 0 {
      KeptIncreasing(items, fetch, n - 1);
    }
  }

  lemma {:induction false} KeptMembers(items: seq<Json>, fetch: nat -> Fetch, n: nat)
    requires n <= |items|
    ensures forall i :: 0 <= i < n ==> (i in Kept(items, fetch, n) <==> Resolve(items[i], fetch(i)).Some?)
  {
    if n > 0 {
      KeptMembers(items, fetch, n - 1);
      KeptIncreasing(items, fetch, n - 1);
      assert n - 1 !in Kept(items, fetch, n - 1);
    }
  }

  lemma {:induction false} CollectedAtKept(items: seq<Json>, fetch: nat -> Fetch, n: nat)
    requires n <= |items|
    ensures forall j :: 0 <= j < |Kept(items, fetch, n)| ==> Kept(items, fetch, n)[j] < n
    ensures |Collected(items, fetch, n)| == |Kept(items, fetch, n)|
    ensures forall j :: 0 <= j < |Kept(items, fetch, n)| ==>
      Resolve(items[Kept(items, fetch, n)[j]], fetch(Kept(items, fetch, n)[j])) == Some(Collected(items, fetch, n)[j])
  {
    KeptIncreasing(items, fetch, n);
    if n > 0 {
      CollectedAtKept(items, fetch, n - 1);
      var k0, c0 := Kept(items, fetch, n - 1), Collected(items, fetch, n - 1);
      var k1, c1 := Kept(items, fetch, n), Collected(items, fetch, n);
      var r := Resolve(items[n - 1], fetch(n - 1));
      if r.Some? {
        assert k1 == k0 + [n - 1];
        assert c1 == c0 + [r.value];
        forall j | 0 <= j < |k1|
          ensures Resolve(items[k1[j]], fetch(k1[j])) == Some(c1[j])
        {
          if j < |k0| {
            assert k1[j] == k0[j] && c1[j] == c0[j];
          }
        }
      } else {
        assert k1 == k0 && c1 == c0;
      }
    }
  }

  /**
   * A kept image has the downloaded size, a filename made of the stem and
   * the extension, and the url the upload returned; an item is skipped
   * exactly when it has no url, its download failed, or its MIME type is
   * neither nullish nor a string.
   */
  lemma ResolveCharacterised(media: Json, f: Fetch)
    ensures Resolve(media, f).Some? <==>
      Truthy(Get(Some(media), "url")) && f.Fetched? && Extension(Get(Some(media), "mimetype")).Some?
    ensures Resolve(media, f).Some? ==>
      var img := Resolve(media, f).value;
      img.url == f.url && img.size == Some(f.size)
      && img.filename == Some(f.stem + "." + Extension(Get(Some(media), "mimetype")).value)
  {
  }

  /** `image/png` gives `png`; a type without a slash, or none, gives `jpg`; a number makes the filename throw. */
  lemma ExtensionExamples()
    ensures Extension(Some(JStr("image/png"))) == Some("png")
    ensures Extension(Some(JStr("video"))) == Some("jpg")
    ensures Extension(None) == Some("jpg")
    ensures Extension(Some(JNum(4))) == None
  {
    PngSubtype();
    NoSlashSubtype();
  }

  lemma NoSlashSubtype()
    ensures Subtype("video") == None
  {
    assert forall k :: 0 <= k < |"video"| ==> "video"[k] != '/';
  }

  lemma PngSubtype()
    ensures Subtype("image/png") == Some("png")
  {
    assert "image/png"[5] == '/';
    assert '/' !in "image/png"[..5];
    assert FirstIndex("image/png", '/') == 5;
    assert "image/png"[6..] == "png";
  }
}
