/** Choosing images from a search result: an item is kept when no kept item has
    its title and its link, lower-cased, ends with an image extension. */
module WebSearch {
  import opened Common
  import opened Text

  /** A search result item; its `title` and `link` keys may be missing. */
  datatype ImageItem = ImageItem(title: Option<string>, link: Option<string>)

  /** A kept image, copying the item's title and link. */
  datatype Image = Image(title: Option<string>, link: string)

  predicate HasImageExtension(link: string) {
    var l := LowerStr(link);
    EndsWith(l, ".jpg") || EndsWith(l, ".jpeg") || EndsWith(l, ".png") || EndsWith(l, ".gif")
  }

  /** Some kept image has title `t`. */
  predicate HasTitle(kept: seq<Image>, t: Option<string>) {
    exists k :: 0 <= k < |kept| && kept[k].title == t
  }

  /** The images kept from `items`, in their order. The title test comes first:
      an item whose title is already kept is skipped without looking at its
      link, and an item with a new title and no link raises. */
  function UniqueImages(items: seq<ImageItem>): (r: Result<seq<Image>>)
    ensures r.Ok? ==> |r.value| <= |items|
    ensures r.Err? ==> r.error == NoneLink && exists j :: 0 <= j < |items| && items[j].link.None?
  {
    if items == [] then Ok([])
    else
      assert forall j :: 0 <= j < |items| - 1 ==> items[..|items| - 1][j] == items[j];
      match UniqueImages(items[..|items| - 1])
      case Err(e) => Err(e)
      case Ok(kept) =>
        var it := items[|items| - 1];
        if HasTitle(kept, it.title) then Ok(kept)
        else if it.link.None? then Err(NoneLink)
        else if HasImageExtension(it.link.value) then Ok(kept + [Image(it.title, it.link.value)])
        else Ok(kept)
  }

  /** The `for` loop of `get_unique_image_urls`, with its list of kept titles. */
  method GetUniqueImageUrls(items: seq<ImageItem>) returns (r: Result<seq<Image>>)
    ensures r == UniqueImages(items)
  {
    var titles: seq<Option<string>> := [];
    var kept: seq<Image> := [];
    var i := 0;
    while i < |items|
      invariant 0 <= i <= |items|
      invariant UniqueImages(items[..i]) == Ok(kept)
      invariant |titles| == |kept| && forall k :: 0 <= k < |kept| ==> titles[k] == kept[k].title
    {
      assert items[..i + 1][..i] == items[..i];
      var it := items[i];
      assert HasTitle(kept, it.title) <==> it.title in titles by {
        if it.title in titles {
          var k :| 0 <= k < |titles| && titles[k] == it.title;
          assert kept[k].title == it.title;
        }
      }
      if it.title !in titles {
        if it.link.None? {
          assert UniqueImages(items[..i + 1]) == Err(NoneLink);
          assert forall n :: i + 1 <= n <= |items| ==> UniqueImages(items[..n]) == Err(NoneLink) by {
            forall n | i + 1 <= n <= |items|
              ensures UniqueImages(items[..n]) == Err(NoneLink)
            {
              ErrorPersists(items, i + 1, n);
            }
          }
          assert items[..|items|] == items;
          return Err(NoneLink);
        }
        if HasImageExtension(it.link.value) {
          titles := titles + [it.title];
          kept := kept + [Image(it.title, it.link.value)];
        }
      }
      i := i + 1;
    }
    assert items[..i] == items;
    r := Ok(kept);
  }

  /** Once a prefix raises, every longer prefix raises the same error. */
  lemma {:induction false} ErrorPersists(items: seq<ImageItem>, m: nat, n: nat)
    requires m <= n <= |items| && UniqueImages(items[..m]).Err?
    ensures UniqueImages(items[..n]) == UniqueImages(items[..m])
    decreases n - m
  {
    if m < n {
      assert items[..m + 1][..m] == items[..m];
      ErrorPersists(items, m + 1, n);
    }
  }

  /** The kept images have pairwise distinct titles, every link ends with an image
      extension (ignoring case), and each comes from an input item. */
  lemma {:induction false} UniqueImagesShape(items: seq<ImageItem>)
    requires UniqueImages(items).Ok?
    ensures var kept := UniqueImages(items).value;
      (forall j, k :: 0 <= j < k < |kept| ==> kept[j].title != kept[k].title) &&
      (forall k :: 0 <= k < |kept| ==> HasImageExtension(kept[k].link)) &&
      |kept| <= |items|
  {
    if items != [] {
      UniqueImagesShape(items[..|items| - 1]);
    }
  }

  /** The kept images are a subsequence of the items, in input order: `idx` gives,
      for each kept image, the position of the item it copies. */
  lemma {:induction false} UniqueImagesSubsequence(items: seq<ImageItem>) returns (idx: seq<nat>)
    requires UniqueImages(items).Ok?
    ensures var kept := UniqueImages(items).value;
      |idx| == |kept| &&
      (forall j, k :: 0 <= j < k < |idx| ==> idx[j] < idx[k]) &&
      (forall k :: 0 <= k < |idx| ==> idx[k] < |items| && items[idx[k]] == ImageItem(kept[k].title, Some(kept[k].link)))
  {
    if items == [] {
      idx := [];
    } else {
      var n := |items| - 1;
      var prev := UniqueImagesSubsequence(items[..n]);
      var kept := UniqueImages(items[..n]).value;
      assert forall k :: 0 <= k < |prev| ==> items[prev[k]] == items[..n][prev[k]];
      if UniqueImages(items).value == kept {
        idx := prev;
      } else {
        idx := prev + [n];
      }
    }
  }

  /** When every item has a link, nothing raises. */
  lemma {:induction false} LinksPresentNoError(items: seq<ImageItem>)
    requires forall k :: 0 <= k < |items| ==> items[k].link.Some?
    ensures UniqueImages(items).Ok?
  {
    if items != [] {
      var n := |items| - 1;
      assert forall k :: 0 <= k < n ==> items[..n][k] == items[k];
      LinksPresentNoError(items[..n]);
    }
  }

  /** The item's link is present and ends with an image extension. */
  predicate Eligible(it: ImageItem) {
    it.link.Some? && HasImageExtension(it.link.value)
  }

  /** A prefix of items that raise nothing raises nothing. */
  lemma {:induction false} OkPrefix(items: seq<ImageItem>, m: nat, n: nat)
    requires m <= n <= |items| && UniqueImages(items[..n]).Ok?
    ensures UniqueImages(items[..m]).Ok?
    decreases n - m
  {
    if m < n {
      OkPrefix(items, m + 1, n);
      assert items[..m + 1][..m] == items[..m];
    }
  }

  /** Some of the first `n` items has title `t` and an image link. */
  predicate ImageTitled(items: seq<ImageItem>, n: nat, t: Option<string>) {
    exists j :: 0 <= j < n && j < |items| && items[j].title == t && Eligible(items[j])
  }

  /** After the first `n` items, a title is among the kept images exactly when one
      of those items with that title has an image link. */
  lemma {:induction false} KeptTitlesPrefix(items: seq<ImageItem>, n: nat, t: Option<string>)
    requires n <= |items| && UniqueImages(items[..n]).Ok?
    ensures HasTitle(UniqueImages(items[..n]).value, t) <==> ImageTitled(items, n, t)
  {
    if n > 0 {
      var q := items[..n];
      var m := n - 1;
      assert q[..m] == items[..m] && q[m] == items[m];
      LastStep(q);
      var kept := UniqueImages(items[..m]).value;
      var it := items[m];
      KeptTitlesPrefix(items, m, t);
      KeptTitlesPrefix(items, m, it.title);
      ImageTitledStep(items, m, t);
      if UniqueImages(q).value != kept {
        HasTitleAppend(kept, Image(it.title, it.link.value), t);
      }
    }
  }

  /** One more kept image adds exactly its own title. */
  lemma HasTitleAppend(kept: seq<Image>, img: Image, t: Option<string>)
    ensures HasTitle(kept + [img], t) <==> HasTitle(kept, t) || img.title == t
  {
    if HasTitle(kept + [img], t) {
      var k :| 0 <= k < |kept| + 1 && (kept + [img])[k].title == t;
      if k < |kept| {
        assert kept[k].title == t;
      }
    }
    if img.title == t {
      assert (kept + [img])[|kept|].title == t;
    }
    if HasTitle(kept, t) {
      var k :| 0 <= k < |kept| && kept[k].title == t;
      assert (kept + [img])[k].title == t;
    }
  }

  /** One more item adds its title when its link is an image link. */
  lemma ImageTitledStep(items: seq<ImageItem>, m: nat, t: Option<string>)
    requires m < |items|
    ensures ImageTitled(items, m + 1, t) <==> ImageTitled(items, m, t) || (items[m].title == t && Eligible(items[m]))
  {
    if ImageTitled(items, m + 1, t) {
      var j :| 0 <= j < m + 1 && j < |items| && items[j].title == t && Eligible(items[j]);
      if j < m {
        assert ImageTitled(items, m, t);
      }
    }
  }

  /** A title is among the kept images exactly when some item with that title has
      an image link: the first such item is kept, so no title is recorded for an
      item that was refused. */
  lemma KeptTitles(items: seq<ImageItem>, t: Option<string>)
    requires UniqueImages(items).Ok?
    ensures HasTitle(UniqueImages(items).value, t) <==>
      exists j :: 0 <= j < |items| && items[j].title == t && Eligible(items[j])
  {
    assert items[..|items|] == items;
    KeptTitlesPrefix(items, |items|, t);
  }

  /** Item `i` is copied exactly when its link is an image link and no earlier item
      with its title has one; otherwise it adds nothing. */
  lemma ItemKept(items: seq<ImageItem>, i: nat)
    requires UniqueImages(items).Ok? && i < |items|
    ensures UniqueImages(items[..i]).Ok? && UniqueImages(items[..i + 1]).Ok?
    ensures UniqueImages(items[..i + 1]).value == UniqueImages(items[..i]).value +
      if Eligible(items[i]) && !ImageTitled(items, i, items[i].title)
      then [Image(items[i].title, items[i].link.value)] else []
  {
    assert items[..|items|] == items;
    OkPrefix(items, i + 1, |items|);
    var q := items[..i + 1];
    assert q[..i] == items[..i] && q[i] == items[i];
    LastStep(q);
    KeptTitlesPrefix(items, i, items[i].title);
  }

  /** The last item of a sequence that raises nothing: kept exactly when its title
      is new and its link is an image link. */
  lemma LastStep(q: seq<ImageItem>)
    requires q != [] && UniqueImages(q).Ok?
    ensures var n := |q| - 1;
      UniqueImages(q[..n]).Ok? &&
      UniqueImages(q).value == UniqueImages(q[..n]).value +
        if !HasTitle(UniqueImages(q[..n]).value, q[n].title) && Eligible(q[n]) then [Image(q[n].title, q[n].link.value)] else []
  {
  }

  /** A title is recorded only when its item is kept: after an item is refused for
      its extension, a later item with the same title is still kept. */
  lemma RefusedTitleStaysFree()
    ensures UniqueImages([ImageItem(Some("cat"), Some("cat.svg")), ImageItem(Some("cat"), Some("cat.PNG"))])
      == Ok([Image(Some("cat"), "cat.PNG")])
  {
    var a := ImageItem(Some("cat"), Some("cat.svg"));
    var b := ImageItem(Some("cat"), Some("cat.PNG"));
    assert [a, b][..1] == [a];
    assert [a][..0] == [];
    assert LowerStr("cat.svg") == "cat.svg";
    assert LowerStr("cat.PNG") == "cat.png";
    assert EndsWith("cat.png", ".png");
    assert HasImageExtension("cat.PNG");
    assert !EndsWith("cat.svg", ".jpg") && !EndsWith("cat.svg", ".jpeg");
    assert !EndsWith("cat.svg", ".png") && !EndsWith("cat.svg", ".gif");
    assert !HasImageExtension("cat.svg");
    assert !HasTitle([], Some("cat"));
    assert UniqueImages([a]) == Ok([]);
    assert [a, b][|[a, b]| - 1] == b;
    var kept: seq<Image> := [];
    assert UniqueImages([a, b]) == Ok(kept + [Image(Some("cat"), "cat.PNG")]);
    assert kept + [Image(Some("cat"), "cat.PNG")] == [Image(Some("cat"), "cat.PNG")];
  }
}
