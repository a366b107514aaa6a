/**
 * The model behind the search-results browser.  It turns the objects found
 * by a search into display nodes, grouped by kind in a fixed order; it
 * decides which thumbnail batches to request, one per group that has
 * images; it stores the thumbnails as they arrive; and it keeps the tables
 * to refresh once they have arrived.
 *
 * Domain objects are plain values.  The loaders, the browser built from
 * the nodes and the tables themselves are outside the model: a requested
 * batch is returned, a refreshed table is recorded in a log.
 */
module SearchResults {
  import opened Optional

  /** The classes of domain object the model distinguishes; Other stands for every other class. */
  datatype Kind = Project | Dataset | Image | Screen | Plate | Other

  /** A domain object found by the search. */
  datatype DataObject = DataObject(kind: Kind, id: int, groupId: int)

  /** A display node: images become image nodes, containers become image sets. */
  datatype ImageDisplay = ImageNode(obj: DataObject) | ImageSet(obj: DataObject)

  /** The pixels of a loaded thumbnail, opaque to the model. */
  datatype Picture = Picture(width: nat, height: nat, pixels: seq<int>)

  /** The thumbnail stored for an image object. */
  datatype Thumbnail = Thumbnail(refObj: DataObject, fullScale: Picture)

  /** A table showing the results, by identity. */
  type TableRef = nat

  /** The objects of the given kind, in order: what the result collection yields for that class. */
  function OfKind(results: seq<DataObject>, k: Kind): (s: seq<DataObject>)
    ensures forall o :: o in s <==> o in results && o.kind == k
    ensures |s| <= |results|
    decreases |results|
  {
    if results == [] then []
    else
      var o := results[|results| - 1];
      var init := OfKind(results[..|results| - 1], k);
      if o.kind == k then init + [o] else init
  }

  predicate Displayable(o: DataObject)
  {
    o.kind != Other
  }

  /** The objects that get a display node, in order. */
  function DisplayableOf(objs: seq<DataObject>): (s: seq<DataObject>)
    ensures forall o :: o in s <==> o in objs && Displayable(o)
    decreases |objs|
  {
    if objs == [] then []
    else
      var o := objs[|objs| - 1];
      var init := DisplayableOf(objs[..|objs| - 1]);
      if Displayable(o) then init + [o] else init
  }

  /** The node built for an object. */
  function DisplayOf(o: DataObject): ImageDisplay
  {
    if o.kind == Image then ImageNode(o) else ImageSet(o)
  }

  /** The objects behind a list of nodes. */
  function Objects(ds: seq<ImageDisplay>): (objs: seq<DataObject>)
    ensures |objs| == |ds| && forall i :: 0 <= i < |ds| ==> objs[i] == ds[i].obj
  {
    seq(|ds|, i requires 0 <= i < |ds| => ds[i].obj)
  }

  /**
   * `createDisplays`: one node per displayable object, in input order, an
   * image node for an image and an image set for the other kinds; every
   * other object is dropped.
   */
  method CreateDisplays(objs: seq<DataObject>) returns (result: seq<ImageDisplay>)
    ensures Objects(result) == DisplayableOf(objs)
    ensures forall i :: 0 <= i < |result| ==> result[i] == DisplayOf(result[i].obj)
  {
    result := [];
    var i := 0;
    while i < |objs|
      invariant 0 <= i <= |objs|
      invariant Objects(result) == DisplayableOf(objs[..i])
      invariant forall j :: 0 <= j < |result| ==> result[j] == DisplayOf(result[j].obj)
    {
      var obj := objs[i];
      var d: Option<ImageDisplay> := None;
      if obj.kind == Image {
        d := Some(ImageNode(obj));
      } else if obj.kind == Project || obj.kind == Dataset || obj.kind == Screen || obj.kind == Plate {
        d := Some(ImageSet(obj));
      }
      if d.Some? {
        result := result + [d.value];
      }
      i := i + 1;
      assert objs[..i][..i - 1] == objs[..i - 1];
    }
    assert objs[..|objs|] == objs;
  }

  /** All objects of one kind are displayable, so filtering them changes nothing. */
  lemma {:induction false} OfKindDisplayable(results: seq<DataObject>, k: Kind)
    requires k != Other
    ensures DisplayableOf(OfKind(results, k)) == OfKind(results, k)
    decreases |results|
  {
    if results != [] {
      var init := results[..|results| - 1];
      OfKindDisplayable(init, k);
      var o := results[|results| - 1];
      if o.kind == k {
        var s := OfKind(init, k) + [o];
        assert s[..|s| - 1] == OfKind(init, k);
      }
    }
  }

  /** The position of a kind in the display order. */
  function Rank(k: Kind): nat
  {
    match k
    case Project => 0
    case Dataset => 1
    case Image => 2
    case Screen => 3
    case Plate => 4
    case Other => 5
  }

  /** The search results in display order: projects, datasets, images, screens, plates. */
  function ByKind(results: seq<DataObject>): seq<DataObject>
  {
    OfKind(results, Project) + OfKind(results, Dataset) + OfKind(results, Image)
      + OfKind(results, Screen) + OfKind(results, Plate)
  }

  predicate RankSorted(objs: seq<DataObject>)
  {
    forall i, j :: 0 <= i < j < |objs| ==> Rank(objs[i].kind) <= Rank(objs[j].kind)
  }

  lemma AppendRankSorted(a: seq<DataObject>, b: seq<DataObject>)
    requires RankSorted(a) && RankSorted(b)
    requires forall x, y :: x in a && y in b ==> Rank(x.kind) <= Rank(y.kind)
    ensures RankSorted(a + b)
  {
    forall i, j | 0 <= i < j < |a + b|
      ensures Rank((a + b)[i].kind) <= Rank((a + b)[j].kind)
    {
      if i < |a| && j >= |a| {
        assert (a + b)[i] in a && (a + b)[j] in b;
      }
    }
  }

  lemma OneKindRankSorted(results: seq<DataObject>, k: Kind)
    ensures RankSorted(OfKind(results, k))
  {
    var s := OfKind(results, k);
    forall i, j | 0 <= i < j < |s| ensures Rank(s[i].kind) <= Rank(s[j].kind) {
      assert s[i] in s && s[j] in s;
    }
  }

  /** The displays are ordered by kind. */
  lemma ByKindIsRankSorted(results: seq<DataObject>)
    ensures RankSorted(ByKind(results))
  {
    var p, d, i, s, l := OfKind(results, Project), OfKind(results, Dataset), OfKind(results, Image),
                         OfKind(results, Screen), OfKind(results, Plate);
    OneKindRankSorted(results, Project);
    OneKindRankSorted(results, Dataset);
    OneKindRankSorted(results, Image);
    OneKindRankSorted(results, Screen);
    OneKindRankSorted(results, Plate);
    AppendRankSorted(p, d);
    forall x: DataObject, y: DataObject | x in p + d && y in i ensures Rank(x.kind) <= Rank(y.kind) { }
    AppendRankSorted(p + d, i);
    forall x: DataObject, y: DataObject | x in p + d + i && y in s ensures Rank(x.kind) <= Rank(y.kind) { }
    AppendRankSorted(p + d + i, s);
    forall x: DataObject, y: DataObject | x in p + d + i + s && y in l ensures Rank(x.kind) <= Rank(y.kind) { }
    AppendRankSorted(p + d + i + s, l);
  }

  /** The displays show each displayable result exactly as often as it occurs: nothing is lost or added. */
  lemma {:induction false} ByKindIsPermutation(results: seq<DataObject>)
    ensures multiset(ByKind(results)) == multiset(DisplayableOf(results))
    decreases |results|
  {
    if results != [] {
      var init := results[..|results| - 1];
      ByKindIsPermutation(init);
    }
  }

  /** The objects of `objs` in group `g`, in order. */
  function OfGroup(objs: seq<DataObject>, g: int): (s: seq<DataObject>)
    ensures forall o :: o in s <==> o in objs && o.groupId == g
    decreases |objs|
  {
    if objs == [] then []
    else
      var o := objs[|objs| - 1];
      var init := OfGroup(objs[..|objs| - 1], g);
      if o.groupId == g then init + [o] else init
  }

  /** The image objects of `objs`, in order. */
  function ImagesOf(objs: seq<DataObject>): (s: seq<DataObject>)
    ensures forall o :: o in s <==> o in objs && o.kind == Image
    decreases |objs|
  {
    if objs == [] then []
    else
      var o := objs[|objs| - 1];
      var init := ImagesOf(objs[..|objs| - 1]);
      if o.kind == Image then init + [o] else init
  }

  /** Whether an image display carries `id`: the test `setThumbnail` applies. */
  predicate ShowsImage(d: ImageDisplay, id: int)
  {
    d.obj.kind == Image && d.obj.id == id
  }

  /** The object of the first image display whose id is `id`, if any. */
  function FirstImageWithId(ds: seq<ImageDisplay>, id: int): Option<DataObject>
    decreases |ds|
  {
    if ds == [] then None
    else if ShowsImage(ds[0], id) then Some(ds[0].obj)
    else FirstImageWithId(ds[1..], id)
  }

  /** The search finds the first match, and finds none only when no display matches. */
  lemma {:induction false} FirstImageWithIdIsFirst(ds: seq<ImageDisplay>, id: int)
    ensures FirstImageWithId(ds, id).None? <==> forall i :: 0 <= i < |ds| ==> !ShowsImage(ds[i], id)
    ensures FirstImageWithId(ds, id).Some? ==>
      exists i :: 0 <= i < |ds| && ShowsImage(ds[i], id) && ds[i].obj == FirstImageWithId(ds, id).value
        && forall j :: 0 <= j < i ==> !ShowsImage(ds[j], id)
    decreases |ds|
  {
    if ds != [] && !ShowsImage(ds[0], id) {
      FirstImageWithIdIsFirst(ds[1..], id);
      if FirstImageWithId(ds, id).Some? {
        var i :| 0 <= i < |ds[1..]| && ShowsImage(ds[1..][i], id)
          && ds[1..][i].obj == FirstImageWithId(ds[1..], id).value
          && forall j :: 0 <= j < i ==> !ShowsImage(ds[1..][j], id);
        assert ShowsImage(ds[i + 1], id);
        forall j | 0 <= j < i + 1 ensures !ShowsImage(ds[j], id) {
          if j > 0 { assert ds[j] == ds[1..][j - 1]; }
        }
      } else {
        forall i | 0 <= i < |ds| ensures !ShowsImage(ds[i], id) {
          if i > 0 { assert ds[i] == ds[1..][i - 1]; }
        }
      }
    } else if ds != [] {
      assert ShowsImage(ds[0], id);
    }
  }

  /** `addAll` on the displays: the nodes of `b` after those of `a`. */
  method Joined(a: seq<ImageDisplay>, b: seq<ImageDisplay>) returns (ab: seq<ImageDisplay>)
    requires forall i :: 0 <= i < |a| ==> a[i] == DisplayOf(a[i].obj)
    requires forall i :: 0 <= i < |b| ==> b[i] == DisplayOf(b[i].obj)
    ensures Objects(ab) == Objects(a) + Objects(b)
    ensures forall i :: 0 <= i < |ab| ==> ab[i] == DisplayOf(ab[i].obj)
  {
    ab := a + b;
    assert forall i :: 0 <= i < |ab| ==> ab[i] == if i < |a| then a[i] else b[i - |a|];
  }

  /** The outcome of constructing the model: a new model, or the argument error raised for null results. */
  datatype Created = Created(model: AdvancedResultSearchModel) | IllegalArgument(message: string)

  /**
   * The constructor's argument check: null results raise an argument error,
   * other results give a new model.
   */
  method Create(results: Option<seq<DataObject>>) returns (r: Created)
    ensures results.None? <==> r.IllegalArgument?
    ensures r.IllegalArgument? ==> r.message == "No results."
    ensures r.Created? ==> fresh(r.model) && Objects(r.model.displays) == ByKind(results.value)
  {
    if results.None? {
      return IllegalArgument("No results.");
    }
    var m := new AdvancedResultSearchModel(results.value);
    r := Created(m);
  }

  /** Each image lands in the batch of its own group and in no other. */
  lemma ImageInItsOwnBatch(objs: seq<DataObject>, o: DataObject, g: int)
    requires o in objs
    ensures o in ImagesOf(OfGroup(objs, g)) <==> o.kind == Image && o.groupId == g
  {
  }

  /** A group none of the objects belongs to has an empty list. */
  lemma {:induction false} NoneOfGroup(objs: seq<DataObject>, g: int)
    requires forall o :: o in objs ==> o.groupId != g
    ensures OfGroup(objs, g) == []
    decreases |objs|
  {
    if objs != [] {
      NoneOfGroup(objs[..|objs| - 1], g);
    }
  }

  /**
   * The first loop of `loadThumbs`: the objects split by group, each group's
   * list in input order, and the group ids in the order they were first met.
   */
  method GroupObjects(objs: seq<DataObject>) returns (groups: map<int, seq<DataObject>>, order: seq<int>)
    ensures forall g :: g in groups <==> exists o :: o in objs && o.groupId == g
    ensures forall g :: g in groups ==> groups[g] == OfGroup(objs, g)
    ensures forall g :: g in order <==> g in groups
  {
    groups := map[];
    order := [];
    var i := 0;
    while i < |objs|
      invariant 0 <= i <= |objs|
      invariant forall g :: g in groups <==> exists o :: o in objs[..i] && o.groupId == g
      invariant forall g :: g in groups ==> groups[g] == OfGroup(objs[..i], g)
      invariant forall g :: g in order <==> g in groups
    {
      var obj := objs[i];
      var list := [];
      if obj.groupId in groups {
        list := groups[obj.groupId];
      } else {
        NoneOfGroup(objs[..i], obj.groupId);
        order := order + [obj.groupId];
      }
      assert objs[..i + 1] == objs[..i] + [obj];
      assert objs[..i + 1][..i] == objs[..i];
      groups := groups[obj.groupId := list + [obj]];
      i := i + 1;
    }
    assert objs[..|objs|] == objs;
  }

  /**
   * The second loop of `loadThumbs`: the images of each group's list, for
   * the groups that have any.  The groups are visited in the order given;
   * the result does not depend on it.
   */
  method ImageBatches(groups: map<int, seq<DataObject>>, order: seq<int>) returns (batches: map<int, seq<DataObject>>)
    requires forall g :: g in order <==> g in groups
    ensures forall g :: g in batches <==> g in groups && ImagesOf(groups[g]) != []
    ensures forall g :: g in batches ==> batches[g] == ImagesOf(groups[g])
  {
    batches := map[];
    var n := 0;
    while n < |order|
      invariant 0 <= n <= |order|
      invariant forall g :: g in batches ==>
        g in order[..n] && batches[g] == ImagesOf(groups[g]) && batches[g] != []
      invariant forall g :: g in order[..n] && ImagesOf(groups[g]) != [] ==> g in batches
    {
      var g := order[n];
      var entry := groups[g];
      var imgs: seq<DataObject> := [];
      var k := 0;
      while k < |entry|
        invariant 0 <= k <= |entry|
        invariant imgs == ImagesOf(entry[..k])
      {
        if entry[k].kind == Image {
          imgs := imgs + [entry[k]];
        }
        k := k + 1;
        assert entry[..k][..k - 1] == entry[..k - 1];
      }
      assert entry[..|entry|] == entry;
      if imgs != [] {
        batches := batches[g := imgs];
      }
      assert order[..n + 1] == order[..n] + [g];
      n := n + 1;
    }
    assert order[..|order|] == order;
  }

  class AdvancedResultSearchModel {
    /** The display nodes, in display order. */
    var displays: seq<ImageDisplay>
    /** The thumbnails received, by image object. */
    var thumbs: map<DataObject, Thumbnail>
    /** The tables to refresh, in registration order. */
    var tables: seq<TableRef>
    /** Every refresh of a table so far, oldest first. */
    var refreshed: seq<TableRef>

    /**
     * One node per project, dataset, image, screen and plate found, in that
     * order of kinds and in result order within a kind.
     */
    constructor (results: seq<DataObject>)
      ensures Objects(displays) == ByKind(results)
      ensures forall i :: 0 <= i < |displays| ==> displays[i] == DisplayOf(displays[i].obj)
      ensures thumbs == map[] && tables == [] && refreshed == []
    {
      var projects := CreateDisplays(OfKind(results, Project));
      OfKindDisplayable(results, Project);
      var datasets := CreateDisplays(OfKind(results, Dataset));
      OfKindDisplayable(results, Dataset);
      var imgNodes := CreateDisplays(OfKind(results, Image));
      OfKindDisplayable(results, Image);
      var screens := CreateDisplays(OfKind(results, Screen));
      OfKindDisplayable(results, Screen);
      var plates := CreateDisplays(OfKind(results, Plate));
      OfKindDisplayable(results, Plate);
      var all := Joined(projects, datasets);
      all := Joined(all, imgNodes);
      all := Joined(all, screens);
      all := Joined(all, plates);
      displays := all;
      thumbs := map[];
      tables := [];
      refreshed := [];
    }

    /** Adds a table to the end of the tables to refresh. */
    method RegisterTable(table: TableRef)
      modifies this`tables
      ensures tables == old(tables) + [table]
    {
      tables := tables + [table];
    }

    /**
     * The thumbnail batches `loadThumbs` requests, keyed by group: a batch
     * for each group that has images among the displays, holding that
     * group's images in display order.
     */
    method LoadThumbs() returns (batches: map<int, seq<DataObject>>)
      ensures forall g :: g in batches <==>
        exists o :: o in Objects(displays) && o.kind == Image && o.groupId == g
      ensures forall g :: g in batches ==> batches[g] == ImagesOf(OfGroup(Objects(displays), g))
    {
      var objs := Objects(displays);
      var groups, order := GroupObjects(objs);
      batches := ImageBatches(groups, order);
      forall g ensures g in batches <==> exists o :: o in objs && o.kind == Image && o.groupId == g {
        if exists o :: o in objs && o.kind == Image && o.groupId == g {
          var o :| o in objs && o.kind == Image && o.groupId == g;
          assert o in ImagesOf(groups[g]);
        }
        if g in batches {
          var o := batches[g][0];
          assert o in ImagesOf(groups[g]);
        }
      }
    }

    /**
     * Stores `img` as the thumbnail of the first image display with id
     * `imgId`; when no display matches, nothing changes.
     */
    method SetThumbnail(imgId: int, img: Picture)
      modifies this`thumbs
      ensures FirstImageWithId(displays, imgId).None? ==> thumbs == old(thumbs)
      ensures FirstImageWithId(displays, imgId).Some? ==>
        var o := FirstImageWithId(displays, imgId).value;
        thumbs == old(thumbs)[o := Thumbnail(o, img)]
      ensures forall x :: (GetThumbnail(x) ==
                             if FirstImageWithId(displays, imgId) == Some(x) then Some(Thumbnail(x, img))
                             else old(GetThumbnail(x)))
    {
      var i := 0;
      while i < |displays|
        invariant 0 <= i <= |displays|
        invariant FirstImageWithId(displays, imgId) == FirstImageWithId(displays[i..], imgId)
        invariant thumbs == old(thumbs)
      {
        var d := displays[i];
        if d.obj.kind == Image && d.obj.id == imgId {
          var refObj := d.obj;
          thumbs := thumbs[refObj := Thumbnail(refObj, img)];
          return;
        }
        assert displays[i..][1..] == displays[i + 1..];
        i := i + 1;
      }
    }

    /** The thumbnail stored for `refObj`, if any. */
    function GetThumbnail(refObj: DataObject): (t: Option<Thumbnail>)
      reads this
      ensures t.Some? <==> refObj in thumbs
      ensures t.Some? ==> t.value == thumbs[refObj]
    {
      if refObj in thumbs then Some(thumbs[refObj]) else None
    }

    /** Refreshes every registered table once, in registration order. */
    method NotifyThumbsLoaded()
      modifies this`refreshed
      ensures refreshed == old(refreshed) + tables
    {
      var i := 0;
      while i < |tables|
        invariant 0 <= i <= |tables|
        invariant refreshed == old(refreshed) + tables[..i]
      {
        refreshed := refreshed + [tables[i]];
        i := i + 1;
        assert tables[..i] == tables[..i - 1] + [tables[i - 1]];
      }
      assert tables[..|tables|] == tables;
    }
  }
}
