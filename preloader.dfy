/**
 * src/utils/preloader.js: the asset manifest tracker. `load` adopts a
 * manifest and starts one request per item of a recognised type, in a
 * fixed order of types; every completed request flags its item and stores
 * the payload, then reports completion once every item is flagged. The
 * getters return a payload by item id.
 */
module Preload {
  import opened Wrappers
  import opened Seqs

  /** A loaded object (cube map, geometry, texture, font or image); always truthy. */
  datatype Payload = Payload(handle: nat)

  /** A manifest record. `isLoaded` is absent until `start` sets it. */
  datatype Asset = Asset(
    assetType: string, url: string, id: string, isLoaded: Option<bool>,
    hdrCubeMap: Option<Payload>, object3d: Option<Payload>, texture: Option<Payload>,
    font: Option<Payload>, image: Option<Payload>)

  /** The loaders, in the order `start` issues their requests. */
  datatype LoaderKind = HdrCubeLoader | JsonLoader | GltfLoader | FbxLoader | TextureLoader | FontLoader | ImageLoader

  const StartOrder: seq<LoaderKind> :=
    [HdrCubeLoader, JsonLoader, GltfLoader, FbxLoader, TextureLoader, FontLoader, ImageLoader]

  /** The manifest type each loader serves. */
  function TypeName(k: LoaderKind): string
  {
    match k
    case HdrCubeLoader => "HDRCubeMap"
    case JsonLoader => "JsonModel"
    case GltfLoader => "GLTF"
    case FbxLoader => "FBX"
    case TextureLoader => "Texture"
    case FontLoader => "Font"
    case ImageLoader => "Image"
  }

  predicate KnownType(t: string)
  {
    exists k: LoaderKind :: TypeName(k) == t
  }

  lemma TypeNamesDistinct(j: LoaderKind, k: LoaderKind)
    ensures TypeName(j) == TypeName(k) ==> j == k
  {
  }

  /** The seven recognised type names. */
  lemma KnownTypeNames(t: string)
    ensures KnownType(t) <==>
      t == "HDRCubeMap" || t == "JsonModel" || t == "GLTF" || t == "FBX"
      || t == "Texture" || t == "Font" || t == "Image"
  {
    if t == "HDRCubeMap" { assert TypeName(HdrCubeLoader) == t; }
    if t == "JsonModel" { assert TypeName(JsonLoader) == t; }
    if t == "GLTF" { assert TypeName(GltfLoader) == t; }
    if t == "FBX" { assert TypeName(FbxLoader) == t; }
    if t == "Texture" { assert TypeName(TextureLoader) == t; }
    if t == "Font" { assert TypeName(FontLoader) == t; }
    if t == "Image" { assert TypeName(ImageLoader) == t; }
  }

  /** The usage example's type 'Fbx' has no loader: such items are never requested. */
  lemma FbxSpelledFbxIsUnknown()
    ensures !KnownType("Fbx")
  {
    KnownTypeNames("Fbx");
    assert "Fbx" != "FBX" by { assert "Fbx"[1] != "FBX"[1]; }
  }

  /** JavaScript truthiness of an optional flag. */
  predicate Truthy(b: Option<bool>)
  {
    b == Some(true)
  }

  /** Every item flagged: what `checkManifestCompletion` computes. */
  predicate AllLoaded(m: seq<Asset>)
  {
    forall i :: 0 <= i < |m| ==> Truthy(m[i].isLoaded)
  }

  // ---------------------------------------------------------------- by type

  /** `getManifestByType`: the items of type `t`, in manifest order. */
  function ByType(m: seq<Asset>, t: string): (r: seq<Asset>)
    ensures |r| <= |m|
    ensures forall a :: a in r ==> a.assetType == t
  {
    if m == [] then []
    else (if m[0].assetType == t then [m[0]] else []) + ByType(m[1..], t)
  }

  /** The filter keeps exactly the items of type `t`. */
  lemma {:induction false} ByTypeMembers(m: seq<Asset>, t: string, a: Asset)
    ensures a in ByType(m, t) <==> a in m && a.assetType == t
  {
    if m != [] {
      ByTypeMembers(m[1..], t, a);
      assert m == [m[0]] + m[1..];
    }
  }

  /** Filtering keeps order: it distributes over concatenation. */
  lemma {:induction false} ByTypeAppend(m1: seq<Asset>, m2: seq<Asset>, t: string)
    ensures ByType(m1 + m2, t) == ByType(m1, t) + ByType(m2, t)
    decreases |m1|
  {
    if m1 != [] {
      var head := if m1[0].assetType == t then [m1[0]] else [];
      assert m1 + m2 != [] && (m1 + m2)[0] == m1[0];
      assert (m1 + m2)[1..] == m1[1..] + m2;
      ByTypeAppend(m1[1..], m2, t);
      calc {
        ByType(m1 + m2, t);
        head + ByType(m1[1..] + m2, t);
        head + (ByType(m1[1..], t) + ByType(m2, t));
        (head + ByType(m1[1..], t)) + ByType(m2, t);
        ByType(m1, t) + ByType(m2, t);
      }
    } else {
      assert m1 + m2 == m2;
    }
  }

  /** A request issued by `start`: the item it loads and the loader it goes to. */
  datatype Request = Request(index: nat, kind: LoaderKind)

  /** The requests one block of `start` issues for the first `n` items, in manifest order. */
  function KindRequestsUpTo(m: seq<Asset>, k: LoaderKind, n: nat): (rs: seq<Request>)
    requires n <= |m|
    ensures forall r :: r in rs ==> r.index < n && r.kind == k && m[r.index].assetType == TypeName(k)
  {
    if n == 0 then []
    else
      var rs := KindRequestsUpTo(m, k, n - 1);
      if m[n - 1].assetType == TypeName(k) then rs + [Request(n - 1, k)] else rs
  }

  /** A block requests its items in manifest order, each once. */
  lemma {:induction false} KindRequestsIncreasing(m: seq<Asset>, k: LoaderKind, n: nat)
    requires n <= |m|
    ensures forall a, b :: 0 <= a < b < |KindRequestsUpTo(m, k, n)| ==>
      KindRequestsUpTo(m, k, n)[a].index < KindRequestsUpTo(m, k, n)[b].index
  {
    if n > 0 {
      KindRequestsIncreasing(m, k, n - 1);
      var rs := KindRequestsUpTo(m, k, n - 1);
      if m[n - 1].assetType == TypeName(k) {
        var rs' := rs + [Request(n - 1, k)];
        assert KindRequestsUpTo(m, k, n) == rs';
        forall a, b | 0 <= a < b < |rs'| ensures rs'[a].index < rs'[b].index {
          assert rs'[a] == rs[a] && rs[a] in rs;
          if b < |rs| {
            assert rs'[b] == rs[b] && rs[a].index < rs[b].index;
          } else {
            assert rs'[b] == Request(n - 1, k) && rs[a].index < n - 1;
          }
        }
      }
    }
  }

  function KindRequests(m: seq<Asset>, k: LoaderKind): (rs: seq<Request>)
    ensures forall r :: r in rs ==> r.index < |m| && r.kind == k && m[r.index].assetType == TypeName(k)
  {
    KindRequestsUpTo(m, k, |m|)
  }

  /** The items a run of requests loads, in request order. */
  function ItemsOf(m: seq<Asset>, rs: seq<Request>): seq<Asset>
    requires forall q :: q in rs ==> q.index < |m|
    decreases |rs|
  {
    if rs == [] then []
    else
      var last := |rs| - 1;
      assert forall q :: q in rs[..last] ==> q in rs;
      ItemsOf(m, rs[..last]) + [m[rs[last].index]]
  }

  /** One more request loads one more item. */
  lemma ItemsOfSnoc(m: seq<Asset>, rs: seq<Request>, q: Request)
    requires (forall r :: r in rs ==> r.index < |m|) && q.index < |m|
    ensures ItemsOf(m, rs + [q]) == ItemsOf(m, rs) + [m[q.index]]
  {
    assert (rs + [q])[..|rs|] == rs;
  }

  /** One block's requests load exactly `getManifestByType`'s items, in its order. */
  lemma {:induction false} KindRequestsFollowByType(m: seq<Asset>, k: LoaderKind, n: nat)
    requires n <= |m|
    ensures ItemsOf(m, KindRequestsUpTo(m, k, n)) == ByType(m[..n], TypeName(k))
  {
    if n > 0 {
      KindRequestsFollowByType(m, k, n - 1);
      var t := TypeName(k);
      var rs := KindRequestsUpTo(m, k, n - 1);
      assert m[..n] == m[..n - 1] + [m[n - 1]];
      ByTypeAppend(m[..n - 1], [m[n - 1]], t);
      if m[n - 1].assetType == t {
        ItemsOfSnoc(m, rs, Request(n - 1, k));
        assert ByType([m[n - 1]], t) == [m[n - 1]];
      } else {
        assert ByType([m[n - 1]], t) == [];
      }
    }
  }

  /** The requests of the blocks for `kinds`, one block after another. */
  function Requests(m: seq<Asset>, kinds: seq<LoaderKind>): (rs: seq<Request>)
    ensures forall r :: r in rs ==> r.index < |m|
  {
    if kinds == [] then []
    else Requests(m, kinds[..|kinds| - 1]) + KindRequests(m, kinds[|kinds| - 1])
  }

  /** Every request goes to the loader of its item's type. */
  lemma {:induction false} RequestsMatchTypes(m: seq<Asset>, kinds: seq<LoaderKind>, r: Request)
    requires r in Requests(m, kinds)
    ensures r.index < |m| && m[r.index].assetType == TypeName(r.kind)
    decreases |kinds|
  {
    var init := kinds[..|kinds| - 1];
    if r !in KindRequests(m, kinds[|kinds| - 1]) {
      RequestsMatchTypes(m, init, r);
    }
  }

  /** A block requests every item of its type, by index. */
  lemma {:induction false} KindRequestsCover(m: seq<Asset>, k: LoaderKind, n: nat, i: nat)
    requires n <= |m| && i < n && m[i].assetType == TypeName(k)
    ensures Request(i, k) in KindRequestsUpTo(m, k, n)
  {
    if i < n - 1 {
      KindRequestsCover(m, k, n - 1, i);
    }
  }

  /** Every request of the blocks for `kinds` goes to one of those blocks' loaders. */
  lemma {:induction false} RequestKinds(m: seq<Asset>, kinds: seq<LoaderKind>, r: Request)
    requires r in Requests(m, kinds)
    ensures r.kind in kinds
    decreases |kinds|
  {
    var init := kinds[..|kinds| - 1];
    if r !in KindRequests(m, kinds[|kinds| - 1]) {
      RequestKinds(m, init, r);
      assert r.kind in init;
    }
  }

  /** The blocks for `kinds` request every item whose type one of them serves. */
  lemma {:induction false} RequestsCover(m: seq<Asset>, kinds: seq<LoaderKind>, k: LoaderKind, i: nat)
    requires i < |m| && k in kinds && TypeName(k) == m[i].assetType
    ensures Requested(Requests(m, kinds), i)
    decreases |kinds|
  {
    var last := kinds[|kinds| - 1];
    var init := kinds[..|kinds| - 1];
    if k == last {
      KindRequestsCover(m, k, |m|, i);
      assert Request(i, k) in Requests(m, kinds);
    } else {
      assert kinds == init + [last];
      assert k in init;
      RequestsCover(m, init, k, i);
      var q :| q in Requests(m, init) && q.index == i;
      assert q in Requests(m, kinds);
    }
  }

  /** The last of pairwise distinct loaders is not among the earlier ones. */
  lemma LastNotEarlier(kinds: seq<LoaderKind>)
    requires kinds != [] && forall a, b :: 0 <= a < b < |kinds| ==> kinds[a] != kinds[b]
    ensures kinds[|kinds| - 1] !in kinds[..|kinds| - 1]
  {
  }

  /** Blocks for pairwise distinct loaders never request the same item twice. */
  lemma {:induction false} RequestsDistinct(m: seq<Asset>, kinds: seq<LoaderKind>)
    requires forall a, b :: 0 <= a < b < |kinds| ==> kinds[a] != kinds[b]
    ensures forall a, b :: 0 <= a < b < |Requests(m, kinds)| ==>
      Requests(m, kinds)[a].index != Requests(m, kinds)[b].index
    decreases |kinds|
  {
    if kinds != [] {
      var last := kinds[|kinds| - 1];
      var init := kinds[..|kinds| - 1];
      RequestsDistinct(m, init);
      KindRequestsIncreasing(m, last, |m|);
      var front, back := Requests(m, init), KindRequests(m, last);
      var rs := Requests(m, kinds);
      assert rs == front + back;
      forall a, b | 0 <= a < b < |rs|
        ensures rs[a].index != rs[b].index
      {
        if b < |front| {
          assert rs[a] == front[a] && rs[b] == front[b];
        } else if a >= |front| {
          assert rs[a] == back[a - |front|] && rs[b] == back[b - |front|];
        } else {
          var x, y := front[a], back[b - |front|];
          assert rs[a] == x && rs[b] == y && x in front && y in back;
          RequestKinds(m, init, x);
          RequestsMatchTypes(m, init, x);
          LastNotEarlier(kinds);
          TypeNamesDistinct(x.kind, last);
        }
      }
    }
  }

  /** The blocks for `kinds` request an item exactly when one of them serves its type. */
  lemma RequestedIff(m: seq<Asset>, kinds: seq<LoaderKind>, i: nat)
    requires i < |m|
    ensures Requested(Requests(m, kinds), i) <==> exists k :: k in kinds && TypeName(k) == m[i].assetType
  {
    if exists k :: k in kinds && TypeName(k) == m[i].assetType {
      var k :| k in kinds && TypeName(k) == m[i].assetType;
      RequestsCover(m, kinds, k, i);
    }
    if Requested(Requests(m, kinds), i) {
      var q :| q in Requests(m, kinds) && q.index == i;
      RequestsMatchTypes(m, kinds, q);
      RequestKinds(m, kinds, q);
    }
  }

  /**
   * `start` requests every item of a recognised type, and each item at
   * most once; an item of another type is never requested.
   */
  lemma StartRequestsEachKnownItemOnce(m: seq<Asset>, i: nat)
    requires i < |m|
    ensures Requested(Requests(m, StartOrder), i) <==> KnownType(m[i].assetType)
    ensures forall a, b :: 0 <= a < b < |Requests(m, StartOrder)| ==>
      Requests(m, StartOrder)[a].index != Requests(m, StartOrder)[b].index
  {
    RequestedIff(m, StartOrder, i);
    StartOrderServesKnownTypes(m[i].assetType);
    StartOrderDistinct();
    RequestsDistinct(m, StartOrder);
  }

  /** `start`'s seven blocks use seven different loaders. */
  lemma StartOrderDistinct()
    ensures forall a, b :: 0 <= a < b < |StartOrder| ==> StartOrder[a] != StartOrder[b]
  {
  }

  /** `value.isLoaded = false` on every item of type `t`. */
  function ClearFlags(m: seq<Asset>, t: string): (r: seq<Asset>)
    ensures |r| == |m|
    ensures forall i :: 0 <= i < |m| ==>
      r[i] == if m[i].assetType == t then m[i].(isLoaded := Some(false)) else m[i]
  {
    seq(|m|, i requires 0 <= i < |m| => if m[i].assetType == t then m[i].(isLoaded := Some(false)) else m[i])
  }

  /** A block's requests depend only on the items' types, which clearing flags keeps. */
  lemma {:induction false} KindRequestsByTypes(m: seq<Asset>, m': seq<Asset>, k: LoaderKind, n: nat)
    requires |m| == |m'| && n <= |m|
    requires forall i :: 0 <= i < |m| ==> m[i].assetType == m'[i].assetType
    ensures KindRequestsUpTo(m', k, n) == KindRequestsUpTo(m, k, n)
  {
    if n > 0 {
      KindRequestsByTypes(m, m', k, n - 1);
    }
  }

  /** The manifest after the blocks for `kinds` have cleared their items' flags. */
  function ClearedBy(m: seq<Asset>, kinds: seq<LoaderKind>): (r: seq<Asset>)
    ensures |r| == |m|
    ensures forall i :: 0 <= i < |m| ==> r[i].assetType == m[i].assetType && r[i].id == m[i].id
  {
    if kinds == [] then m
    else ClearFlags(ClearedBy(m, kinds[..|kinds| - 1]), TypeName(kinds[|kinds| - 1]))
  }

  /** Item by item: cleared exactly when some block's type names it. */
  lemma {:induction false} ClearedByItems(m: seq<Asset>, kinds: seq<LoaderKind>, i: nat)
    requires i < |m|
    ensures ClearedBy(m, kinds)[i] ==
      if exists k :: k in kinds && TypeName(k) == m[i].assetType then m[i].(isLoaded := Some(false)) else m[i]
  {
    if kinds != [] {
      var init := kinds[..|kinds| - 1];
      ClearedByItems(m, init, i);
      assert kinds == init + [kinds[|kinds| - 1]];
      assert forall k :: k in kinds <==> k in init || k == kinds[|kinds| - 1];
    }
  }

  /**
   * One more block of `start`: applied to the manifest and log the first
   * `b` blocks left, block `b` leaves what the first `b + 1` blocks leave.
   */
  lemma BlockStep(m0: seq<Asset>, kinds: seq<LoaderKind>, b: nat, m: seq<Asset>, r0: seq<Request>)
    requires b < |kinds| && m == ClearedBy(m0, kinds[..b])
    ensures ClearFlags(m, TypeName(kinds[b])) == ClearedBy(m0, kinds[..b + 1])
    ensures (r0 + Requests(m0, kinds[..b])) + KindRequests(m, kinds[b]) == r0 + Requests(m0, kinds[..b + 1])
  {
    var k := kinds[b];
    assert kinds[..b + 1][..b] == kinds[..b];
    KindRequestsByTypes(m0, m, k, |m0|);
    AppendAssoc(r0, Requests(m0, kinds[..b]), KindRequests(m0, k));
  }

  /** The manifest right after `start`: every block has cleared its items' flags. */
  function Started(m: seq<Asset>): (r: seq<Asset>)
    ensures |r| == |m|
  {
    ClearedBy(m, StartOrder)
  }

  /** Items of recognised types are unflagged; the others are left as given. */
  lemma StartedItems(m: seq<Asset>, i: nat)
    requires i < |m|
    ensures Started(m)[i] == if KnownType(m[i].assetType) then m[i].(isLoaded := Some(false)) else m[i]
  {
    ClearedByItems(m, StartOrder, i);
    StartOrderServesKnownTypes(m[i].assetType);
  }

  /** `start` has a block for every recognised type. */
  lemma StartOrderServesKnownTypes(t: string)
    ensures KnownType(t) <==> exists k :: k in StartOrder && TypeName(k) == t
  {
    if KnownType(t) {
      var k :| TypeName(k) == t;
      assert k in StartOrder;
    }
  }

  /** Item `a` after its loader delivered `p`: flagged, with the payload in the loader's slot. */
  function Delivered(a: Asset, k: LoaderKind, p: Payload): (b: Asset)
    ensures b.isLoaded == Some(true)
    ensures b.assetType == a.assetType && b.id == a.id && b.url == a.url
    ensures Slot(b, FieldOf(k)) == Some(p)
    ensures forall f :: f != FieldOf(k) ==> Slot(b, f) == Slot(a, f)
  {
    match k
    case HdrCubeLoader => a.(isLoaded := Some(true), hdrCubeMap := Some(p))
    case JsonLoader => a.(isLoaded := Some(true), object3d := Some(p))
    case GltfLoader => a.(isLoaded := Some(true), object3d := Some(p))
    case FbxLoader => a.(isLoaded := Some(true), object3d := Some(p))
    case TextureLoader => a.(isLoaded := Some(true), texture := Some(p))
    case FontLoader => a.(isLoaded := Some(true), font := Some(p))
    case ImageLoader => a.(isLoaded := Some(true), image := Some(p))
  }

  /** A run of callbacks, each delivering payload `ps[j]` for request `rs[j]`. */
  function DeliverAll(m: seq<Asset>, rs: seq<Request>, ps: seq<Payload>): (r: seq<Asset>)
    requires |ps| == |rs| && forall q :: q in rs ==> q.index < |m|
    ensures |r| == |m|
    decreases |rs|
  {
    if rs == [] then m
    else
      var last := |rs| - 1;
      var before := DeliverAll(m, rs[..last], ps[..last]);
      before[rs[last].index := Delivered(before[rs[last].index], rs[last].kind, ps[last])]
  }

  /** Items no callback targets keep their flag. */
  lemma {:induction false} UntouchedKeepsFlag(m: seq<Asset>, rs: seq<Request>, ps: seq<Payload>, i: nat)
    requires |ps| == |rs| && forall q :: q in rs ==> q.index < |m|
    requires i < |m| && forall q :: q in rs ==> q.index != i
    ensures DeliverAll(m, rs, ps)[i] == m[i]
    decreases |rs|
  {
    if rs != [] {
      var last := |rs| - 1;
      assert forall q :: q in rs[..last] ==> q in rs;
      UntouchedKeepsFlag(m, rs[..last], ps[..last], i);
    }
  }

  /** Some request in `rs` is for item `i`. */
  predicate Requested(rs: seq<Request>, i: nat)
  {
    exists q :: q in rs && q.index == i
  }

  /** Items some callback targeted are flagged. */
  lemma {:induction false} TouchedIsFlagged(m: seq<Asset>, rs: seq<Request>, ps: seq<Payload>, i: nat)
    requires |ps| == |rs| && forall q :: q in rs ==> q.index < |m|
    requires i < |m| && Requested(rs, i)
    ensures Truthy(DeliverAll(m, rs, ps)[i].isLoaded)
    decreases |rs|
  {
    var last := |rs| - 1;
    if rs[last].index != i {
      var q :| q in rs && q.index == i;
      assert q in rs[..last] by {
        assert q in rs[..last] + [rs[last]];
      }
      assert forall q :: q in rs[..last] ==> q in rs;
      TouchedIsFlagged(m, rs[..last], ps[..last], i);
    }
  }

  /**
   * An item of an unrecognised type whose flag is not already true keeps
   * completion false whatever is delivered.
   */
  lemma UnknownTypeBlocksCompletion(m: seq<Asset>, rs: seq<Request>, ps: seq<Payload>, i: nat)
    requires i < |m| && !KnownType(m[i].assetType) && !Truthy(m[i].isLoaded)
    requires |ps| == |rs| && forall q :: q in rs ==> q in Requests(m, StartOrder) && q.index < |m|
    ensures !AllLoaded(DeliverAll(Started(m), rs, ps))
  {
    forall q | q in rs
      ensures q.index != i
    {
      RequestsMatchTypes(m, StartOrder, q);
    }
    StartedItems(m, i);
    UntouchedKeepsFlag(Started(m), rs, ps, i);
  }

  /**
   * With every item requested exactly once, completion holds after a
   * callback exactly when it is the last one.
   */
  lemma CompletesOnLastCallback(m: seq<Asset>, rs: seq<Request>, ps: seq<Payload>, j: nat)
    requires |ps| == |rs| && j < |rs|
    requires forall q :: q in rs ==> q.index < |m|
    requires forall a, b :: 0 <= a < b < |rs| ==> rs[a].index != rs[b].index
    requires forall i :: 0 <= i < |m| ==> !Truthy(m[i].isLoaded) && Requested(rs, i)
    ensures AllLoaded(DeliverAll(m, rs[..j + 1], ps[..j + 1])) <==> j == |rs| - 1
  {
    if j == |rs| - 1 {
      assert rs[..j + 1] == rs && ps[..j + 1] == ps;
      AllTouchedAllLoaded(m, rs, ps);
    } else {
      LastStillWaiting(m, rs, ps, j);
    }
  }

  /**
   * From `load` to `onComplete`: for a manifest of recognised types, the
   * callbacks of the requests `start` issues complete it exactly at the last.
   */
  lemma LoadCompletesOnLastCallback(m: seq<Asset>, ps: seq<Payload>, j: nat)
    requires forall i :: 0 <= i < |m| ==> KnownType(m[i].assetType)
    requires |ps| == |Requests(m, StartOrder)| && j < |ps|
    ensures AllLoaded(DeliverAll(Started(m), Requests(m, StartOrder)[..j + 1], ps[..j + 1]))
      <==> j == |ps| - 1
  {
    var rs := Requests(m, StartOrder);
    var ms := Started(m);
    forall i | 0 <= i < |ms|
      ensures !Truthy(ms[i].isLoaded) && Requested(rs, i)
    {
      StartedItems(m, i);
      StartRequestsEachKnownItemOnce(m, i);
    }
    if |m| > 0 {
      StartRequestsEachKnownItemOnce(m, 0);
    }
    CompletesOnLastCallback(ms, rs, ps, j);
  }

  lemma AllTouchedAllLoaded(m: seq<Asset>, rs: seq<Request>, ps: seq<Payload>)
    requires |ps| == |rs| && forall q :: q in rs ==> q.index < |m|
    requires forall i :: 0 <= i < |m| ==> Requested(rs, i)
    ensures AllLoaded(DeliverAll(m, rs, ps))
  {
    var r := DeliverAll(m, rs, ps);
    forall i | 0 <= i < |m|
      ensures Truthy(r[i].isLoaded)
    {
      TouchedIsFlagged(m, rs, ps, i);
    }
  }

  lemma LastStillWaiting(m: seq<Asset>, rs: seq<Request>, ps: seq<Payload>, j: nat)
    requires |ps| == |rs| && j + 1 < |rs|
    requires forall q :: q in rs ==> q.index < |m|
    requires forall a, b :: 0 <= a < b < |rs| ==> rs[a].index != rs[b].index
    requires forall i :: 0 <= i < |m| ==> !Truthy(m[i].isLoaded)
    ensures !AllLoaded(DeliverAll(m, rs[..j + 1], ps[..j + 1]))
  {
    var prefix := rs[..j + 1];
    var waiting := rs[|rs| - 1].index;
    forall q | q in prefix
      ensures q in rs && q.index != waiting
    {
      var a :| 0 <= a < |prefix| && prefix[a] == q;
      assert rs[a] == q;
    }
    UntouchedKeepsFlag(m, prefix, ps[..j + 1], waiting);
  }

  /** Delivery never clears a flag, so completion, once reached, persists. */
  lemma CompletionPersists(m: seq<Asset>, k: nat, kind: LoaderKind, p: Payload)
    requires k < |m| && AllLoaded(m)
    ensures AllLoaded(m[k := Delivered(m[k], kind, p)])
  {
  }

  // ---------------------------------------------------------------- getters

  /** The payload slot each getter reads. */
  datatype Field = HdrCubeMapField | Object3dField | TextureField | FontField | ImageField

  /** The slot a loader's callback writes: the JSON, GLTF and FBX loaders share `object3d`. */
  function FieldOf(k: LoaderKind): Field
  {
    match k
    case HdrCubeLoader => HdrCubeMapField
    case JsonLoader => Object3dField
    case GltfLoader => Object3dField
    case FbxLoader => Object3dField
    case TextureLoader => TextureField
    case FontLoader => FontField
    case ImageLoader => ImageField
  }

  function Slot(a: Asset, f: Field): Option<Payload>
  {
    match f
    case HdrCubeMapField => a.hdrCubeMap
    case Object3dField => a.object3d
    case TextureField => a.texture
    case FontField => a.font
    case ImageField => a.image
  }

  /** `filter(value => value.id === id)[0]`: the first item with that id. */
  function FirstWithId(m: seq<Asset>, id: string): (r: Option<nat>)
    ensures r.Some? ==> r.value < |m| && m[r.value].id == id && forall i :: 0 <= i < r.value ==> m[i].id != id
    ensures r.None? <==> forall i :: 0 <= i < |m| ==> m[i].id != id
  {
    if m == [] then None
    else if m[0].id == id then Some(0)
    else match FirstWithId(m[1..], id)
      case None => None
      case Some(i) => Some(i + 1)
  }

  /** What `getHDRCubeMap`, `getObject3d`, `getTexture`, `getFont` and `getImage` return. */
  function Lookup(m: seq<Asset>, id: string, f: Field): (r: Option<Payload>)
    ensures r.Some? <==> exists i :: 0 <= i < |m| && m[i].id == id && FirstWithId(m, id) == Some(i) && Slot(m[i], f).Some?
    ensures r.Some? ==> r == Slot(m[FirstWithId(m, id).value], f)
  {
    match FirstWithId(m, id)
    case None => None
    case Some(i) => Slot(m[i], f)
  }

  /** The first item with an id stays first while no id changes. */
  lemma {:induction false} FirstWithIdKeepsIds(m: seq<Asset>, m': seq<Asset>, id: string)
    requires |m'| == |m| && forall i :: 0 <= i < |m| ==> m'[i].id == m[i].id
    ensures FirstWithId(m', id) == FirstWithId(m, id)
  {
    if m != [] && m[0].id != id {
      FirstWithIdKeepsIds(m[1..], m'[1..], id);
    }
  }

  /**
   * After a callback delivers `p` to the first item with its id, the getter
   * for the callback's loader returns `p` for that id.
   */
  lemma DeliveredIsReturned(m: seq<Asset>, q: Request, p: Payload)
    requires q.index < |m| && FirstWithId(m, m[q.index].id) == Some(q.index)
    ensures Lookup(m[q.index := Delivered(m[q.index], q.kind, p)], m[q.index].id, FieldOf(q.kind)) == Some(p)
  {
    FirstWithIdKeepsIds(m, m[q.index := Delivered(m[q.index], q.kind, p)], m[q.index].id);
  }

  /** A later item with the same id is never returned. */
  lemma LookupIgnoresShadowedIds(m: seq<Asset>, a: Asset, id: string, f: Field)
    requires a.id == id
    ensures Lookup([a] + m, id, f) == Slot(a, f)
  {
  }

  /**
   * The loop of one `getManifestByType(t).forEach` block: walking the
   * manifest in order, each item of type `t` is unflagged and requested.
   */
  method RunBlock(m0: seq<Asset>, k: LoaderKind) returns (m: seq<Asset>, issued: seq<Request>)
    ensures m == ClearFlags(m0, TypeName(k))
    ensures issued == KindRequests(m0, k)
  {
    m := m0;
    issued := [];
    var t := TypeName(k);
    var i := 0;
    while i < |m0|
      invariant 0 <= i <= |m0| == |m|
      invariant forall j :: 0 <= j < |m0| ==>
        m[j] == if j < i && m0[j].assetType == t then m0[j].(isLoaded := Some(false)) else m0[j]
      invariant issued == KindRequestsUpTo(m0, k, i)
    {
      if m[i].assetType == t {
        m := m[i := m[i].(isLoaded := Some(false))];
        issued := issued + [Request(i, k)];
      }
      i := i + 1;
    }
    assert |m| == |ClearFlags(m0, t)|;
  }

  class Preloader {
    var hasManifest: bool
    var manifest: seq<Asset>
    /** The requests issued so far, oldest first. */
    var requests: seq<Request>

    ghost predicate Valid()
      reads this
    {
      forall q :: q in requests ==> q.index < |manifest|
    }

    constructor ()
      ensures Valid() && !hasManifest && manifest == [] && requests == []
    {
      hasManifest := false;
      manifest := [];
      requests := [];
    }

    /** `load(manifest, onComplete)`: nothing happens for a missing or empty manifest. */
    method Load(m: Option<seq<Asset>>)
      requires Valid()
      modifies this
      ensures Valid()
      ensures m.None? || m.value == [] ==> unchanged(this)
      ensures m.Some? && m.value != [] ==>
        hasManifest && manifest == Started(m.value) && requests == Requests(m.value, StartOrder)
    {
      if m.None? || m.value == [] {
        return;
      }
      hasManifest := true;
      manifest := m.value;
      requests := [];
      Start();
    }

    /** One `getManifestByType(t).forEach` block of `start`: unflag each item of the type, request it. */
    method StartKind(k: LoaderKind)
      modifies this`manifest, this`requests
      ensures manifest == ClearFlags(old(manifest), TypeName(k))
      ensures |manifest| == |old(manifest)|
      ensures forall i :: 0 <= i < |manifest| ==> manifest[i].assetType == old(manifest)[i].assetType
      ensures requests == old(requests) + KindRequests(old(manifest), k)
    {
      var m, issued := RunBlock(manifest, k);
      manifest := m;
      requests := requests + issued;
    }

    /** `start`: the seven blocks, one loader after another. */
    method Start()
      requires Valid()
      modifies this`manifest, this`requests
      ensures Valid()
      ensures manifest == Started(old(manifest))
      ensures requests == old(requests) + Requests(old(manifest), StartOrder)
    {
      ghost var m0, r0 := manifest, requests;
      var b := 0;
      while b < |StartOrder|
        invariant 0 <= b <= |StartOrder|
        invariant manifest == ClearedBy(m0, StartOrder[..b])
        invariant requests == r0 + Requests(m0, StartOrder[..b])
      {
        BlockStep(m0, StartOrder, b, manifest, r0);
        StartKind(StartOrder[b]);
        b := b + 1;
      }
      assert StartOrder[..b] == StartOrder;
      assert |manifest| == |m0|;
    }

    /** `checkManifestCompletion`: stop at the first unflagged item. */
    method CheckManifestCompletion() returns (complete: bool)
      ensures complete <==> AllLoaded(manifest)
    {
      var i := 0;
      while i < |manifest|
        invariant 0 <= i <= |manifest|
        invariant forall j :: 0 <= j < i ==> Truthy(manifest[j].isLoaded)
      {
        if !Truthy(manifest[i].isLoaded) {
          return false;
        }
        i := i + 1;
      }
      return true;
    }

    /**
     * A load callback: flag the request's own item and store its payload,
     * then report whether the whole manifest is now loaded (`onComplete`).
     */
    method OnLoaded(q: Request, p: Payload) returns (completed: bool)
      requires Valid() && q in requests
      modifies this`manifest
      ensures Valid()
      ensures manifest == old(manifest)[q.index := Delivered(old(manifest)[q.index], q.kind, p)]
      ensures completed <==> AllLoaded(manifest)
    {
      manifest := manifest[q.index := Delivered(manifest[q.index], q.kind, p)];
      completed := CheckManifestCompletion();
    }

    /** The getters. Before any `load` the manifest is undefined and the lookup throws. */
    function Get(id: string, f: Field): (r: Option<Payload>)
      requires hasManifest
      reads this
      ensures r.Some? ==> exists i :: 0 <= i < |manifest| && manifest[i].id == id && Slot(manifest[i], f) == r
      ensures (forall i :: 0 <= i < |manifest| ==> manifest[i].id != id) ==> r.None?
    {
      Lookup(manifest, id, f)
    }
  }
}
