/**
 The bounded image cache: what was written longest ago is dropped first, reading changes nothing
 (src/app/icon_cache.rs:42-107).
 */
module ImageCache {
  import opened Prelude

  type Path(==, !new)
  type Image(==, !new)

  datatype Key = Key(path: Path, size: nat)

  // ---- duplicate-free lists ----

  function SetOf(order: seq<Key>): set<Key>
  {
    set k | k in order
  }

  function Without(order: seq<Key>, drop: set<Key>): seq<Key>
  {
    if order == [] then []
    else Without(order[..|order| - 1], drop) + if order[|order| - 1] in drop then [] else [order[|order| - 1]]
  }

  /** The last `m` of a list. */
  function Newest(order: seq<Key>, m: nat): seq<Key>
  {
    if |order| <= m then order else order[|order| - m..]
  }

  lemma {:induction false} WithoutIs(order: seq<Key>, drop: set<Key>)
    ensures forall k :: k in Without(order, drop) <==> k in order && k !in drop
    ensures |Without(order, drop)| <= |order|
    ensures Distinct(order) ==> Distinct(Without(order, drop))
    decreases |order|
  {
    if order != [] {
      var n := |order| - 1;
      WithoutIs(order[..n], drop);
      assert order == order[..n] + [order[n]];
      if Distinct(order) {
        hide Distinct;
        DistinctParts(order[..n], [order[n]]);
        DistinctSingle(order[n]);
        if order[n] !in drop {
          DistinctJoin(Without(order[..n], drop), [order[n]]);
        }
      }
    }
  }

  lemma {:induction false} WithoutOne(order: seq<Key>, k: Key)
    requires Distinct(order)
    ensures |Without(order, {k})| == |order| - if k in order then 1 else 0
    decreases |order|
  {
    if order != [] {
      var n := |order| - 1;
      WithoutOne(order[..n], k);
      assert order == order[..n] + [order[n]];
    }
  }

  lemma {:induction false} SetSize(order: seq<Key>)
    requires Distinct(order)
    ensures |SetOf(order)| == |order|
    decreases |order|
  {
    if order == [] {
      assert SetOf(order) == {};
    } else {
      var n := |order| - 1;
      SetSize(order[..n]);
      assert order == order[..n] + [order[n]];
      assert SetOf(order) == SetOf(order[..n]) + {order[n]};
      assert order[n] !in order[..n];
    }
  }

  // ---- one write ----

  datatype Cache = Cache(images: map<Key, Image>, order: seq<Key>)

  /** Room for one image at least, whatever the capacity. */
  function Room(capacity: nat): nat
  {
    if capacity == 0 then 1 else capacity
  }

  /** `order` lists the stored keys once each, and there is room for them. */
  ghost predicate Valid(c: Cache, capacity: nat)
  {
    Distinct(c.order) && SetOf(c.order) == c.images.Keys && |c.order| <= Room(capacity)
  }

  function Written(c: Cache, key: Key, image: Image, capacity: nat): Cache
  {
    var order := if key in c.images then Without(c.order, {key}) + [key] else Newest(c.order + [key], Room(capacity));
    Cache(map k | k in c.images.Keys + {key} && k in order :: if k == key then image else c.images[k], order)
  }

  lemma WrittenValid(c: Cache, key: Key, image: Image, capacity: nat)
    requires Valid(c, capacity)
    ensures Valid(Written(c, key, image, capacity), capacity)
  {
    hide Without;
    WithoutIs(c.order, {key});
    WithoutOne(c.order, key);
    assert key in c.images <==> key in c.order by { assert key in SetOf(c.order) <==> key in c.order; }
    var w := Written(c, key, image, capacity);
    NewestDistinct(c.order + [key], Room(capacity));
    assert forall k :: k in w.order ==> k in c.images.Keys + {key} by {
      assert forall k :: k in c.order ==> k in SetOf(c.order);
    }
    assert SetOf(w.order) == w.images.Keys;
  }

  lemma NewestDistinct(order: seq<Key>, m: nat)
    requires m > 0
    ensures Distinct(order) ==> Distinct(Newest(order, m))
    ensures |Newest(order, m)| <= m && forall k :: k in Newest(order, m) ==> k in order
    ensures order != [] ==> order[|order| - 1] in Newest(order, m)
  {
    var w := Newest(order, m);
    if order != [] {
      assert w[|w| - 1] == order[|order| - 1];
    }
  }

  class BoundedImages {
    const capacity: nat
    var images: map<Key, Image>
    var order: seq<Key>

    ghost predicate IsValid()
      reads this
    {
      Valid(Contents(), capacity)
    }

    function Contents(): Cache
      reads this
    {
      Cache(images, order)
    }

    constructor (capacity: nat)
      ensures this.capacity == capacity && Contents() == Cache(map[], []) && IsValid()
    {
      this.capacity := capacity;
      images, order := map[], [];
    }

    function Get(key: Key): (r: Option<Image>)
      reads this
      ensures r == Lookup(images, key)
    {
      if key in images then Some(images[key]) else None
    }

    /** `insert`: a known key moves to the end; a new one pushes out the oldest if need be. */
    method Insert(key: Key, image: Image)
      requires IsValid()
      modifies this
      ensures IsValid() && Contents() == Written(old(Contents()), key, image, capacity)
    {
      hide Distinct, Without;
      ghost var before := Contents();
      WrittenValid(before, key, image, capacity);
      if key in images {
        order := Without(order, {key});
        order := order + [key];
        images := images[key := image];
        KnownKey(before, key, image, capacity);
        return;
      }
      EvictForRoom();
      order := order + [key];
      images := images[key := image];
      NewKey(before, key, image, capacity, order, images);
    }

    /** The eviction loop. */
    method EvictForRoom()
      requires IsValid()
      modifies this
      ensures order == Newest(old(order), if capacity == 0 then 0 else capacity - 1)
      ensures images == Restricted(old(images), order)
    {
      hide Distinct, Restricted, SetOf;
      ghost var before := Contents();
      ghost var dropped := 0;
      WholeCache(before, capacity);
      while |images| >= capacity
        invariant dropped <= |before.order| && order == before.order[dropped..]
        invariant dropped > 0 ==> |order| + 1 >= capacity
        invariant Distinct(order) && SetOf(order) <= before.images.Keys
        invariant images == Restricted(before.images, order) && |images| == |order|
        decreases |images|
      {
        if order == [] {
          images := map[];
          RestrictedToNothing(before.images, order);
          break;
        }
        var oldest := order[0];
        EvictOne(before.images, order);
        order := order[1..];
        images := images - {oldest};
        dropped := dropped + 1;
      }
    }

    /**
     `rename_paths`: the images of both paths go, and those of the old path come back under the new
     one if they are kept. No other image is touched or evicted, in whatever order the table lists
     its keys.
     */
    method RenamePaths(from: Path, to: Path, retain: bool)
      requires IsValid()
      modifies this
      ensures IsValid()
      ensures forall k :: Lookup(images, k) == LookupRenamed(old(images), from, to, retain, k)
      ensures from != to ==> forall k :: k in images ==> k.path != from
      ensures forall size: nat ::
                (Key(to, size) in images <==> retain && Key(from, size) in old(images))
                && (Key(to, size) in images ==> images[Key(to, size)] == old(images)[Key(from, size)])
      ensures forall k: Key :: k.path != from && k.path != to ==>
                (k in images <==> k in old(images)) && (k in images ==> images[k] == old(images)[k])
      ensures Without(old(order), Touched(old(images), from, to)) <= order
    {
      hide Valid, Without, Written, Lookup;
      ghost var before := Contents();
      var keys := Touched(images, from, to);
      var kept := map k | k in images && retain && k.path == from :: images[k];
      images := images - keys;
      order := Without(order, keys);
      RemovedValid(before, from, to, retain, capacity);
      ghost var base := order;
      var left := kept.Keys;
      while left != {}
        invariant left <= kept.Keys && IsValid() && base <= order
        invariant |order| + |left| <= Room(capacity)
        invariant forall k :: Lookup(images, k) == LookupMoved(before.images, kept, left, from, to, k)
        decreases left
      {
        var key :| key in left;
        var image := kept[key];
        ghost var at := Contents();
        MovesIn(before.images, kept, left, from, to, key, at, image, capacity);
        Insert(Key(to, key.size), image);
        left := left - {key};
      }
      AllMoved(before.images, kept, from, to, retain);
      RenamedMeans(before.images, images, from, to, retain);
    }
  }

  lemma RenamedMeans(before: map<Key, Image>, now: map<Key, Image>, from: Path, to: Path, retain: bool)
    requires forall k :: Lookup(now, k) == LookupRenamed(before, from, to, retain, k)
    ensures from != to ==> forall k :: k in now ==> k.path != from
    ensures forall size: nat ::
              (Key(to, size) in now <==> retain && Key(from, size) in before)
              && (Key(to, size) in now ==> now[Key(to, size)] == before[Key(from, size)])
    ensures forall k: Key :: k.path != from && k.path != to ==>
              (k in now <==> k in before) && (k in now ==> now[k] == before[k])
  {
    forall k: Key ensures (k in now <==> LookupRenamed(before, from, to, retain, k).Some?)
                          && (k in now ==> now[k] == LookupRenamed(before, from, to, retain, k).value)
    {
      assert Lookup(now, k) == LookupRenamed(before, from, to, retain, k);
    }
  }

  function Lookup(images: map<Key, Image>, k: Key): Option<Image>
  {
    if k in images then Some(images[k]) else None
  }

  function Touched(images: map<Key, Image>, from: Path, to: Path): set<Key>
  {
    set k | k in images && (k.path == from || k.path == to)
  }

  /** What is stored under a key after renaming. */
  function LookupRenamed(images: map<Key, Image>, from: Path, to: Path, retain: bool, k: Key): Option<Image>
  {
    if k.path == to then (if retain then Lookup(images, Key(from, k.size)) else None)
    else if k.path == from then None
    else Lookup(images, k)
  }

  /** Halfway: images still to be moved are nowhere. */
  function LookupMoved(images: map<Key, Image>, kept: map<Key, Image>, left: set<Key>, from: Path, to: Path,
        k: Key): Option<Image>
  {
    if k.path == to then (if Key(from, k.size) in left then None else Lookup(kept, Key(from, k.size)))
    else if k.path == from then None
    else Lookup(images, k)
  }

  lemma RemovedValid(c: Cache, from: Path, to: Path, retain: bool, capacity: nat)
    requires Valid(c, capacity)
    ensures var keys := Touched(c.images, from, to);
            var kept := map k | k in c.images && retain && k.path == from :: c.images[k];
            && Valid(Cache(c.images - keys, Without(c.order, keys)), capacity)
            && |Without(c.order, keys)| + |kept.Keys| <= Room(capacity)
            && forall k :: Lookup(c.images - keys, k) == LookupMoved(c.images, kept, kept.Keys, from, to, k)
  {
    hide Without, Distinct;
    var keys := Touched(c.images, from, to);
    var kept := map k | k in c.images && retain && k.path == from :: c.images[k];
    var order := Without(c.order, keys);
    WithoutIs(c.order, keys);
    SetSize(c.order);
    SetSize(order);
    assert SetOf(order) == (c.images - keys).Keys;
    assert SetOf(order) !! keys && SetOf(order) + keys == SetOf(c.order);
    SubsetCount(kept.Keys, keys);
  }

  lemma MovesIn(images: map<Key, Image>, kept: map<Key, Image>, left: set<Key>, from: Path, to: Path, key: Key,
        at: Cache, image: Image, capacity: nat)
    requires key in left && left <= kept.Keys && key.path == from && image == kept[key] && Valid(at, capacity)
    requires |at.order| + |left| <= Room(capacity)
    requires forall k :: Lookup(at.images, k) == LookupMoved(images, kept, left, from, to, k)
    ensures var w := Written(at, Key(to, key.size), image, capacity);
            && w.order == at.order + [Key(to, key.size)]
            && |w.order| + |left - {key}| <= Room(capacity)
            && forall k :: Lookup(w.images, k) == LookupMoved(images, kept, left - {key}, from, to, k)
  {
    hide Distinct, Without;
    var name := Key(to, key.size);
    assert key == Key(from, key.size);
    assert name !in at.images by { assert Lookup(at.images, name) == None; }
    assert |left| == |left - {key}| + 1;
    assert forall k :: k in at.images ==> k in at.order by {
      assert forall k :: k in at.images ==> k in SetOf(at.order);
    }
    var w := Written(at, name, image, capacity);
    assert w.images == at.images[name := image];
    forall k ensures Lookup(w.images, k) == LookupMoved(images, kept, left - {key}, from, to, k) {
      assert Lookup(at.images, k) == LookupMoved(images, kept, left, from, to, k);
    }
  }

  lemma AllMoved(images: map<Key, Image>, kept: map<Key, Image>, from: Path, to: Path, retain: bool)
    requires kept == map k | k in images && retain && k.path == from :: images[k]
    ensures forall k :: LookupMoved(images, kept, {}, from, to, k) == LookupRenamed(images, from, to, retain, k)
  {
  }

  function Restricted(images: map<Key, Image>, order: seq<Key>): map<Key, Image>
  {
    map k | k in images && k in order :: images[k]
  }

  lemma WholeCache(c: Cache, capacity: nat)
    requires Valid(c, capacity)
    ensures c.images == Restricted(c.images, c.order) && |c.images| == |c.order| && Distinct(c.order)
    ensures SetOf(c.order) <= c.images.Keys
  {
    SetSize(c.order);
    assert |c.images| == |c.images.Keys|;
    assert forall k :: k in c.images ==> k in SetOf(c.order);
  }

  lemma RestrictedToNothing(images: map<Key, Image>, order: seq<Key>)
    requires order == []
    ensures Restricted(images, order) == map[]
  {
  }

  lemma EvictOne(images: map<Key, Image>, order: seq<Key>)
    requires Distinct(order) && order != [] && SetOf(order) <= images.Keys
    ensures Distinct(order[1..]) && SetOf(order[1..]) <= images.Keys
    ensures Restricted(images, order) - {order[0]} == Restricted(images, order[1..])
    ensures |Restricted(images, order[1..])| == |order[1..]|
  {
    var others := order[1..];
    assert forall k :: k in order <==> k == order[0] || k in others;
    assert order[0] !in others;
    assert forall k :: k in others ==> k in SetOf(order);
    SetSize(others);
    assert Restricted(images, others).Keys == SetOf(others);
    assert |Restricted(images, others)| == |Restricted(images, others).Keys|;
  }

  lemma KnownKey(c: Cache, key: Key, image: Image, capacity: nat)
    requires Valid(c, capacity) && key in c.images
    ensures Written(c, key, image, capacity) == Cache(c.images[key := image], Without(c.order, {key}) + [key])
  {
    WithoutIs(c.order, {key});
    assert forall k :: k in c.images ==> k in SetOf(c.order);
  }

  lemma NewestIsFull(order: seq<Key>, key: Key, capacity: nat)
    requires |order| <= Room(capacity)
    ensures Newest(order + [key], Room(capacity)) == Newest(order, if capacity == 0 then 0 else capacity - 1) + [key]
  {
  }

  lemma NewKey(c: Cache, key: Key, image: Image, capacity: nat, order: seq<Key>, images: map<Key, Image>)
    requires Valid(c, capacity) && key !in c.images
    requires order == Newest(c.order, if capacity == 0 then 0 else capacity - 1) + [key]
    requires images == Restricted(c.images, Newest(c.order, if capacity == 0 then 0 else capacity - 1))[key := image]
    ensures Written(c, key, image, capacity) == Cache(images, order)
  {
    hide Distinct, Newest, Without;
    NewestIsFull(c.order, key, capacity);
    var w := Written(c, key, image, capacity);
    assert w.order == order;
    assert w.images == images;
  }

  // ---- what the cache holds after a history of writes ----

  datatype Write = Write(key: Key, image: Image)

  function After(history: seq<Write>, capacity: nat): Cache
  {
    if history == [] then Cache(map[], [])
    else Written(After(history[..|history| - 1], capacity), history[|history| - 1].key, history[|history| - 1].image,
      capacity)
  }

  /** Every key written so far, by its last write, oldest first. */
  function Recency(history: seq<Write>): seq<Key>
  {
    if history == [] then []
    else Without(Recency(history[..|history| - 1]), {history[|history| - 1].key}) + [history[|history| - 1].key]
  }

  function LastValue(history: seq<Write>, key: Key): Option<Image>
  {
    if history == [] then None
    else if history[|history| - 1].key == key then Some(history[|history| - 1].image)
    else LastValue(history[..|history| - 1], key)
  }

  /** Keys written after the last write of `key`. */
  function WrittenSince(history: seq<Write>, key: Key): set<Key>
  {
    if history == [] || history[|history| - 1].key == key then {}
    else WrittenSince(history[..|history| - 1], key) + {history[|history| - 1].key}
  }

  lemma {:induction false} RecencyIs(history: seq<Write>)
    ensures Distinct(Recency(history))
    ensures forall k :: k in Recency(history) <==> LastValue(history, k).Some?
    decreases |history|
  {
    hide Without;
    if history != [] {
      var n := |history| - 1;
      RecencyIs(history[..n]);
      WithoutIs(Recency(history[..n]), {history[n].key});
    }
  }

  lemma WithoutNewest(order: seq<Key>, key: Key, m: nat)
    requires Distinct(order) && m > 0
    ensures key in Newest(order, m) ==>
            Newest(Without(order, {key}) + [key], m) == Without(Newest(order, m), {key}) + [key]
    ensures key !in Newest(order, m) ==> Newest(Without(order, {key}) + [key], m) == Newest(Newest(order, m) + [key], m)
  {
    hide Without;
    if |order| <= m {
      WithoutAbsent(order, key);
      WithoutOne(order, key);
    } else {
      WithoutOld(order[..|order| - m], order[|order| - m..], key);
      assert order == order[..|order| - m] + order[|order| - m..];
    }
  }

  /** Rewriting a key in a list whose newer part is full. */
  lemma WithoutOld(older: seq<Key>, newer: seq<Key>, key: Key)
    requires Distinct(older + newer) && newer != []
    ensures key in newer ==> Newest(Without(older + newer, {key}) + [key], |newer|) == Without(newer, {key}) + [key]
    ensures key !in newer ==> Newest(Without(older + newer, {key}) + [key], |newer|) == Newest(newer + [key], |newer|)
  {
    hide Without;
    WithoutAppend(older, newer, {key});
    WithoutAbsent(newer, key);
    DistinctParts(older, newer);
    WithoutOne(newer, key);
    if key in newer {
      WithoutAbsent(older, key);
      NewestOfLonger(older, Without(newer, {key}) + [key]);
      assert Without(older + newer, {key}) + [key] == older + (Without(newer, {key}) + [key]);
    } else {
      var front := Without(older, {key}) + [newer[0]];
      NewestOfLonger(front, newer[1..] + [key]);
      assert Without(older + newer, {key}) + [key] == front + (newer[1..] + [key]);
      assert newer + [key] == [newer[0]] + (newer[1..] + [key]);
      NewestOfLonger([newer[0]], newer[1..] + [key]);
    }
  }

  lemma NewestOfLonger(a: seq<Key>, b: seq<Key>)
    ensures Newest(a + b, |b|) == b
  {
  }

  lemma {:induction false} WithoutAppend(a: seq<Key>, b: seq<Key>, drop: set<Key>)
    ensures Without(a + b, drop) == Without(a, drop) + Without(b, drop)
    decreases |b|
  {
    if b == [] {
      assert a + b == a;
    } else {
      var n := |b| - 1;
      WithoutAppend(a, b[..n], drop);
      assert (a + b)[..|a + b| - 1] == a + b[..n];
    }
  }

  lemma {:induction false} WithoutAbsent(order: seq<Key>, key: Key)
    ensures key !in order ==> Without(order, {key}) == order
    decreases |order|
  {
    if order != [] {
      var n := |order| - 1;
      WithoutAbsent(order[..n], key);
      assert order == order[..n] + [order[n]];
    }
  }

  /** The cache holds the keys written last, as many as there is room for, each with its last image. */
  lemma {:induction false} AfterIsNewest(history: seq<Write>, capacity: nat)
    ensures Valid(After(history, capacity), capacity)
    ensures After(history, capacity).order == Newest(Recency(history), Room(capacity))
    ensures forall k :: k in After(history, capacity).images ==>
              LastValue(history, k) == Some(After(history, capacity).images[k])
    decreases |history|
  {
    hide Without, Distinct, Newest, Room;
    if history == [] {
      StartsEmpty(capacity);
    } else {
      var n := |history| - 1;
      AfterIsNewest(history[..n], capacity);
      var c := After(history[..n], capacity);
      WrittenValid(c, history[n].key, history[n].image, capacity);
      RecencyIs(history[..n]);
      RoomIsPositive(capacity);
      WithoutNewest(Recency(history[..n]), history[n].key, Room(capacity));
      assert history[n].key in c.images <==> history[n].key in c.order by {
        assert history[n].key in SetOf(c.order) <==> history[n].key in c.order;
      }
    }
  }

  lemma StartsEmpty(capacity: nat)
    ensures Valid(Cache(map[], []), capacity) && Newest([], Room(capacity)) == []
  {
  }

  lemma RoomIsPositive(capacity: nat)
    ensures Room(capacity) > 0
  {
  }

  /** Behind a key in the recency list stand exactly the keys written since. */
  lemma {:induction false} BehindIsSince(history: seq<Write>, key: Key, i: nat)
    requires i < |Recency(history)| && Recency(history)[i] == key
    ensures SetOf(Recency(history)[i + 1..]) == WrittenSince(history, key)
    decreases |history|
  {
    hide Without, Distinct;
    var n := |history| - 1;
    var last := history[n].key;
    var before := Recency(history[..n]);
    var kept := Without(before, {last});
    RecencyIs(history);
    RecencyIs(history[..n]);
    if key == last {
      LastIsLast(kept, key, i);
      assert Recency(history)[i + 1..] == [];
    } else {
      WithoutIs(before, {last});
      assert key in before by { assert kept[i] == key; }
      var j :| 0 <= j < |before| && before[j] == key;
      BehindIsSince(history[..n], key, j);
      SplitWithout(before, j, last, i);
      WithoutIs(before[j + 1..], {last});
      BehindGrows(kept, last, i, before[j + 1..]);
    }
  }

  lemma LastIsLast(kept: seq<Key>, key: Key, i: nat)
    requires Distinct(kept + [key]) && i < |kept + [key]| && (kept + [key])[i] == key
    ensures i == |kept|
  {
    assert (kept + [key])[|kept|] == key;
  }

  lemma BehindGrows(kept: seq<Key>, last: Key, i: nat, behind: seq<Key>)
    requires i < |kept| && forall k :: k in kept[i + 1..] <==> k in behind && k != last
    ensures SetOf((kept + [last])[i + 1..]) == SetOf(behind) + {last}
  {
    assert (kept + [last])[i + 1..] == kept[i + 1..] + [last];
    forall k ensures k in kept[i + 1..] + [last] <==> k in behind || k == last {
    }
  }

  lemma SplitWithout(before: seq<Key>, j: nat, last: Key, i: nat)
    requires Distinct(before) && j < |before| && before[j] != last
    requires i < |Without(before, {last})| && Without(before, {last})[i] == before[j]
    ensures Without(before, {last})[i + 1..] == Without(before[j + 1..], {last})
  {
    hide Without;
    var key := before[j];
    assert before == before[..j] + ([key] + before[j + 1..]);
    WithoutAppend(before[..j], [key] + before[j + 1..], {last});
    WithoutAppend([key], before[j + 1..], {last});
    WithoutAbsent([key], last);
    WithoutIs(before, {last});
    AfterTheKey(Without(before[..j], {last}), key, Without(before[j + 1..], {last}), i);
  }

  lemma AfterTheKey(a: seq<Key>, key: Key, b: seq<Key>, i: nat)
    requires Distinct(a + ([key] + b)) && i < |a + ([key] + b)| && (a + ([key] + b))[i] == key
    ensures (a + ([key] + b))[i + 1..] == b
  {
    var all := a + ([key] + b);
    assert all[|a|] == key;
    assert i == |a|;
  }

  /**
   After any writes a key is found, with the image last written to it, exactly when fewer distinct
   other keys have been written since than there is room for.
   */
  lemma GetIsLastWrite(history: seq<Write>, capacity: nat, key: Key)
    ensures Lookup(After(history, capacity).images, key)
         == if LastValue(history, key).Some? && |WrittenSince(history, key)| < Room(capacity)
           then LastValue(history, key) else None
  {
    hide Without, After, WrittenSince, LastValue;
    var c := After(history, capacity);
    var order := Recency(history);
    AfterIsNewest(history, capacity);
    RecencyIs(history);
    assert key in c.images <==> key in c.order by { assert key in SetOf(c.order) <==> key in c.order; }
    if key in order {
      var i :| 0 <= i < |order| && order[i] == key;
      BehindIsSince(history, key, i);
      SetSize(order[i + 1..]);
      InNewest(order, i, Room(capacity));
    } else {
      NotInNewest(order, key, Room(capacity));
    }
  }

  lemma InNewest(order: seq<Key>, i: nat, m: nat)
    requires Distinct(order) && i < |order|
    ensures order[i] in Newest(order, m) <==> |order| - 1 - i < m
  {
    var w := Newest(order, m);
    if |order| - 1 - i < m {
      assert w[if |order| <= m then i else i - (|order| - m)] == order[i];
    }
  }

  lemma NotInNewest(order: seq<Key>, key: Key, m: nat)
    requires key !in order
    ensures key !in Newest(order, m)
  {
  }
}
