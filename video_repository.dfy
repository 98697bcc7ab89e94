/**
 * The registry of videos in the library: a list cached in memory, read from
 * the registry file on first use and written back after every change.
 *
 * The registry file is the field `onDisk`; whether a write succeeds is a
 * parameter of each writing operation, and `existing` is the set of video
 * paths present on disk when the cache is first filled.
 */
module VideoRepository {

  import opened Optional
  import opened VideoItems

  // ---------------------------------------------------------------------
  // The list operations, as values

  /** The position of the first entry for `path`, or -1. */
  function IndexOfPath(items: seq<VideoItem>, path: string): (k: int)
    ensures -1 <= k < |items|
    ensures k == -1 <==> forall j :: 0 <= j < |items| ==> items[j].videoPath != path
    ensures k >= 0 ==> items[k].videoPath == path && forall j :: 0 <= j < k ==> items[j].videoPath != path
  {
    if items == [] then -1
    else if items[0].videoPath == path then 0
    else
      var k := IndexOfPath(items[1..], path);
      if k == -1 then -1 else k + 1
  }

  /** No two entries share a video path. */
  predicate UniquePaths(items: seq<VideoItem>) {
    forall i, j :: 0 <= i < j < |items| ==> items[i].videoPath != items[j].videoPath
  }

  /** The entries `_load_from_disk` keeps: a non-empty path whose file still exists. */
  function Loaded(stored: seq<VideoItem>, existing: set<string>): seq<VideoItem> {
    if stored == [] then []
    else
      var rest := Loaded(stored[..|stored| - 1], existing);
      var item := stored[|stored| - 1];
      if item.videoPath != "" && item.videoPath in existing then rest + [item] else rest
  }

  /** The list after `add`: the first entry with the same path replaced, or the item appended. */
  function AddedTo(items: seq<VideoItem>, item: VideoItem): (r: seq<VideoItem>)
    ensures var k := IndexOfPath(items, item.videoPath);
      && (k >= 0 ==> |r| == |items| && r[k] == item &&
                     forall j :: 0 <= j < |items| && j != k ==> r[j] == items[j])
      && (k < 0 ==> r == items + [item])
    ensures UniquePaths(items) ==> UniquePaths(r)
  {
    var k := IndexOfPath(items, item.videoPath);
    if k >= 0 then items[k := item] else items + [item]
  }

  /** The list after `remove`: every entry for `path` dropped, the rest in order. */
  function Without(items: seq<VideoItem>, path: string): (r: seq<VideoItem>)
    ensures |r| <= |items|
  {
    if items == [] then []
    else
      var rest := Without(items[..|items| - 1], path);
      var item := items[|items| - 1];
      if item.videoPath != path then rest + [item] else rest
  }

  /** `find_by_path`: the first entry for `path`. */
  function FindIn(items: seq<VideoItem>, path: string): Option<VideoItem> {
    var k := IndexOfPath(items, path);
    if k >= 0 then Some(items[k]) else None
  }

  /** The list after `update_status`: the first entry for `path` gets the new status. */
  function WithStatus(items: seq<VideoItem>, path: string, processed: bool, version: Option<int>): (r: seq<VideoItem>)
    ensures |r| == |items|
    ensures IndexOfPath(items, path) < 0 ==> r == items
    ensures var k := IndexOfPath(items, path);
      k >= 0 ==>
        && r[k].processed == processed
        && r[k].annotationVersion == (if version.Some? then version else items[k].annotationVersion)
        && r[k].videoPath == path && r[k].thumbnailPath == items[k].thumbnailPath
        && r[k].duration == items[k].duration && r[k].fps == items[k].fps
        && forall j :: 0 <= j < |items| && j != k ==> r[j] == items[j]
    ensures UniquePaths(items) ==> UniquePaths(r)
  {
    var k := IndexOfPath(items, path);
    if k < 0 then items
    else
      var item := items[k];
      items[k := item.(processed := processed,
                       annotationVersion := if version.Some? then version else item.annotationVersion)]
  }

  // ---------------------------------------------------------------------
  // The repository

  class Registry {
    /** `_cache is not None`. */
    var loaded: bool
    /** `_cache`, meaningful once `loaded`. */
    var cache: seq<VideoItem>
    /** What the registry file holds. */
    var onDisk: seq<VideoItem>
    /** The video files present when the cache is filled. */
    var existing: set<string>

    /** The list every operation works on: the cache, filled from disk if need be. */
    function Items(): seq<VideoItem>
      reads this
    {
      if loaded then cache else Loaded(onDisk, existing)
    }

    constructor(stored: seq<VideoItem>, files: set<string>)
      ensures !loaded && onDisk == stored && existing == files
      ensures Items() == Loaded(stored, files)
    {
      loaded := false;
      cache := [];
      onDisk := stored;
      existing := files;
    }

    /** `_ensure_cache`. */
    method EnsureCache()
      modifies this
      ensures loaded && cache == old(Items())
      ensures onDisk == old(onDisk) && existing == old(existing)
    {
      if !loaded {
        cache := Loaded(onDisk, existing);
        loaded := true;
      }
    }

    /** `_persist`: the file holds `items` if the write succeeds. */
    method Persist(items: seq<VideoItem>, writeSucceeds: bool) returns (ok: bool)
      modifies this
      ensures ok == writeSucceeds
      ensures onDisk == (if writeSucceeds then items else old(onDisk))
      ensures loaded == old(loaded) && cache == old(cache) && existing == old(existing)
    {
      if writeSucceeds {
        onDisk := items;
      }
      ok := writeSucceeds;
    }

    /** `get_all`: a copy of the list. */
    method GetAll() returns (items: seq<VideoItem>)
      modifies this
      ensures items == old(Items())
      ensures loaded && cache == old(Items())
      ensures onDisk == old(onDisk) && existing == old(existing)
    {
      EnsureCache();
      items := cache;
    }

    /** `add`: replace the entry with the same path in place, or append. */
    method Add(item: VideoItem, writeSucceeds: bool) returns (ok: bool)
      modifies this
      ensures loaded && cache == AddedTo(old(Items()), item)
      ensures onDisk == (if writeSucceeds then cache else old(onDisk)) && existing == old(existing)
      ensures ok == writeSucceeds
    {
      EnsureCache();
      var items := cache;
      for i := 0 to |items|
        invariant cache == items && onDisk == old(onDisk) && existing == old(existing)
        invariant forall j :: 0 <= j < i ==> items[j].videoPath != item.videoPath
      {
        if items[i].videoPath == item.videoPath {
          cache := items[i := item];
          ok := Persist(cache, writeSucceeds);
          return;
        }
      }
      cache := items + [item];
      ok := Persist(cache, writeSucceeds);
    }

    /** `remove`: drop every entry for `path`; false when there was none. */
    method Remove(path: string, writeSucceeds: bool) returns (ok: bool)
      modifies this
      ensures loaded && cache == Without(old(Items()), path)
      ensures ok == (|cache| < |old(Items())| && writeSucceeds)
      ensures onDisk == (if ok then cache else old(onDisk)) && existing == old(existing)
    {
      EnsureCache();
      var originalCount := |cache|;
      cache := Without(cache, path);
      if |cache| < originalCount {
        ok := Persist(cache, writeSucceeds);
        return;
      }
      ok := false;
    }

    /** `find_by_path`: the first entry for `path`, or None. */
    method FindByPath(path: string) returns (r: Option<VideoItem>)
      modifies this
      ensures r == FindIn(old(Items()), path)
      ensures loaded && cache == old(Items())
      ensures onDisk == old(onDisk) && existing == old(existing)
    {
      EnsureCache();
      for i := 0 to |cache|
        invariant forall j :: 0 <= j < i ==> cache[j].videoPath != path
      {
        if cache[i].videoPath == path {
          return Some(cache[i]);
        }
      }
      return None;
    }

    /**
     * `update_status`: the first entry for `path` gets the new processed
     * flag, and the new version when one is given; false for an unknown path.
     */
    method UpdateStatus(path: string, processed: bool, version: Option<int>, writeSucceeds: bool) returns (ok: bool)
      modifies this
      ensures loaded && cache == WithStatus(old(Items()), path, processed, version)
      ensures ok == (IndexOfPath(old(Items()), path) >= 0 && writeSucceeds)
      ensures onDisk == (if ok then cache else old(onDisk)) && existing == old(existing)
    {
      EnsureCache();
      for i := 0 to |cache|
        invariant cache == old(Items()) && onDisk == old(onDisk) && existing == old(existing)
        invariant forall j :: 0 <= j < i ==> cache[j].videoPath != path
      {
        if cache[i].videoPath == path {
          var item := cache[i];
          var updated := item.(processed := processed);
          if version.Some? {
            updated := updated.(annotationVersion := version);
          }
          cache := cache[i := updated];
          ok := Persist(cache, writeSucceeds);
          return;
        }
      }
      ok := false;
    }

    /** `clear_all`: empty the cache and write an empty registry. */
    method ClearAll(writeSucceeds: bool) returns (ok: bool)
      modifies this
      ensures loaded && cache == []
      ensures onDisk == (if writeSucceeds then [] else old(onDisk)) && existing == old(existing)
      ensures ok == writeSucceeds
    {
      cache := [];
      loaded := true;
      ok := Persist([], writeSucceeds);
    }
  }

  // ---------------------------------------------------------------------
  // What the operations promise

  /** Paths are unique after any sequence of adds to an empty registry. */
  lemma {:induction false} AddsKeepUnique(adds: seq<VideoItem>)
    ensures UniquePaths(AddAll([], adds))
  {
    if adds != [] {
      AddsKeepUnique(adds[..|adds| - 1]);
    }
  }

  /** Loading keeps exactly the stored entries with a path whose file exists, in order. */
  lemma {:induction false} LoadedKeepsExisting(stored: seq<VideoItem>, existing: set<string>)
    ensures forall x :: x in Loaded(stored, existing) <==> x in stored && x.videoPath != "" && x.videoPath in existing
    ensures |Loaded(stored, existing)| <= |stored|
  {
    if stored != [] {
      LoadedKeepsExisting(stored[..|stored| - 1], existing);
      assert stored == stored[..|stored| - 1] + [stored[|stored| - 1]];
    }
  }

  /** The list after a sequence of `add` calls. */
  function AddAll(items: seq<VideoItem>, adds: seq<VideoItem>): seq<VideoItem> {
    if adds == [] then items else AddedTo(AddAll(items, adds[..|adds| - 1]), adds[|adds| - 1])
  }

  /** An added item is what `find_by_path` then returns. */
  lemma FindAfterAdd(items: seq<VideoItem>, item: VideoItem)
    ensures FindIn(AddedTo(items, item), item.videoPath) == Some(item)
  {
    var k := IndexOfPath(items, item.videoPath);
    var added := AddedTo(items, item);
    if k >= 0 {
      assert forall j :: 0 <= j < k ==> added[j] == items[j];
      assert added[k] == item;
      var r := IndexOfPath(added, item.videoPath);
      assert !(r < k) && !(r > k);
    } else {
      assert forall j :: 0 <= j < |items| ==> added[j] == items[j];
      assert added[|items|] == item;
    }
  }

  /** `remove` keeps exactly the entries for other paths. */
  lemma {:induction false} WithoutKeepsOthers(items: seq<VideoItem>, path: string)
    ensures forall x :: x in Without(items, path) <==> x in items && x.videoPath != path
  {
    if items != [] {
      WithoutKeepsOthers(items[..|items| - 1], path);
      assert items == items[..|items| - 1] + [items[|items| - 1]];
    }
  }

  /** `remove` reports a removal exactly when some entry had the path. */
  lemma WithoutShrinksIff(items: seq<VideoItem>, path: string)
    ensures |Without(items, path)| < |items| <==> IndexOfPath(items, path) >= 0
  {
    WithoutKeepsAll(items, path);
  }

  /** Nothing is dropped exactly when no entry has the path. */
  lemma {:induction false} WithoutKeepsAll(items: seq<VideoItem>, path: string)
    ensures |Without(items, path)| == |items| <==> forall j :: 0 <= j < |items| ==> items[j].videoPath != path
  {
    if items != [] {
      var init := items[..|items| - 1];
      WithoutKeepsAll(init, path);
      assert forall j :: 0 <= j < |init| ==> init[j] == items[j];
    }
  }

  /** The entries `remove` keeps stay in their order: each one's predecessors are kept before it. */
  lemma {:induction false} WithoutIsSubsequence(items: seq<VideoItem>, path: string)
    ensures Without(items, path) == Filtered(items, path)
  {
    if items != [] {
      var init := items[..|items| - 1];
      WithoutIsSubsequence(init, path);
      FilteredSnoc(init, items[|items| - 1], path);
      assert init + [items[|items| - 1]] == items;
    }
  }

  lemma {:induction false} FilteredSnoc(items: seq<VideoItem>, x: VideoItem, path: string)
    ensures Filtered(items + [x], path) == Filtered(items, path) + (if x.videoPath != path then [x] else [])
    decreases |items|
  {
    if items == [] {
      assert [] + [x] == [x];
      assert [x][1..] == [];
    } else {
      FilteredSnoc(items[1..], x, path);
      FilteredCons(items, x, path);
    }
  }

  lemma FilteredCons(items: seq<VideoItem>, x: VideoItem, path: string)
    requires items != []
    ensures Filtered(items + [x], path) ==
      (if items[0].videoPath != path then [items[0]] else []) + Filtered(items[1..] + [x], path)
  {
    assert (items + [x])[0] == items[0];
    assert (items + [x])[1..] == items[1..] + [x];
  }

  /** The list comprehension of `remove`, written from the front. */
  function Filtered(items: seq<VideoItem>, path: string): seq<VideoItem>
    decreases |items|
  {
    if items == [] then []
    else (if items[0].videoPath != path then [items[0]] else []) + Filtered(items[1..], path)
  }

  /** After a removal the path is gone and every other path still finds what it found. */
  lemma {:induction false} FindAfterRemove(items: seq<VideoItem>, path: string, other: string)
    ensures FindIn(Without(items, path), path) == None
    ensures other != path ==> FindIn(Without(items, path), other) == FindIn(items, other)
  {
    WithoutKeepsOthers(items, path);
    var r := Without(items, path);
    forall j | 0 <= j < |r|
      ensures r[j].videoPath != path
    {
      assert r[j] in r;
    }
    if other != path {
      FilteredFind(items, path, other);
      WithoutIsSubsequence(items, path);
    }
  }

  lemma {:induction false} FilteredFind(items: seq<VideoItem>, path: string, other: string)
    requires other != path
    ensures FindIn(Filtered(items, path), other) == FindIn(items, other)
    decreases |items|
  {
    if items != [] {
      FilteredFind(items[1..], path, other);
      var rest := Filtered(items[1..], path);
      FindInCons(items[0], items[1..], other);
      assert [items[0]] + items[1..] == items;
      if items[0].videoPath != path {
        FindInCons(items[0], rest, other);
        assert Filtered(items, path) == [items[0]] + rest;
      } else {
        assert Filtered(items, path) == rest;
      }
    }
  }

  lemma FindInCons(x: VideoItem, rest: seq<VideoItem>, p: string)
    ensures FindIn([x] + rest, p) == if x.videoPath == p then Some(x) else FindIn(rest, p)
  {
    assert ([x] + rest)[1..] == rest;
  }

  /** After `update_status`, `find_by_path` sees the new status. */
  lemma FindAfterUpdate(items: seq<VideoItem>, path: string, processed: bool, version: Option<int>)
    requires IndexOfPath(items, path) >= 0
    ensures FindIn(WithStatus(items, path, processed, version), path).Some?
    ensures FindIn(WithStatus(items, path, processed, version), path).value.processed == processed
    ensures version.Some? ==> FindIn(WithStatus(items, path, processed, version), path).value.annotationVersion == version
  {
    var k := IndexOfPath(items, path);
    var r := WithStatus(items, path, processed, version);
    assert forall j :: 0 <= j < k ==> r[j] == items[j];
  }
}
