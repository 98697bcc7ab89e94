/**
 * Where annotations live on disk and how their versions are numbered: a
 * video `dir/name.ext` has its annotations in `dir/name_annotations_vN.json`.
 *
 * The directory holding the video is given as the list of its file names,
 * in the order a directory listing returns them; saving and deleting
 * return the listing they leave behind.
 */
module AnnotationRepository {

  import opened Optional
  import opened Text
  import opened DomainResult
  import opened Sorting
  import opened Annotation

  datatype AnnotationError = SaveFailed(path: string)

  // ---------------------------------------------------------------------
  // Names

  /** `f"{base}_annotations_v{version}.json"`, with `*` when no version is given. */
  function AnnotationFileName(base: string, version: Option<int>): string {
    base + "_annotations_v" + (if version.Some? then IntToString(version.value) else "*") + ".json"
  }

  /** `get_annotation_path`: the annotation file next to the video. */
  function GetAnnotationPath(videoPath: string, version: Option<int>): string {
    JoinPath(Parent(videoPath), AnnotationFileName(Stem(videoPath), version))
  }

  /** The file names the glob `{base}_annotations_v*.json` matches. */
  predicate GlobMatches(base: string, name: string) {
    var prefix := base + "_annotations_v";
    |name| >= |prefix| + 5 && StartsWith(name, prefix) && EndsWith(name, ".json")
  }

  /** `int(Path(name).stem.split('_v')[-1])`, or None when that raises. */
  function VersionOf(name: string): Option<int> {
    ParseInt(AfterLast(Stem(name), "_v"))
  }

  /** The versions the glob loop collects, in listing order. */
  function Versions(base: string, names: seq<string>): (vs: seq<int>)
    ensures |vs| <= |names|
  {
    if names == [] then []
    else
      var rest := Versions(base, names[..|names| - 1]);
      var name := names[|names| - 1];
      if GlobMatches(base, name) && VersionOf(name).Some? then rest + [VersionOf(name).value] else rest
  }

  /** `max(versions) if versions else None`. */
  function MaxOf(xs: seq<int>): (r: Option<int>)
    ensures r.None? <==> xs == []
    ensures r.Some? ==> r.value in xs && forall x :: x in xs ==> x <= r.value
  {
    if xs == [] then None
    else
      var rest := MaxOf(xs[..|xs| - 1]);
      var last := xs[|xs| - 1];
      assert xs == xs[..|xs| - 1] + [last];
      if rest.Some? && rest.value >= last then rest else Some(last)
  }

  /** The loop `find_latest_version` and `list_versions` share: every parsable match, in order. */
  method CollectVersions(base: string, names: seq<string>) returns (versions: seq<int>)
    ensures versions == Versions(base, names)
  {
    versions := [];
    for i := 0 to |names|
      invariant versions == Versions(base, names[..i])
    {
      assert names[..i + 1][..i] == names[..i];
      var file := names[i];
      if GlobMatches(base, file) {
        var parsed := VersionOf(file);
        if parsed.Some? {
          versions := versions + [parsed.value];
        }
      }
    }
    assert names[..|names|] == names;
  }

  /** `find_latest_version`: the largest version found, or None. */
  method FindLatestVersion(videoPath: string, names: seq<string>) returns (r: Option<int>)
    ensures r == MaxOf(Versions(Stem(videoPath), names))
  {
    var versions := CollectVersions(Stem(videoPath), names);
    r := MaxOf(versions);
  }

  /** `list_versions`: the versions found, ascending. */
  method ListVersions(videoPath: string, names: seq<string>) returns (vs: seq<int>)
    ensures Sorted(vs, IntLe)
    ensures multiset(vs) == multiset(Versions(Stem(videoPath), names))
  {
    var versions := CollectVersions(Stem(videoPath), names);
    IntLeTotal();
    vs := Sort(versions, IntLe);
  }

  // ---------------------------------------------------------------------
  // Saving

  /**
   * The version `save` writes: one past the latest (a missing or zero
   * latest counts as 1) for a new version, else the annotation's own,
   * with 1 for none.
   */
  function SaveVersion(current: Option<int>, createNew: bool, latest: Option<int>): (v: int)
    ensures createNew && (latest.None? || latest == Some(0)) ==> v == 2
    ensures createNew && latest.Some? && latest.value != 0 ==> v == latest.value + 1
    ensures !createNew ==> v == (if current.Some? then current.value else 1)
  {
    if createNew then
      (if latest.Some? && latest.value != 0 then latest.value else 1) + 1
    else if current.Some? then current.value
    else 1
  }

  /**
   * `save`: for a new version the latest on disk is looked up first; the
   * annotation gets its version and is written under the matching name,
   * which then appears in the listing.
   */
  method Save(a: VideoAnnotation, createNewVersion: bool, names: seq<string>, writeSucceeds: bool)
    returns (r: Result<(VideoAnnotation, string), AnnotationError>, after: seq<string>)
    ensures var latest := MaxOf(Versions(Stem(a.videoPath), names));
      var version := SaveVersion(Some(a.version), createNewVersion, latest);
      var path := GetAnnotationPath(a.videoPath, Some(version));
      var name := AnnotationFileName(Stem(a.videoPath), Some(version));
      && (writeSucceeds ==> r == Ok((a.(version := version), path)))
      && (!writeSucceeds ==> r == Err(SaveFailed(path)))
      && after == (if writeSucceeds && name !in names then names + [name] else names)
  {
    var version := a.version;
    if createNewVersion {
      var latestVersion := FindLatestVersion(a.videoPath, names);
      version := SaveVersion(None, true, latestVersion);
    }
    var annotationPath := GetAnnotationPath(a.videoPath, Some(version));
    if !writeSucceeds {
      return Err(SaveFailed(annotationPath)), names;
    }
    var name := AnnotationFileName(Stem(a.videoPath), Some(version));
    after := if name in names then names else names + [name];
    r := Ok((a.(version := version), annotationPath));
  }

  // ---------------------------------------------------------------------
  // Deleting

  /** What the delete loop has left and counted after handling `vs`. */
  function DeleteRun(base: string, names: seq<string>, vs: seq<int>, unlinkFails: set<string>): (st: (set<string>, nat))
    ensures st.1 == |st.0| && st.0 <= set n | n in names
  {
    if vs == [] then ({}, 0)
    else
      var st := DeleteRun(base, names, vs[..|vs| - 1], unlinkFails);
      var name := AnnotationFileName(base, Some(vs[|vs| - 1]));
      if name in names && name !in st.0 && name !in unlinkFails then (st.0 + {name}, st.1 + 1) else st
  }

  /** Handling one more version deletes its file when it is listed, not yet deleted, and unlinks. */
  lemma DeleteRunSnoc(base: string, names: seq<string>, vs: seq<int>, unlinkFails: set<string>, i: nat)
    requires i < |vs|
    ensures var st := DeleteRun(base, names, vs[..i], unlinkFails);
      var name := AnnotationFileName(base, Some(vs[i]));
      DeleteRun(base, names, vs[..i + 1], unlinkFails) ==
        if name in names && name !in st.0 && name !in unlinkFails then (st.0 + {name}, st.1 + 1) else st
  {
    assert vs[..i + 1][..i] == vs[..i];
  }

  /** The listing without the deleted names. */
  function Remaining(names: seq<string>, deleted: set<string>): seq<string> {
    if names == [] then []
    else
      var rest := Remaining(names[..|names| - 1], deleted);
      if names[|names| - 1] in deleted then rest else rest + [names[|names| - 1]]
  }

  /**
   * `delete_all_versions`: for each listed version, remove the file with
   * that version's name if it exists; an unlink that fails is skipped.
   * Always Ok, with the number of files actually removed.
   */
  method DeleteAllVersions(videoPath: string, names: seq<string>, unlinkFails: set<string>)
    returns (r: Result<int, AnnotationError>, after: seq<string>)
    ensures var vs := Sort(Versions(Stem(videoPath), names), IntLe);
      var st := DeleteRun(Stem(videoPath), names, vs, unlinkFails);
      r == Ok(st.1) && after == Remaining(names, st.0)
  {
    var base := Stem(videoPath);
    var versions := CollectVersions(base, names);
    IntLeTotal();
    versions := Sort(versions, IntLe);
    var deleted: set<string> := {};
    var deletedCount := 0;
    for i := 0 to |versions|
      invariant (deleted, deletedCount) == DeleteRun(base, names, versions[..i], unlinkFails)
    {
      DeleteRunSnoc(base, names, versions, unlinkFails, i);
      var name := AnnotationFileName(base, Some(versions[i]));
      if name in names && name !in deleted {
        if name !in unlinkFails {
          deleted := deleted + {name};
          deletedCount := deletedCount + 1;
        }
      }
    }
    assert versions[..|versions|] == versions;
    r := Ok(deletedCount);
    after := Remaining(names, deleted);
  }

  // ---------------------------------------------------------------------
  // What the naming promises

  lemma NoSlashFileName(name: string)
    requires |name| >= 1 && name[|name| - 1] != '/'
    requires forall i :: 0 <= i < |name| ==> name[i] != '/'
    ensures FileName(name) == name
  {
    assert StripTrailingSlashes(name) == name;
  }

  lemma IntToStringNoUnderscore(i: int)
    ensures forall c :: 0 <= c < |IntToString(i)| ==> IntToString(i)[c] != '_'
    ensures forall c :: 0 <= c < |IntToString(i)| ==> IntToString(i)[c] != '/' && IntToString(i)[c] != '.'
  {
    var digits := NatToString(if i < 0 then -i else i);
    assert forall c :: 0 <= c < |digits| ==> IsDigit(digits[c]);
  }

  lemma AfterLastStep(s: string, sep: string)
    requires |sep| >= 1 && |s| >= 1
    requires |s| < |sep| || s[|s| - |sep|..] != sep
    ensures AfterLast(s, sep) == (if |s| < |sep| then s else AfterLast(s[..|s| - 1], sep) + [s[|s| - 1]])
  {
  }

  /**
   * What follows the last `sep` of `x + sep + d` is `d`, for a two-character
   * separator starting with an underscore and a `d` without one.
   */
  lemma {:induction false} AfterLastMarker(x: string, sep: string, d: string)
    requires |sep| == 2 && sep[0] == '_' && sep[1] != '_'
    requires forall c :: 0 <= c < |d| ==> d[c] != '_'
    ensures AfterLast(x + sep + d, sep) == d
    decreases |d|
  {
    var s := x + sep + d;
    if d == [] {
      assert s[|s| - 2..] == sep;
    } else {
      var init := d[..|d| - 1];
      AfterLastMarker(x, sep, init);
      assert s[..|s| - 1] == x + sep + init;
      assert s[|s| - 2] != '_' by {
        if |d| >= 2 {
          assert s[|s| - 2] == d[|d| - 2];
        } else {
          assert s[|s| - 2] == sep[1];
        }
      }
      assert s[|s| - 2..][0] == s[|s| - 2];
      AfterLastStep(s, sep);
      assert init + [d[|d| - 1]] == d;
    }
  }

  /** The stem of `stem + ".json"`. */
  lemma JsonStem(stem: string)
    requires forall c :: 0 <= c < |stem| ==> stem[c] != '/'
    requires |stem| >= 1
    ensures Stem(stem + ".json") == stem
  {
    var name := stem + ".json";
    JsonNameNoSlash(stem);
    NoSlashFileName(name);
    assert stem + ['.'] + "json" == name;
    LastIndexOfCharSplit(stem, '.', "json");
    assert LastIndexOfChar(name, '.') == |stem|;
    assert name[..|stem|] == stem;
  }

  lemma JsonNameNoSlash(stem: string)
    requires forall c :: 0 <= c < |stem| ==> stem[c] != '/'
    ensures forall c :: 0 <= c < |stem + ".json"| ==> (stem + ".json")[c] != '/'
  {
    var name := stem + ".json";
    forall c | 0 <= c < |name|
      ensures name[c] != '/'
    {
      if c < |stem| {
        assert name[c] == stem[c];
      } else {
        assert name[c] == ".json"[c - |stem|];
      }
    }
  }

  /**
   * A versioned name built for `base` is matched by the glob and reads
   * back as its version.
   */
  lemma VersionOfAnnotationName(base: string, v: int)
    requires forall c :: 0 <= c < |base| ==> base[c] != '/'
    ensures GlobMatches(base, AnnotationFileName(base, Some(v)))
    ensures VersionOf(AnnotationFileName(base, Some(v))) == Some(v)
  {
    GlobMatchesName(base, v);
    VersionOfName(base, v);
  }

  lemma VersionOfName(base: string, v: int)
    requires forall c :: 0 <= c < |base| ==> base[c] != '/'
    ensures VersionOf(AnnotationFileName(base, Some(v))) == Some(v)
  {
    StemOfName(base, v);
    AfterVersionMarker(base, v);
    ParseIntOfIntToString(v);
  }

  lemma AfterVersionMarker(base: string, v: int)
    ensures AfterLast(base + "_annotations_v" + IntToString(v), "_v") == IntToString(v)
  {
    var digits := IntToString(v);
    IntToStringNoUnderscore(v);
    var head := base + "_annotations";
    assert head + "_v" + digits == base + "_annotations_v" + digits;
    AfterLastMarker(head, "_v", digits);
  }

  lemma GlobMatchesName(base: string, v: int)
    ensures GlobMatches(base, AnnotationFileName(base, Some(v)))
  {
    var name := AnnotationFileName(base, Some(v));
    var prefix := base + "_annotations_v";
    assert name == prefix + IntToString(v) + ".json";
    assert name[..|prefix|] == prefix;
    assert name[|name| - 5..] == ".json";
  }

  lemma StemOfName(base: string, v: int)
    requires forall c :: 0 <= c < |base| ==> base[c] != '/'
    ensures Stem(AnnotationFileName(base, Some(v))) == base + "_annotations_v" + IntToString(v)
  {
    IntToStringNoUnderscore(v);
    var stem := base + "_annotations_v" + IntToString(v);
    assert AnnotationFileName(base, Some(v)) == stem + ".json";
    JsonStem(stem);
  }

  /** The largest version is the last one `list_versions` returns. */
  lemma LatestIsLastListed(xs: seq<int>, vs: seq<int>)
    requires Sorted(vs, IntLe) && multiset(vs) == multiset(xs) && xs != []
    ensures |vs| >= 1 && MaxOf(xs) == Some(vs[|vs| - 1])
  {
    assert |vs| == |xs| by {
      assert |multiset(vs)| == |vs| && |multiset(xs)| == |xs|;
    }
    var m := MaxOf(xs).value;
    var top := vs[|vs| - 1];
    assert top in multiset(xs);
    assert top in xs;
    assert m in multiset(vs);
    var j :| 0 <= j < |vs| && vs[j] == m;
    if j < |vs| - 1 {
      assert IntLe(vs[j], vs[|vs| - 1]);
    }
    assert m <= top;
  }

  /** A new version is one past the latest. */
  lemma NewVersionIsNext(latest: int)
    requires latest >= 1
    ensures SaveVersion(None, true, Some(latest)) == latest + 1
    ensures SaveVersion(None, true, None) == 2
  {
  }

  /** Saving v1 and then a new version gives v2; an annotation without a version saves as v1. */
  lemma SaveVersionExamples()
    ensures SaveVersion(Some(1), true, Some(1)) == 2
    ensures SaveVersion(None, false, None) == 1
    ensures SaveVersion(Some(3), false, Some(7)) == 3
  {
  }

  /** At most one file per listed version is removed. */
  lemma {:induction false} DeleteCountBound(base: string, names: seq<string>, vs: seq<int>, unlinkFails: set<string>)
    ensures DeleteRun(base, names, vs, unlinkFails).1 <= |vs|
  {
    if vs != [] {
      DeleteCountBound(base, names, vs[..|vs| - 1], unlinkFails);
    }
  }

  /** A failing unlink, or a version with no file of its name, removes nothing. */
  lemma {:induction false} NothingToDelete(base: string, names: seq<string>, vs: seq<int>, unlinkFails: set<string>)
    requires forall k :: 0 <= k < |vs| ==>
      AnnotationFileName(base, Some(vs[k])) !in names || AnnotationFileName(base, Some(vs[k])) in unlinkFails
    ensures DeleteRun(base, names, vs, unlinkFails) == ({}, 0)
  {
    if vs != [] {
      NothingToDelete(base, names, vs[..|vs| - 1], unlinkFails);
    }
  }

  /**
   * When every listed version's file exists and can be removed, each
   * distinct version removes exactly its own file.
   */
  lemma {:induction false} DeleteAllCanonical(base: string, names: seq<string>, vs: seq<int>)
    requires forall k :: 0 <= k < |vs| ==> AnnotationFileName(base, Some(vs[k])) in names
    requires forall i, j :: 0 <= i < j < |vs| ==> vs[i] != vs[j]
    ensures DeleteRun(base, names, vs, {}).1 == |vs|
    ensures forall w :: AnnotationFileName(base, Some(w)) in DeleteRun(base, names, vs, {}).0 <==> w in vs
  {
    if vs != [] {
      var init := vs[..|vs| - 1];
      var v := vs[|vs| - 1];
      assert forall k :: 0 <= k < |init| ==> init[k] == vs[k];
      DeleteAllCanonical(base, names, init);
      assert v !in init;
      var st := DeleteRun(base, names, init, {});
      assert vs == init + [v];
      DeleteRunLast(base, names, init, v, {});
      DeletedNamesStep(base, st.0, init, v);
    }
  }

  lemma DeleteRunLast(base: string, names: seq<string>, init: seq<int>, v: int, unlinkFails: set<string>)
    ensures var st := DeleteRun(base, names, init, unlinkFails);
      var name := AnnotationFileName(base, Some(v));
      DeleteRun(base, names, init + [v], unlinkFails) ==
        if name in names && name !in st.0 && name !in unlinkFails then (st.0 + {name}, st.1 + 1) else st
  {
    assert (init + [v])[..|init|] == init;
  }

  lemma DeletedNamesStep(base: string, deleted: set<string>, init: seq<int>, v: int)
    requires forall w :: AnnotationFileName(base, Some(w)) in deleted <==> w in init
    ensures forall w :: AnnotationFileName(base, Some(w)) in deleted + {AnnotationFileName(base, Some(v))} <==> w in init + [v]
  {
    forall w
      ensures AnnotationFileName(base, Some(w)) in deleted + {AnnotationFileName(base, Some(v))} <==> w in init + [v]
    {
      if AnnotationFileName(base, Some(w)) == AnnotationFileName(base, Some(v)) {
        AnnotationFileNameInjective(base, w, v);
      }
    }
  }

  lemma AnnotationFileNameInjective(base: string, v: int, w: int)
    requires AnnotationFileName(base, Some(v)) == AnnotationFileName(base, Some(w))
    ensures v == w
  {
    var a := AnnotationFileName(base, Some(v));
    var prefix := base + "_annotations_v";
    assert a[|prefix|..|a| - 5] == IntToString(v);
    assert a[|prefix|..|a| - 5] == IntToString(w);
    ParseIntOfIntToString(v);
    ParseIntOfIntToString(w);
  }
}
