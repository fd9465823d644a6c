/**
 * `GameJoltArchiver.get_file_details`: the flat file-details record built
 * from the gameserver descriptor, each output key present only when its
 * source is present (or, for some keys, truthy).
 */
module FileDetails {
  import opened JsonValues

  /**
   * The descriptors on which `get_file_details` does not raise: `build`,
   * its `primary_file` and `game`, when present, are objects.
   */
  predicate WellShaped(info: map<string, Json>) {
    && ("build" in info ==> info["build"].Obj?)
    && ("build" in info && "primary_file" in info["build"].fields ==>
          info["build"].fields["primary_file"].Obj?)
    && ("game" in info ==> info["game"].Obj?)
  }

  function BuildOf(info: map<string, Json>): map<string, Json>
    requires WellShaped(info)
  {
    if "build" in info then info["build"].fields else map[]
  }

  predicate HasPrimaryFile(info: map<string, Json>)
    requires WellShaped(info)
  {
    "build" in info && "primary_file" in BuildOf(info)
  }

  function PrimaryFileOf(info: map<string, Json>): map<string, Json>
    requires WellShaped(info)
  {
    if HasPrimaryFile(info) then BuildOf(info)["primary_file"].fields else map[]
  }

  function GameOf(info: map<string, Json>): map<string, Json>
    requires WellShaped(info)
  {
    if "game" in info then info["game"].fields else map[]
  }

  // ---------------------------------------------------------------------------
  // Platforms

  /** The build flags and the platform names they stand for, in the order they are tested. */
  const OsFlags: seq<(string, string)> :=
    [("os_windows", "Windows"), ("os_mac", "Mac"), ("os_linux", "Linux"), ("os_other", "Other")]

  const PlatformNames: seq<string> := ["Windows", "Mac", "Linux", "Other"]

  function Names(flags: seq<(string, string)>): (names: seq<string>)
    ensures |names| == |flags|
    ensures forall i :: 0 <= i < |flags| ==> names[i] == flags[i].1
  {
    seq(|flags|, i requires 0 <= i < |flags| => flags[i].1)
  }

  /** The names whose flag is truthy in `build`, in the order of `flags`. */
  function Selected(flags: seq<(string, string)>, build: map<string, Json>): seq<string>
    decreases |flags|
  {
    if flags == [] then []
    else (if Truthy(Get(build, flags[0].0)) then [flags[0].1] else []) + Selected(flags[1..], build)
  }

  /** The `platforms` list of a build. */
  function Platforms(build: map<string, Json>): seq<string> {
    Selected(OsFlags, build)
  }

  /** `a` is `b` with some elements left out, the rest kept in order. */
  predicate IsSubsequence<T(==)>(a: seq<T>, b: seq<T>)
    decreases |b|
  {
    if a == [] then true
    else if b == [] then false
    else (a[0] == b[0] && IsSubsequence(a[1..], b[1..])) || IsSubsequence(a, b[1..])
  }

  predicate NoDuplicates<T(==)>(s: seq<T>) {
    forall i, j :: 0 <= i < j < |s| ==> s[i] != s[j]
  }

  lemma {:induction false} SubsequenceOfDistinct<T>(a: seq<T>, b: seq<T>)
    requires IsSubsequence(a, b) && NoDuplicates(b)
    ensures NoDuplicates(a) && |a| <= |b|
    ensures forall x :: x in a ==> x in b
    decreases |b|
  {
    if a != [] {
      assert NoDuplicates(b[1..]) by {
        forall i, j | 0 <= i < j < |b[1..]| ensures b[1..][i] != b[1..][j] {
          assert b[1..][i] == b[i + 1] && b[1..][j] == b[j + 1];
        }
      }
      if a[0] == b[0] && IsSubsequence(a[1..], b[1..]) {
        SubsequenceOfDistinct(a[1..], b[1..]);
        assert b[0] !in b[1..] by {
          forall j | 0 <= j < |b[1..]| ensures b[1..][j] != b[0] {
            assert b[1..][j] == b[j + 1];
          }
        }
        forall i, j | 0 <= i < j < |a| ensures a[i] != a[j] {
          assert a[j] == a[1..][j - 1];
          if i > 0 {
            assert a[i] == a[1..][i - 1];
          } else {
            assert a[j] in b[1..];
          }
        }
        forall x | x in a ensures x in b {
          if x != a[0] { assert x in a[1..]; }
        }
      } else {
        SubsequenceOfDistinct(a, b[1..]);
      }
    }
  }

  /** Putting elements in front of `b` keeps every subsequence of it. */
  lemma {:induction false} SubsequencePrefix<T>(c: seq<T>, b: seq<T>, d: seq<T>)
    requires IsSubsequence(c, d)
    ensures IsSubsequence(c, b + d)
    decreases |b|
  {
    if b != [] && c != [] {
      SubsequencePrefix(c, b[1..], d);
      assert (b + d)[1..] == b[1..] + d;
    } else if b != [] {
    } else {
      assert b + d == d;
    }
  }

  /** Subsequences of two lists concatenate to a subsequence of the two lists concatenated. */
  lemma {:induction false} SubsequenceConcat<T>(a: seq<T>, b: seq<T>, c: seq<T>, d: seq<T>)
    requires IsSubsequence(a, b) && IsSubsequence(c, d)
    ensures IsSubsequence(a + c, b + d)
    decreases |b|
  {
    if a == [] {
      assert a + c == c;
      SubsequencePrefix(c, b, d);
    } else {
      assert (a + c)[0] == a[0] && (a + c)[1..] == a[1..] + c;
      assert (b + d)[0] == b[0] && (b + d)[1..] == b[1..] + d;
      if a[0] == b[0] && IsSubsequence(a[1..], b[1..]) {
        SubsequenceConcat(a[1..], b[1..], c, d);
      } else {
        SubsequenceConcat(a, b[1..], c, d);
      }
    }
  }

  lemma {:induction false} SelectedIsSubsequence(flags: seq<(string, string)>, build: map<string, Json>)
    ensures IsSubsequence(Selected(flags, build), Names(flags))
    decreases |flags|
  {
    if flags != [] {
      SelectedIsSubsequence(flags[1..], build);
      assert Names(flags)[1..] == Names(flags[1..]);
      var rest := Selected(flags[1..], build);
      if Truthy(Get(build, flags[0].0)) {
        assert ([flags[0].1] + rest)[1..] == rest;
      } else {
        assert Selected(flags, build) == rest;
      }
    }
  }

  lemma {:induction false} SelectedMembership(flags: seq<(string, string)>, build: map<string, Json>, name: string)
    ensures name in Selected(flags, build) <==>
      exists i :: 0 <= i < |flags| && flags[i].1 == name && Truthy(Get(build, flags[i].0))
    decreases |flags|
  {
    if flags != [] {
      SelectedMembership(flags[1..], build, name);
      if exists i :: 0 <= i < |flags| && flags[i].1 == name && Truthy(Get(build, flags[i].0)) {
        var i :| 0 <= i < |flags| && flags[i].1 == name && Truthy(Get(build, flags[i].0));
        if i > 0 {
          assert flags[1..][i - 1] == flags[i];
        }
      }
      if name in Selected(flags[1..], build) {
        var i :| 0 <= i < |flags[1..]| && flags[1..][i].1 == name && Truthy(Get(build, flags[1..][i].0));
        assert flags[i + 1] == flags[1..][i];
      }
    }
  }

  /** `platforms` keeps the order of Windows, Mac, Linux, Other, so it has at most four entries, none twice. */
  lemma PlatformsOrdered(build: map<string, Json>)
    ensures IsSubsequence(Platforms(build), PlatformNames)
    ensures |Platforms(build)| <= 4 && NoDuplicates(Platforms(build))
  {
    assert Names(OsFlags) == PlatformNames;
    SelectedIsSubsequence(OsFlags, build);
    SubsequenceOfDistinct(Platforms(build), PlatformNames);
  }

  /** A name is in `platforms` exactly when its flag is truthy. */
  lemma PlatformsMembership(build: map<string, Json>)
    ensures "Windows" in Platforms(build) <==> Truthy(Get(build, "os_windows"))
    ensures "Mac" in Platforms(build) <==> Truthy(Get(build, "os_mac"))
    ensures "Linux" in Platforms(build) <==> Truthy(Get(build, "os_linux"))
    ensures "Other" in Platforms(build) <==> Truthy(Get(build, "os_other"))
  {
    PlatformsUnfolded(build);
  }

  /**
   * `platforms` is the in-order selection from Windows, Mac, Linux, Other of
   * the names whose flag is truthy: at most four entries, none twice, and a
   * name appears exactly when its flag is truthy, whatever the order of the
   * build's fields.
   */
  lemma PlatformsSpec(build: map<string, Json>)
    ensures IsSubsequence(Platforms(build), PlatformNames)
    ensures |Platforms(build)| <= 4 && NoDuplicates(Platforms(build))
    ensures "Windows" in Platforms(build) <==> Truthy(Get(build, "os_windows"))
    ensures "Mac" in Platforms(build) <==> Truthy(Get(build, "os_mac"))
    ensures "Linux" in Platforms(build) <==> Truthy(Get(build, "os_linux"))
    ensures "Other" in Platforms(build) <==> Truthy(Get(build, "os_other"))
  {
    PlatformsOrdered(build);
    PlatformsMembership(build);
  }

  /** The four conditional appends, written out. */
  lemma PlatformsUnfolded(build: map<string, Json>)
    ensures Platforms(build) ==
      (if Truthy(Get(build, "os_windows")) then ["Windows"] else []) +
      (if Truthy(Get(build, "os_mac")) then ["Mac"] else []) +
      (if Truthy(Get(build, "os_linux")) then ["Linux"] else []) +
      (if Truthy(Get(build, "os_other")) then ["Other"] else [])
  {
    assert OsFlags[1..] == [("os_mac", "Mac"), ("os_linux", "Linux"), ("os_other", "Other")];
    assert OsFlags[1..][1..] == [("os_linux", "Linux"), ("os_other", "Other")];
    assert OsFlags[1..][1..][1..] == [("os_other", "Other")];
    assert OsFlags[1..][1..][1..][1..] == [];
  }

  function StrArray(names: seq<string>): Json {
    Arr(seq(|names|, i requires 0 <= i < |names| => Str(names[i])))
  }

  // ---------------------------------------------------------------------------
  // The record

  const OutputKeys: set<string> := {
    "download_url", "filename", "filesize", "build_id", "type", "added_on", "updated_on",
    "platforms", "width", "height", "game_id", "title", "java_archive", "java_codebase",
    "java_class_name"
  }

  /** `result[key] = value` when `cond` holds. */
  function PutIf(result: map<string, Json>, cond: bool, key: string, value: Json): map<string, Json> {
    if cond then result[key := value] else result
  }

  /** The download URL and the primary file's name and size. */
  function FilePart(info: map<string, Json>): (r: map<string, Json>)
    requires WellShaped(info)
    ensures r.Keys <= FileKeys
    ensures "download_url" in r <==> "url" in info
    ensures "url" in info ==> r["download_url"] == info["url"]
    ensures ("filename" in r <==> HasPrimaryFile(info)) && ("filesize" in r <==> HasPrimaryFile(info))
    ensures HasPrimaryFile(info) ==>
      r["filename"] == Get(PrimaryFileOf(info), "filename") && r["filesize"] == Get(PrimaryFileOf(info), "filesize")
  {
    var file := PrimaryFileOf(info);
    var r := PutIf(map[], "url" in info, "download_url", Get(info, "url"));
    var r := PutIf(r, HasPrimaryFile(info), "filename", Get(file, "filename"));
    PutIf(r, HasPrimaryFile(info), "filesize", Get(file, "filesize"))
  }

  const BuildKeys: set<string> := {"build_id", "type", "added_on", "updated_on", "platforms", "width", "height"}

  /**
   * The build fields: all present with `build`, `platforms` as the selected
   * names; the two dimensions only when truthy, so a 0 is dropped.
   */
  function BuildPart(info: map<string, Json>): (r: map<string, Json>)
    requires WellShaped(info)
    ensures r.Keys <= BuildKeys
    ensures "build" !in info ==> r == map[]
    ensures "build" in info ==>
      && {"build_id", "type", "added_on", "updated_on", "platforms"} <= r.Keys
      && r["build_id"] == Get(BuildOf(info), "id") && r["type"] == Get(BuildOf(info), "type")
      && r["added_on"] == Get(BuildOf(info), "added_on") && r["updated_on"] == Get(BuildOf(info), "updated_on")
      && r["platforms"] == StrArray(Platforms(BuildOf(info)))
    ensures "width" in r <==> "build" in info && Truthy(Get(BuildOf(info), "embed_width"))
    ensures "width" in r ==> r["width"] == Get(BuildOf(info), "embed_width") && Truthy(r["width"])
    ensures "height" in r <==> "build" in info && Truthy(Get(BuildOf(info), "embed_height"))
    ensures "height" in r ==> r["height"] == Get(BuildOf(info), "embed_height") && Truthy(r["height"])
  {
    if "build" !in info then map[]
    else
      var build := BuildOf(info);
      var r := map["build_id" := Get(build, "id"), "type" := Get(build, "type"),
                   "added_on" := Get(build, "added_on"), "updated_on" := Get(build, "updated_on"),
                   "platforms" := StrArray(Platforms(build))];
      var r := PutIf(r, Truthy(Get(build, "embed_width")), "width", Get(build, "embed_width"));
      PutIf(r, Truthy(Get(build, "embed_height")), "height", Get(build, "embed_height"))
  }

  /** The game's id and title, present with `game`. */
  function GamePart(info: map<string, Json>): (r: map<string, Json>)
    requires WellShaped(info)
    ensures r.Keys <= GameKeys
    ensures "game" !in info ==> r == map[]
    ensures "game" in info ==> r == map["game_id" := Get(GameOf(info), "id"), "title" := Get(GameOf(info), "title")]
  {
    if "game" in info then map["game_id" := Get(GameOf(info), "id"), "title" := Get(GameOf(info), "title")]
    else map[]
  }

  /**
   * The applet fields, only with a truthy `javaArchive`; the class name only
   * when the build's is truthy too.
   */
  function AppletPart(info: map<string, Json>): (r: map<string, Json>)
    requires WellShaped(info)
    ensures r.Keys <= AppletKeys
    ensures ("java_archive" in r <==> Truthy(Get(info, "javaArchive")))
    ensures ("java_codebase" in r <==> Truthy(Get(info, "javaArchive")))
    ensures "java_archive" in r ==>
      r["java_archive"] == Get(info, "javaArchive") && r["java_codebase"] == Get(info, "javaCodebase")
    ensures "java_class_name" in r <==>
      Truthy(Get(info, "javaArchive")) && "build" in info && Truthy(Get(BuildOf(info), "java_class_name"))
    ensures "java_class_name" in r ==> r["java_class_name"] == Get(BuildOf(info), "java_class_name")
  {
    if !Truthy(Get(info, "javaArchive")) then map[]
    else
      var r := map["java_archive" := Get(info, "javaArchive"), "java_codebase" := Get(info, "javaCodebase")];
      PutIf(r, "build" in info && Truthy(Get(BuildOf(info), "java_class_name")),
            "java_class_name", Get(BuildOf(info), "java_class_name"))
  }

  /** The file details: the four groups of keys, which never overlap. */
  function FileDetailsOf(info: map<string, Json>): map<string, Json>
    requires WellShaped(info)
  {
    FilePart(info) + BuildPart(info) + GamePart(info) + AppletPart(info)
  }

  const FileKeys: set<string> := {"download_url", "filename", "filesize"}
  const GameKeys: set<string> := {"game_id", "title"}
  const AppletKeys: set<string> := {"java_archive", "java_codebase", "java_class_name"}

  lemma KeyGroupsDisjoint()
    ensures FileKeys !! BuildKeys && FileKeys !! GameKeys && FileKeys !! AppletKeys
    ensures BuildKeys !! GameKeys && BuildKeys !! AppletKeys && GameKeys !! AppletKeys
    ensures FileKeys + BuildKeys + GameKeys + AppletKeys == OutputKeys
  {
  }

  /** No key outside the fifteen the source writes. */
  lemma FileDetailsKeys(info: map<string, Json>)
    requires WellShaped(info)
    ensures FileDetailsOf(info).Keys <= OutputKeys
  {
    KeyGroupsDisjoint();
  }

  /** A key is in the file details exactly when its group gives it, and holds what that group gives it. */
  lemma FileDetailsLookup(info: map<string, Json>, key: string)
    requires WellShaped(info)
    ensures key in FileDetailsOf(info) <==>
      key in FilePart(info) || key in BuildPart(info) || key in GamePart(info) || key in AppletPart(info)
    ensures key in FilePart(info) ==> FileDetailsOf(info)[key] == FilePart(info)[key]
    ensures key in BuildPart(info) ==> FileDetailsOf(info)[key] == BuildPart(info)[key]
    ensures key in GamePart(info) ==> FileDetailsOf(info)[key] == GamePart(info)[key]
    ensures key in AppletPart(info) ==> FileDetailsOf(info)[key] == AppletPart(info)[key]
  {
    KeyGroupsDisjoint();
  }

  // One key of the record at a time

  lemma PlatformsInDetails(info: map<string, Json>)
    requires WellShaped(info)
    ensures "platforms" in FileDetailsOf(info) <==> "build" in info
    ensures "platforms" in FileDetailsOf(info) ==> FileDetailsOf(info)["platforms"] == StrArray(Platforms(BuildOf(info)))
  {
    FileDetailsLookup(info, "platforms");
  }

  lemma WidthInDetails(info: map<string, Json>)
    requires WellShaped(info)
    ensures "width" in FileDetailsOf(info) <==> "build" in info && Truthy(Get(BuildOf(info), "embed_width"))
    ensures "width" in FileDetailsOf(info) ==> FileDetailsOf(info)["width"] == Get(BuildOf(info), "embed_width")
  {
    FileDetailsLookup(info, "width");
  }

  lemma HeightInDetails(info: map<string, Json>)
    requires WellShaped(info)
    ensures "height" in FileDetailsOf(info) <==> "build" in info && Truthy(Get(BuildOf(info), "embed_height"))
    ensures "height" in FileDetailsOf(info) ==> FileDetailsOf(info)["height"] == Get(BuildOf(info), "embed_height")
  {
    FileDetailsLookup(info, "height");
  }

  lemma ArchiveInDetails(info: map<string, Json>)
    requires WellShaped(info)
    ensures "java_archive" in FileDetailsOf(info) <==> Truthy(Get(info, "javaArchive"))
    ensures "java_archive" in FileDetailsOf(info) ==> FileDetailsOf(info)["java_archive"] == Get(info, "javaArchive")
  {
    FileDetailsLookup(info, "java_archive");
  }

  lemma CodebaseInDetails(info: map<string, Json>)
    requires WellShaped(info)
    ensures "java_codebase" in FileDetailsOf(info) <==> Truthy(Get(info, "javaArchive"))
  {
    FileDetailsLookup(info, "java_codebase");
  }

  lemma ClassNameInDetails(info: map<string, Json>)
    requires WellShaped(info)
    ensures "java_class_name" in FileDetailsOf(info) <==>
      Truthy(Get(info, "javaArchive")) && "build" in info && Truthy(Get(BuildOf(info), "java_class_name"))
    ensures "java_class_name" in FileDetailsOf(info) ==>
      FileDetailsOf(info)["java_class_name"] == Get(BuildOf(info), "java_class_name")
  {
    FileDetailsLookup(info, "java_class_name");
  }

  /**
   * The build gating, stated on the whole record: platforms only with a
   * build, dimensions only when truthy, so a 0 never reaches the record.
   */
  lemma FileDetailsBuildGating(info: map<string, Json>)
    requires WellShaped(info)
    ensures var r := FileDetailsOf(info);
      && ("platforms" in r <==> "build" in info)
      && ("platforms" in r ==> r["platforms"] == StrArray(Platforms(BuildOf(info))))
      && ("width" in r <==> "build" in info && Truthy(Get(BuildOf(info), "embed_width")))
      && ("width" in r ==> Truthy(r["width"]))
      && ("height" in r <==> "build" in info && Truthy(Get(BuildOf(info), "embed_height")))
      && ("height" in r ==> Truthy(r["height"]))
  {
    PlatformsInDetails(info);
    WidthInDetails(info);
    HeightInDetails(info);
  }

  /**
   * The applet gating, stated on the whole record: the archive fields only
   * with a truthy `javaArchive`, and the class name only beside them.
   */
  lemma FileDetailsAppletGating(info: map<string, Json>)
    requires WellShaped(info)
    ensures var r := FileDetailsOf(info);
      && ("java_archive" in r <==> Truthy(Get(info, "javaArchive")))
      && ("java_codebase" in r <==> Truthy(Get(info, "javaArchive")))
      && ("java_class_name" in r ==>
            && "java_archive" in r && "java_codebase" in r
            && Truthy(r["java_class_name"]) && Truthy(r["java_archive"]))
  {
    ArchiveInDetails(info);
    CodebaseInDetails(info);
    ClassNameInDetails(info);
  }

  /** Inserting into a union inserts into its right operand. */
  lemma UnionUpdate(m: map<string, Json>, part: map<string, Json>, key: string, value: Json)
    ensures (m + part)[key := value] == m + part[key := value]
  {
  }

  /** The four conditional appends of the platform block. */
  method CollectPlatforms(build: map<string, Json>) returns (platforms: seq<string>)
    ensures platforms == Platforms(build)
  {
    platforms := [];
    if Truthy(Get(build, "os_windows")) { platforms := platforms + ["Windows"]; }
    if Truthy(Get(build, "os_mac")) { platforms := platforms + ["Mac"]; }
    if Truthy(Get(build, "os_linux")) { platforms := platforms + ["Linux"]; }
    if Truthy(Get(build, "os_other")) { platforms := platforms + ["Other"]; }
    PlatformsUnfolded(build);
  }

  /** The `if "build" in download_info` block: the build fields inserted into `result`. */
  method PutBuildFields(info: map<string, Json>, result: map<string, Json>) returns (r: map<string, Json>)
    requires WellShaped(info)
    ensures r == result + BuildPart(info)
  {
    r := result;
    ghost var part: map<string, Json> := map[];
    assert result + part == result;
    if "build" in info {
      var build := info["build"].fields;
      UnionUpdate(result, part, "build_id", Get(build, "id"));
      r, part := r["build_id" := Get(build, "id")], part["build_id" := Get(build, "id")];
      UnionUpdate(result, part, "type", Get(build, "type"));
      r, part := r["type" := Get(build, "type")], part["type" := Get(build, "type")];
      UnionUpdate(result, part, "added_on", Get(build, "added_on"));
      r, part := r["added_on" := Get(build, "added_on")], part["added_on" := Get(build, "added_on")];
      UnionUpdate(result, part, "updated_on", Get(build, "updated_on"));
      r, part := r["updated_on" := Get(build, "updated_on")], part["updated_on" := Get(build, "updated_on")];

      var platforms := CollectPlatforms(build);
      UnionUpdate(result, part, "platforms", StrArray(platforms));
      r, part := r["platforms" := StrArray(platforms)], part["platforms" := StrArray(platforms)];

      if Truthy(Get(build, "embed_width")) {
        UnionUpdate(result, part, "width", Get(build, "embed_width"));
        r, part := r["width" := Get(build, "embed_width")], part["width" := Get(build, "embed_width")];
      }
      if Truthy(Get(build, "embed_height")) {
        UnionUpdate(result, part, "height", Get(build, "embed_height"));
        r, part := r["height" := Get(build, "embed_height")], part["height" := Get(build, "embed_height")];
      }
    }
    assert part == BuildPart(info);
  }

  /** The `if "game" in download_info` block. */
  method PutGameFields(info: map<string, Json>, result: map<string, Json>) returns (r: map<string, Json>)
    requires WellShaped(info)
    ensures r == result + GamePart(info)
  {
    r := result;
    ghost var part: map<string, Json> := map[];
    assert result + part == result;
    if "game" in info {
      var game := info["game"].fields;
      UnionUpdate(result, part, "game_id", Get(game, "id"));
      r, part := r["game_id" := Get(game, "id")], part["game_id" := Get(game, "id")];
      UnionUpdate(result, part, "title", Get(game, "title"));
      r, part := r["title" := Get(game, "title")], part["title" := Get(game, "title")];
    }
    assert part == GamePart(info);
  }

  /** The Java-applet block, guarded by a truthy `javaArchive`. */
  method PutAppletFields(info: map<string, Json>, result: map<string, Json>) returns (r: map<string, Json>)
    requires WellShaped(info)
    ensures r == result + AppletPart(info)
  {
    r := result;
    ghost var part: map<string, Json> := map[];
    assert result + part == result;
    if Truthy(Get(info, "javaArchive")) {
      UnionUpdate(result, part, "java_archive", Get(info, "javaArchive"));
      r, part := r["java_archive" := Get(info, "javaArchive")], part["java_archive" := Get(info, "javaArchive")];
      UnionUpdate(result, part, "java_codebase", Get(info, "javaCodebase"));
      r, part := r["java_codebase" := Get(info, "javaCodebase")], part["java_codebase" := Get(info, "javaCodebase")];
      if "build" in info && Truthy(Get(info["build"].fields, "java_class_name")) {
        var className := Get(info["build"].fields, "java_class_name");
        UnionUpdate(result, part, "java_class_name", className);
        r, part := r["java_class_name" := className], part["java_class_name" := className];
      }
    }
    assert part == AppletPart(info);
  }

  /** `get_file_details`: `result` grows by successive insertions, block after block. */
  method GetFileDetails(info: map<string, Json>) returns (result: map<string, Json>)
    requires WellShaped(info)
    ensures result == FileDetailsOf(info)
  {
    result := map[];
    if "url" in info {
      result := result["download_url" := info["url"]];
    }
    if "build" in info && "primary_file" in info["build"].fields {
      var primaryFile := info["build"].fields["primary_file"].fields;
      result := result["filename" := Get(primaryFile, "filename")];
      result := result["filesize" := Get(primaryFile, "filesize")];
    }
    assert result == FilePart(info);
    result := PutBuildFields(info, result);
    result := PutGameFields(info, result);
    result := PutAppletFields(info, result);
  }
}
