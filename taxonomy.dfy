/** The registry of foldable element paths (`FOLDABLE_TAGS`): element names from the
    document root joined by "/", built once by nested helpers that add to a mutable set. */
module Taxonomy {
  import opened Strings

  /** A path as the source writes it: element names joined by "/". */
  function PathString(names: seq<string>): string
  {
    Join(names, '/')
  }

  /** The strings of a list of paths, built up one path at a time as the helpers add them;
      the builders' contracts use this form, and `PathStringsOfList` equates it with
      `PathSet`, the comprehension that defines the registry. */
  function PathStrings(paths: seq<seq<string>>): set<string>
  {
    if |paths| == 0 then {} else {PathString(paths[0])} + PathStrings(paths[1..])
  }

  /** Every foldable path, root first, in the order the helpers add them. */
  const FoldablePaths: seq<seq<string>> := [
    ["project", "parent"],
    ["project", "dependencies", "dependency"],
    ["project", "dependencies", "dependency", "exclusions", "exclusion"],
    ["project", "dependencyManagement", "dependencies", "dependency"],
    ["project", "dependencyManagement", "dependencies", "dependency", "exclusions", "exclusion"],
    ["project", "build", "plugins", "plugin"],
    ["project", "build", "plugins", "plugin", "dependencies", "dependency"],
    ["project", "build", "plugins", "plugin", "dependencies", "dependency", "exclusions", "exclusion"],
    ["project", "build", "pluginManagement", "plugins", "plugin"],
    ["project", "build", "pluginManagement", "plugins", "plugin", "dependencies", "dependency"],
    ["project", "build", "pluginManagement", "plugins", "plugin", "dependencies", "dependency", "exclusions", "exclusion"],
    ["project", "profiles", "profile"],
    ["project", "profiles", "profile", "dependencies", "dependency"],
    ["project", "profiles", "profile", "dependencies", "dependency", "exclusions", "exclusion"],
    ["project", "profiles", "profile", "dependencyManagement", "dependencies", "dependency"],
    ["project", "profiles", "profile", "dependencyManagement", "dependencies", "dependency", "exclusions", "exclusion"],
    ["project", "profiles", "profile", "build", "plugins", "plugin"],
    ["project", "profiles", "profile", "build", "plugins", "plugin", "dependencies", "dependency"],
    ["project", "profiles", "profile", "build", "plugins", "plugin", "dependencies", "dependency", "exclusions", "exclusion"],
    ["project", "profiles", "profile", "build", "pluginManagement", "plugins", "plugin"],
    ["project", "profiles", "profile", "build", "pluginManagement", "plugins", "plugin", "dependencies", "dependency"],
    ["project", "profiles", "profile", "build", "pluginManagement", "plugins", "plugin", "dependencies", "dependency", "exclusions", "exclusion"],
    ["project", "build", "extensions", "extension"]
  ]

  /** The strings of a collection of paths. */
  function PathSet(paths: seq<seq<string>>): set<string>
  {
    set p | p in paths :: PathString(p)
  }

  /** `FOLDABLE_TAGS` as a value. */
  const FoldableTags: set<string> := PathSet(FoldablePaths)

  /** The mutable JavaScript `Set<string>` the helpers add to. */
  class TagSet {
    var tags: set<string>

    constructor ()
      ensures tags == {}
    {
      tags := {};
    }

    /** `Set.prototype.add`. */
    method Add(tag: string)
      modifies this
      ensures tags == old(tags) + {tag}
    {
      tags := tags + {tag};
    }
  }

  /** The paths `addDependenciesFoldableTags` adds below `prefix`, in order. */
  function DependenciesPaths(prefix: seq<string>): seq<seq<string>>
  {
    [prefix + ["dependencies", "dependency"],
     prefix + ["dependencies", "dependency", "exclusions", "exclusion"]]
  }

  /** The paths `addPluginsFoldableTags` adds below `prefix`, in order. */
  function PluginsPaths(prefix: seq<string>): seq<seq<string>>
  {
    [prefix + ["plugins", "plugin"]] + DependenciesPaths(prefix + ["plugins", "plugin"])
  }

  /** The paths `addModelBaseFoldableTags` adds below `prefix`, in order. */
  function ModelBasePaths(prefix: seq<string>): seq<seq<string>>
  {
    DependenciesPaths(prefix) + DependenciesPaths(prefix + ["dependencyManagement"])
    + PluginsPaths(prefix + ["build"]) + PluginsPaths(prefix + ["build", "pluginManagement"])
  }

  /** The paths `addProjectFoldableTags` adds, in order. */
  function ProjectPaths(): seq<seq<string>>
  {
    [["project", "parent"]] + ModelBasePaths(["project"])
    + [["project", "profiles", "profile"]] + ModelBasePaths(["project", "profiles", "profile"])
    + [["project", "build", "extensions", "extension"]]
  }

  lemma {:induction false} PathStringsAppend(a: seq<seq<string>>, b: seq<seq<string>>)
    ensures PathStrings(a + b) == PathStrings(a) + PathStrings(b)
  {
    if |a| == 0 {
      assert a + b == b;
    } else {
      assert (a + b)[1..] == a[1..] + b;
      PathStringsAppend(a[1..], b);
    }
  }

  lemma PathStringsPair(x: seq<string>, y: seq<string>)
    ensures PathStrings([x, y]) == {PathString(x), PathString(y)}
  {
    assert [x, y][1..] == [y];
    assert PathStrings([y]) == {PathString(y)} + PathStrings([]);
  }

  /** The text a path gains when `names` are appended below it: "/" before each name. */
  function Suffix(names: seq<string>): string
  {
    if |names| == 0 then "" else "/" + names[0] + Suffix(names[1..])
  }

  /** Appending names to a path appends their suffix to its string. */
  lemma {:induction false} ExtendPath(prefix: seq<string>, names: seq<string>)
    requires |prefix| >= 1
    ensures PathString(prefix + names) == PathString(prefix) + Suffix(names)
    decreases names
  {
    if |names| == 0 {
      assert prefix + names == prefix;
    } else {
      JoinSnoc(prefix, names[0], '/');
      ExtendPath(prefix + [names[0]], names[1..]);
      assert prefix + [names[0]] + names[1..] == prefix + names;
    }
  }

  lemma SuffixTwo(a: string, b: string)
    ensures Suffix([a, b]) == "/" + a + "/" + b
  {
    assert [a, b][1..] == [b];
    assert [b][1..] == [];
    assert Suffix([b]) == "/" + b + "";
    assert "/" + b + "" == "/" + b;
    assert "/" + a + ("/" + b) == "/" + a + "/" + b;
  }

  lemma SuffixAppend(a: seq<string>, b: seq<string>)
    ensures Suffix(a + b) == Suffix(a) + Suffix(b)
  {
    if |a| > 0 {
      assert (a + b)[1..] == a[1..] + b;
      SuffixAppend(a[1..], b);
    } else {
      assert a + b == b;
    }
  }

  lemma DependencySuffix()
    ensures Suffix(["dependencies", "dependency"]) == "/dependencies/dependency"
  {
    SuffixTwo("dependencies", "dependency");
  }

  lemma ExclusionSuffix()
    ensures Suffix(["dependencies", "dependency", "exclusions", "exclusion"]) == "/dependencies/dependency/exclusions/exclusion"
  {
    DependencySuffix();
    SuffixTwo("exclusions", "exclusion");
    SuffixAppend(["dependencies", "dependency"], ["exclusions", "exclusion"]);
    assert ["dependencies", "dependency"] + ["exclusions", "exclusion"] == ["dependencies", "dependency", "exclusions", "exclusion"];
    assert "/dependencies/dependency/exclusions/exclusion" == "/dependencies/dependency" + "/exclusions/exclusion";
  }

  lemma PluginSuffix()
    ensures Suffix(["plugins", "plugin"]) == "/plugins/plugin"
  {
    SuffixTwo("plugins", "plugin");
  }

  method AddDependenciesFoldableTags(tags: TagSet, prefix: string, ghost prefixPath: seq<string>)
    requires |prefixPath| >= 1 && prefix == PathString(prefixPath)
    modifies tags
    ensures tags.tags == old(tags.tags) + PathStrings(DependenciesPaths(prefixPath))
  {
    tags.Add(prefix + "/dependencies/dependency");
    tags.Add(prefix + "/dependencies/dependency/exclusions/exclusion");
    ExtendPath(prefixPath, ["dependencies", "dependency"]);
    DependencySuffix();
    ExtendPath(prefixPath, ["dependencies", "dependency", "exclusions", "exclusion"]);
    ExclusionSuffix();
    PathStringsPair(prefixPath + ["dependencies", "dependency"], prefixPath + ["dependencies", "dependency", "exclusions", "exclusion"]);
  }

  method AddPluginsFoldableTags(tags: TagSet, prefix: string, ghost prefixPath: seq<string>)
    requires |prefixPath| >= 1 && prefix == PathString(prefixPath)
    modifies tags
    ensures tags.tags == old(tags.tags) + PathStrings(PluginsPaths(prefixPath))
  {
    tags.Add(prefix + "/plugins/plugin");
    ExtendPath(prefixPath, ["plugins", "plugin"]);
    PluginSuffix();
    AddDependenciesFoldableTags(tags, prefix + "/plugins/plugin", prefixPath + ["plugins", "plugin"]);
    PathStringsAppend([prefixPath + ["plugins", "plugin"]], DependenciesPaths(prefixPath + ["plugins", "plugin"]));
  }

  /** The prefixes `addModelBaseFoldableTags` passes on, as paths. */
  lemma ModelBasePrefixes(prefixPath: seq<string>)
    requires |prefixPath| >= 1
    ensures PathString(prefixPath + ["dependencyManagement"]) == PathString(prefixPath) + "/dependencyManagement"
    ensures PathString(prefixPath + ["build"]) == PathString(prefixPath) + "/build"
    ensures PathString(prefixPath + ["build", "pluginManagement"]) == PathString(prefixPath) + "/build/pluginManagement"
  {
    JoinSnoc(prefixPath, "dependencyManagement", '/');
    JoinSnoc(prefixPath, "build", '/');
    ExtendPath(prefixPath, ["build", "pluginManagement"]);
    SuffixTwo("build", "pluginManagement");
    assert "/build/pluginManagement" == "/" + "build" + "/" + "pluginManagement";
  }

  lemma ModelBasePathStrings(prefixPath: seq<string>)
    ensures PathStrings(ModelBasePaths(prefixPath)) ==
      PathStrings(DependenciesPaths(prefixPath)) + PathStrings(DependenciesPaths(prefixPath + ["dependencyManagement"])) +
      PathStrings(PluginsPaths(prefixPath + ["build"])) + PathStrings(PluginsPaths(prefixPath + ["build", "pluginManagement"]))
  {
    var d1, d2 := DependenciesPaths(prefixPath), DependenciesPaths(prefixPath + ["dependencyManagement"]);
    var p1, p2 := PluginsPaths(prefixPath + ["build"]), PluginsPaths(prefixPath + ["build", "pluginManagement"]);
    PathStringsAppend(d1, d2);
    PathStringsAppend(d1 + d2, p1);
    PathStringsAppend(d1 + d2 + p1, p2);
  }

  method AddModelBaseFoldableTags(tags: TagSet, prefix: string, ghost prefixPath: seq<string>)
    requires |prefixPath| >= 1 && prefix == PathString(prefixPath)
    modifies tags
    ensures tags.tags == old(tags.tags) + PathStrings(ModelBasePaths(prefixPath))
  {
    ModelBasePrefixes(prefixPath);
    ModelBasePathStrings(prefixPath);
    AddDependenciesFoldableTags(tags, prefix, prefixPath);
    AddDependenciesFoldableTags(tags, prefix + "/dependencyManagement", prefixPath + ["dependencyManagement"]);
    AddPluginsFoldableTags(tags, prefix + "/build", prefixPath + ["build"]);
    AddPluginsFoldableTags(tags, prefix + "/build/pluginManagement", prefixPath + ["build", "pluginManagement"]);
  }

  lemma PathStringsSingle(x: seq<string>)
    ensures PathStrings([x]) == {PathString(x)}
  {
    assert [x][1..] == [];
  }

  /** The strings `addProjectFoldableTags` adds directly, as paths. */
  lemma ProfilePathString()
    ensures PathString(["project", "profiles", "profile"]) == "project" + "/profiles/profile"
  {
    var root := ["project"];
    ExtendPath(root, ["profiles", "profile"]);
    SuffixTwo("profiles", "profile");
    assert root + ["profiles", "profile"] == ["project", "profiles", "profile"];
    assert "/profiles/profile" == "/" + "profiles" + "/" + "profile";
  }

  lemma ExtensionPathString()
    ensures PathString(["project", "build", "extensions", "extension"]) == "project" + "/build/extensions/extension"
  {
    var root := ["project"];
    var names := ["build", "extensions", "extension"];
    ExtendPath(root, names);
    assert names[1..] == ["extensions", "extension"];
    SuffixTwo("extensions", "extension");
    assert Suffix(names) == "/" + "build" + Suffix(["extensions", "extension"]);
    assert root + names == ["project", "build", "extensions", "extension"];
    assert "/build/extensions/extension" == "/build" + "/extensions/extension";
  }

  lemma ProjectPathStrings()
    ensures PathString(["project"]) == "project"
    ensures PathString(["project", "parent"]) == "project" + "/parent"
    ensures PathString(["project", "profiles", "profile"]) == "project" + "/profiles/profile"
    ensures PathString(["project", "build", "extensions", "extension"]) == "project" + "/build/extensions/extension"
  {
    ProfilePathString();
    ExtensionPathString();
  }

  method AddProjectFoldableTags(tags: TagSet)
    modifies tags
    ensures tags.tags == old(tags.tags) + PathStrings(ProjectPaths())
  {
    var prefix := "project";
    ghost var root, parent := ["project"], ["project", "parent"];
    ghost var profile, extension := ["project", "profiles", "profile"], ["project", "build", "extensions", "extension"];
    ProjectPathStrings();
    PathStringsSingle(parent);
    PathStringsSingle(profile);
    PathStringsSingle(extension);

    tags.Add(prefix + "/parent");
    AddModelBaseFoldableTags(tags, prefix, root);
    tags.Add(prefix + "/profiles/profile");
    AddModelBaseFoldableTags(tags, prefix + "/profiles/profile", profile);
    tags.Add(prefix + "/build/extensions/extension");

    ghost var m1, m2 := ModelBasePaths(root), ModelBasePaths(profile);
    PathStringsAppend([parent], m1);
    PathStringsAppend([parent] + m1, [profile]);
    PathStringsAppend([parent] + m1 + [profile], m2);
    PathStringsAppend([parent] + m1 + [profile] + m2, [extension]);
  }

  /** What `addModelBaseFoldableTags` adds below `prefix`, written out flat. */
  lemma ModelBasePathsFlat(prefix: seq<string>)
    ensures ModelBasePaths(prefix) == [
      prefix + ["dependencies", "dependency"],
      prefix + ["dependencies", "dependency", "exclusions", "exclusion"],
      prefix + ["dependencyManagement", "dependencies", "dependency"],
      prefix + ["dependencyManagement", "dependencies", "dependency", "exclusions", "exclusion"],
      prefix + ["build", "plugins", "plugin"],
      prefix + ["build", "plugins", "plugin", "dependencies", "dependency"],
      prefix + ["build", "plugins", "plugin", "dependencies", "dependency", "exclusions", "exclusion"],
      prefix + ["build", "pluginManagement", "plugins", "plugin"],
      prefix + ["build", "pluginManagement", "plugins", "plugin", "dependencies", "dependency"],
      prefix + ["build", "pluginManagement", "plugins", "plugin", "dependencies", "dependency", "exclusions", "exclusion"]
    ]
  {
    var d1, d2 := DependenciesPaths(prefix), DependenciesPaths(prefix + ["dependencyManagement"]);
    var p1, p2 := PluginsPaths(prefix + ["build"]), PluginsPaths(prefix + ["build", "pluginManagement"]);
    assert d1 + d2 + p1 + p2 == [d1[0], d1[1], d2[0], d2[1], p1[0], p1[1], p1[2], p2[0], p2[1], p2[2]];
    assert d1[0] == prefix + ["dependencies", "dependency"];
    assert d1[1] == prefix + ["dependencies", "dependency", "exclusions", "exclusion"];
    assert d2[0] == prefix + ["dependencyManagement", "dependencies", "dependency"];
    assert d2[1] == prefix + ["dependencyManagement", "dependencies", "dependency", "exclusions", "exclusion"];
    assert p1[0] == prefix + ["build", "plugins", "plugin"];
    assert p1[1] == prefix + ["build", "plugins", "plugin", "dependencies", "dependency"];
    assert p1[2] == prefix + ["build", "plugins", "plugin", "dependencies", "dependency", "exclusions", "exclusion"];
    assert p2[0] == prefix + ["build", "pluginManagement", "plugins", "plugin"];
    assert p2[1] == prefix + ["build", "pluginManagement", "plugins", "plugin", "dependencies", "dependency"];
    assert p2[2] == prefix + ["build", "pluginManagement", "plugins", "plugin", "dependencies", "dependency", "exclusions", "exclusion"];
  }

  /** The nested helpers add exactly the flat list of paths, in its order. */
  lemma ProjectPathsAreFoldablePaths()
    ensures ProjectPaths() == FoldablePaths
  {
    var root, profile := ["project"], ["project", "profiles", "profile"];
    ModelBasePathsFlat(root);
    ModelBasePathsFlat(profile);
    var m1, m2 := ModelBasePaths(root), ModelBasePaths(profile);
    assert ProjectPaths() == [["project", "parent"]] + m1 + [profile] + m2 + [["project", "build", "extensions", "extension"]];
    assert m1[0] == ["project", "dependencies", "dependency"];
    assert m1[1] == ["project", "dependencies", "dependency", "exclusions", "exclusion"];
    assert m1[2] == ["project", "dependencyManagement", "dependencies", "dependency"];
    assert m1[3] == ["project", "dependencyManagement", "dependencies", "dependency", "exclusions", "exclusion"];
    assert m1[4] == ["project", "build", "plugins", "plugin"];
    assert m1[5] == ["project", "build", "plugins", "plugin", "dependencies", "dependency"];
    assert m1[6] == ["project", "build", "plugins", "plugin", "dependencies", "dependency", "exclusions", "exclusion"];
    assert m1[7] == ["project", "build", "pluginManagement", "plugins", "plugin"];
    assert m1[8] == ["project", "build", "pluginManagement", "plugins", "plugin", "dependencies", "dependency"];
    assert m1[9] == ["project", "build", "pluginManagement", "plugins", "plugin", "dependencies", "dependency", "exclusions", "exclusion"];
    assert m2[0] == ["project", "profiles", "profile", "dependencies", "dependency"];
    assert m2[1] == ["project", "profiles", "profile", "dependencies", "dependency", "exclusions", "exclusion"];
    assert m2[2] == ["project", "profiles", "profile", "dependencyManagement", "dependencies", "dependency"];
    assert m2[3] == ["project", "profiles", "profile", "dependencyManagement", "dependencies", "dependency", "exclusions", "exclusion"];
    assert m2[4] == ["project", "profiles", "profile", "build", "plugins", "plugin"];
    assert m2[5] == ["project", "profiles", "profile", "build", "plugins", "plugin", "dependencies", "dependency"];
    assert m2[6] == ["project", "profiles", "profile", "build", "plugins", "plugin", "dependencies", "dependency", "exclusions", "exclusion"];
    assert m2[7] == ["project", "profiles", "profile", "build", "pluginManagement", "plugins", "plugin"];
    assert m2[8] == ["project", "profiles", "profile", "build", "pluginManagement", "plugins", "plugin", "dependencies", "dependency"];
    assert m2[9] == ["project", "profiles", "profile", "build", "pluginManagement", "plugins", "plugin", "dependencies", "dependency", "exclusions", "exclusion"];
  }

  /** The module initialiser: a fresh set filled by `addProjectFoldableTags`. */
  method BuildFoldableTags() returns (r: set<string>)
    ensures r == FoldableTags
  {
    var tags := new TagSet();
    AddProjectFoldableTags(tags);
    r := tags.tags;
    ProjectPathsAreFoldablePaths();
    PathStringsOfList(FoldablePaths);
  }

  /** A string is a listed path's string exactly when some listed path spells it. */
  lemma {:induction false} InPathStrings(paths: seq<seq<string>>, s: string)
    ensures s in PathStrings(paths) <==> exists i :: 0 <= i < |paths| && PathString(paths[i]) == s
  {
    if |paths| > 0 {
      InPathStrings(paths[1..], s);
      if s in PathStrings(paths[1..]) {
        var i :| 0 <= i < |paths[1..]| && PathString(paths[1..][i]) == s;
        assert PathString(paths[i + 1]) == s;
      }
      if exists i :: 0 <= i < |paths| && PathString(paths[i]) == s {
        var i :| 0 <= i < |paths| && PathString(paths[i]) == s;
        if i > 0 {
          assert PathString(paths[1..][i - 1]) == s;
        }
      }
    }
  }

  /** The strings of a list of paths, as a comprehension. */
  lemma PathStringsOfList(paths: seq<seq<string>>)
    ensures PathStrings(paths) == PathSet(paths)
  {
    forall s | s in PathStrings(paths) ensures s in set p | p in paths :: PathString(p) {
      InPathStrings(paths, s);
      var i :| 0 <= i < |paths| && PathString(paths[i]) == s;
      assert paths[i] in paths;
    }
    forall s | s in set p | p in paths :: PathString(p) ensures s in PathStrings(paths) {
      var p :| p in paths && PathString(p) == s;
      var i :| 0 <= i < |paths| && paths[i] == p;
      InPathStrings(paths, s);
    }
  }

  /** The listed paths are pairwise different. */
  lemma FoldablePathsDistinct()
    ensures forall i, j | 0 <= i < j < |FoldablePaths| :: FoldablePaths[i] != FoldablePaths[j]
  {
  }

  /** Every listed path starts at `project` and goes at least one level below it. */
  lemma FoldablePathsRooted()
    ensures forall i | 0 <= i < |FoldablePaths| :: |FoldablePaths[i]| >= 2 && FoldablePaths[i][0] == "project"
  {
  }

  /** No element name of a listed path contains "/". */
  lemma FoldablePathsSeparatorFree()
    ensures forall i | 0 <= i < |FoldablePaths| :: SeparatorFree(FoldablePaths[i], '/')
  {
  }

  /** Every listed path starts at `project`, goes at least one level below it, and its
      element names contain no "/". */
  lemma FoldablePathsWellFormed()
    ensures forall i | 0 <= i < |FoldablePaths| ::
      |FoldablePaths[i]| >= 2 && FoldablePaths[i][0] == "project" && SeparatorFree(FoldablePaths[i], '/')
  {
    FoldablePathsRooted();
    FoldablePathsSeparatorFree();
  }

  /** Distinct lists of "/"-free element names give as many distinct strings. */
  lemma {:induction false} PathStringsCount(paths: seq<seq<string>>)
    requires forall i, j | 0 <= i < j < |paths| :: paths[i] != paths[j]
    requires forall i | 0 <= i < |paths| :: |paths[i]| >= 1 && SeparatorFree(paths[i], '/')
    ensures |PathStrings(paths)| == |paths|
  {
    if |paths| > 0 {
      PathStringsCount(paths[1..]);
      InPathStrings(paths[1..], PathString(paths[0]));
      if PathString(paths[0]) in PathStrings(paths[1..]) {
        var i :| 0 <= i < |paths[1..]| && PathString(paths[1..][i]) == PathString(paths[0]);
        JoinInjective(paths[0], paths[i + 1], '/');
        assert false;
      }
    }
  }

  /** The set of strings of distinct, "/"-free name lists has one element per list. */
  lemma PathSetCount(paths: seq<seq<string>>)
    requires forall i, j | 0 <= i < j < |paths| :: paths[i] != paths[j]
    requires forall i | 0 <= i < |paths| :: |paths[i]| >= 1 && SeparatorFree(paths[i], '/')
    ensures |PathSet(paths)| == |paths|
  {
    PathStringsCount(paths);
    PathStringsOfList(paths);
  }

  /** `FOLDABLE_TAGS` holds exactly 23 distinct paths. */
  lemma FoldableTagCount()
    ensures |FoldableTags| == 23
  {
    FoldablePathsDistinct();
    FoldablePathsWellFormed();
    PathSetCount(FoldablePaths);
  }

  /** For "/"-free element names, the joined path is foldable exactly when the name list is
      listed: the string test in the source decides the same thing as a test on paths. */
  lemma FoldableTagMembership(names: seq<string>)
    requires |names| >= 1 && SeparatorFree(names, '/')
    ensures PathString(names) in FoldableTags <==> names in FoldablePaths
  {
    if PathString(names) in FoldableTags {
      var p :| p in FoldablePaths && PathString(p) == PathString(names);
      assert |p| >= 1 && SeparatorFree(p, '/') by {
        FoldablePathsWellFormed();
      }
      JoinInjective(p, names, '/');
    }
  }

  /** A path of two or more names starting at `project` spells "project/" first. */
  lemma UnderProject(names: seq<string>)
    requires |names| >= 2 && names[0] == "project"
    ensures "project/" <= PathString(names)
  {
    var head := "project/";
    var rest := Join(names[1..], '/');
    assert "project" + "/" == head;
    assert PathString(names) == head + rest;
    assert |head| == 8;
    assert (head + rest)[..|head|] == head;
  }

  /** Every foldable path lies below the root element `project`. */
  lemma FoldableTagsUnderProject(p: string)
    requires p in FoldableTags
    ensures "project/" <= p
  {
    var names :| names in FoldablePaths && PathString(names) == p;
    assert |names| >= 2 && names[0] == "project" by {
      FoldablePathsWellFormed();
    }
    UnderProject(names);
  }
}
