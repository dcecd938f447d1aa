# laconic-pom: fold regions for Maven POM files

This project models the core of a VS Code extension that folds the structurally significant
elements of a Maven `pom.xml`. It computes a ':'-separated label for each folded region, but the
label is always absent, because no coordinates reach it, and it is never passed to the editor
(src/extension.ts:18-22 builds each folding range from its lines and kind only). The model has
two parts.

- **The fold-region tagger** (`src/mavenDomProcessor.ts`):
  - The registry `FOLDABLE_TAGS` of foldable element paths, built once by four nested helpers
    that add strings to a mutable set.
  - `process`, a stack of open-element contexts driven by the XML tokenizer's open-tag-start
    and close-tag events. When an element closes at a foldable root-to-self path, `callbackTag`
    reports its span through one of six callbacks (parent, profile, extension, dependency,
    exclusion, plugin).
- **Labels and descriptors** (`src/extension.ts`):
  - JavaScript truthiness of optional strings.
  - `appendPartIfNotNull` and `hasId`.
  - The six `describe*` functions, which build a ':'-separated label from optional
    coordinates.
  - `descriptors`, which turns the callbacks into an ordered list of folding descriptors.

Modules, one per file:

- `Wrappers`: `Option` for `undefined`.
- `Strings`: `Array.prototype.join` and its inverse `split`, with round-trip lemmas. The program
  never splits; `Split` is there to show that a joined string determines its parts.
- `Taxonomy`: `FOLDABLE_TAGS`, the `TagSet` class standing for the JavaScript `Set`, and the
  imperative builders.
- `MavenDomProcessor`: the events, the `TagProcessor` class with the two handlers, and the
  specification `Step`/`Run` that `Process` is proved against.
- `Documents`: well-nested element trees and their events. It gives a reference, element by
  element, for what the tagger reports on a whole document.
- `Extension`: labels and descriptors.

How the model reads the code:

- **Missing values.** An optional string is `Option<string>`. The check `!s` is `!Truthy(s)`:
  an absent string and the empty string are treated alike. The check `s == null` is `s.None?`.
- **Paths as name lists.** A path string is the '/'-join of its element names. Each
  registered path is also kept as its list of names (`FoldablePaths`). Because join can be
  undone by split (`Strings.SplitJoin`), the string test `FOLDABLE_TAGS.has(tagPath(...))`
  decides the same thing as a test on name lists.

`addProjectFoldableTags` registers 23 paths (src/mavenDomProcessor.ts:114-139). `process`
installs no text handler (src/mavenDomProcessor.ts:53-78), and `callbackTag` passes only `{tag}`
(src/mavenDomProcessor.ts:83-88), so the `describe*` functions never receive coordinates from
`process`. The model proves that there are exactly 23 paths and that every callback carries only
its tag (`MavenDomProcessor.RunCallbacksOnlyTag`), so every descriptor `descriptors` produces has
no placeholder (`Extension.Descriptors`). The `describe*` functions are also modelled on their
own, over arbitrary optional coordinates.

## Model

| member | source | states |
|---|---|---|
| Strings.SplitJoin | src/mavenDomProcessor.ts:108 | splitting a '/'-joined list of '/'-free names gives back the list, so a path string determines its element names |
| Strings.JoinInjective | src/mavenDomProcessor.ts:108 | two non-empty lists of separator-free names with the same join are equal |
| Taxonomy.TagSet.constructor | src/mavenDomProcessor.ts:111 | the registry starts empty |
| Taxonomy.TagSet.Add | src/mavenDomProcessor.ts:117 | `tags.add(t)` adds exactly `t` and nothing else |
| Taxonomy.AddDependenciesFoldableTags | src/mavenDomProcessor.ts:131-134 | adds exactly the two paths `prefix/dependencies/dependency` and `.../exclusions/exclusion`, for a prefix given as its name list |
| Taxonomy.AddPluginsFoldableTags | src/mavenDomProcessor.ts:136-139 | adds `prefix/plugins/plugin` and the dependency paths below that plugin, and nothing else |
| Taxonomy.AddModelBaseFoldableTags | src/mavenDomProcessor.ts:124-129 | adds the dependency paths below `prefix` and `prefix/dependencyManagement`, and the plugin paths below `prefix/build` and `prefix/build/pluginManagement` |
| Taxonomy.AddProjectFoldableTags | src/mavenDomProcessor.ts:114-122 | adds the parent path, the model-base paths of the project and of a profile, the profile path and the build-extension path, and nothing else |
| Taxonomy.ModelBasePathsFlat | src/mavenDomProcessor.ts:124-139 | the ten paths the model-base helper adds below a prefix, written out in insertion order |
| Taxonomy.ProjectPathsAreFoldablePaths | src/mavenDomProcessor.ts:114-139 | what the nested helpers add, in order, is exactly the 23 listed name paths |
| Taxonomy.BuildFoldableTags | src/mavenDomProcessor.ts:111-112 | filling a fresh set with `addProjectFoldableTags` yields exactly `Taxonomy.FoldableTags`, the registry `FOLDABLE_TAGS` the rest of the model uses |
| Taxonomy.FoldablePathsDistinct | src/mavenDomProcessor.ts:114-139 | no path is added twice |
| Taxonomy.FoldablePathsRooted | src/mavenDomProcessor.ts:114-139 | every path starts at `project` and goes at least one level below it |
| Taxonomy.FoldablePathsSeparatorFree | src/mavenDomProcessor.ts:114-139 | no element name of a path contains '/' |
| Taxonomy.FoldablePathsWellFormed | src/mavenDomProcessor.ts:114-139 | every path starts at `project`, goes at least one level below it, and has '/'-free names |
| Taxonomy.FoldableTagCount | src/mavenDomProcessor.ts:111-139 | `FOLDABLE_TAGS` holds exactly 23 distinct strings |
| Taxonomy.FoldableTagMembership | src/mavenDomProcessor.ts:71 | for '/'-free names, the joined string is registered if and only if the name list is one of the listed paths |
| Taxonomy.FoldableTagsUnderProject | src/mavenDomProcessor.ts:114-122 | every registered path starts with "project/" |
| MavenDomProcessor.CallbackTag | src/mavenDomProcessor.ts:80-90 | a callback is made if and only if the name is one of the six cases; it is the callback of that name, carries `Tag{name,start,end}` and nothing else |
| MavenDomProcessor.TagPathIsPath | src/mavenDomProcessor.ts:107-109 | `MavenDomProcessor.TagPath` (`tagPath`) over a non-empty stack is the join of the stack's names followed by `name`; over an empty stack it is "/" + `name` |
| MavenDomProcessor.TagPathFoldable | src/mavenDomProcessor.ts:71 | for '/'-free names, `tagPath` is foldable if and only if some context is still open and the open names followed by `name` form a listed path; closing the root is never foldable |
| MavenDomProcessor.FoldablePathsEndInCallbackName | src/mavenDomProcessor.ts:82-88 | the last name of every listed path is a case of `callbackTag`'s switch |
| MavenDomProcessor.FoldableTagIsCallbackName | src/mavenDomProcessor.ts:71-74 | an element closing at a foldable path is named by one of the six cases |
| MavenDomProcessor.CloseReportsOne | src/mavenDomProcessor.ts:67-74 | a close that matches the innermost context at a foldable path of a callback name pops that context and appends exactly one callback, spanning the context's start to the close |
| MavenDomProcessor.FoldableCloseReportsOne | src/mavenDomProcessor.ts:67-74 | the same for the registry: with '/'-free names, every foldable matching close reports exactly one callback of the kind its name selects |
| MavenDomProcessor.RunProvenance | src/mavenDomProcessor.ts:56-76 | every open context was pushed by an open event with its name and position; every callback is of the kind its tag names and spans from an open event of that name to a later close of that name |
| MavenDomProcessor.RunCallbacksOnlyTag | src/mavenDomProcessor.ts:83-88 | every callback the tagger makes carries its tag and no coordinates, id, type, classifier or scope |
| MavenDomProcessor.RunOrdered | src/mavenDomProcessor.ts:59-74 | with non-decreasing event positions, every callback starts no later than it ends, callbacks come in order of their ends, and nothing recorded lies beyond the last event |
| MavenDomProcessor.TagProcessor.constructor | src/mavenDomProcessor.ts:54-55 | the handlers start with no open context and no callbacks, reading the given registry |
| MavenDomProcessor.TagProcessor.OnOpenTagStart | src/mavenDomProcessor.ts:56-60 | pushes exactly one context carrying the name and current position; the callbacks are unchanged |
| MavenDomProcessor.TagProcessor.OnCloseTag | src/mavenDomProcessor.ts:61-76 | with no open context nothing changes; otherwise the innermost context is popped, and a callback is appended only when its name matches and the remaining path is foldable |
| MavenDomProcessor.TagProcessor.Write | src/mavenDomProcessor.ts:77 | feeding events to the handlers in order reaches the state the specification `Run` gives |
| MavenDomProcessor.Process | src/mavenDomProcessor.ts:53-78 | the callbacks made for an event stream, in order, are those of the specification `MavenDomProcessor.Run` from an empty stack; `Run` folds `MavenDomProcessor.Step`, which is the two handlers of lines 56-76 on values |
| MavenDomProcessor.CloseOnEmptyIgnored | src/mavenDomProcessor.ts:64-66 | `Step`: a close event with no open context changes nothing and reports nothing |
| MavenDomProcessor.MismatchedClosePops | src/mavenDomProcessor.ts:67-70 | `Step`: a close whose name differs from the innermost context's pops that context and reports nothing |
| MavenDomProcessor.OpenPushes | src/mavenDomProcessor.ts:56-60 | `Step`: an open event pushes exactly one context with its name and position; nothing else changes |
| Documents.RunElement | src/mavenDomProcessor.ts:56-76 | an element's events leave the open contexts as they were and append its subtree's callbacks in post-order |
| Documents.TestedFoldsAreFolds | src/mavenDomProcessor.ts:71 | for '/'-free names, the string test on the open contexts selects exactly the elements whose root-to-self name path is listed |
| Documents.DocumentFolds | src/mavenDomProcessor.ts:53-78 | on a well-nested document with '/'-free names, the tagger reports exactly the elements at listed paths, children before parents, each spanning its own open and close |
| Documents.ParentReported | src/mavenDomProcessor.ts:117 | `<project><parent></parent></project>` reports one parent callback with the parent's own span and no coordinates |
| Documents.UnlistedDependencyIgnored | src/mavenDomProcessor.ts:131-132 | a `dependency` directly under `project` is at an unlisted path and is not reported |
| Documents.ProfileExtensionIgnored | src/mavenDomProcessor.ts:119-121 | build extensions are listed for the project but not inside a profile |
| Documents.MismatchedCloseDropped | src/mavenDomProcessor.ts:67-70 | example: on the events open `project` at 0, open `parent` at 9, close `project` at 17, the stray close pops `parent` and reports nothing, leaving `project` open |
| Extension.AppendPartJoins | src/extension.ts:141-146 | `Extension.AppendPartIfNotNull` (`appendPartIfNotNull`): appending to a ':'-joined label adds the part as one more piece when it is present and non-empty, and leaves the label unchanged otherwise |
| Extension.AppendPartsJoin | src/extension.ts:141-146 | appending several parts in turn joins exactly the truthy ones, in order |
| Extension.DescribeParent | src/extension.ts:66-73 | a parent has a label if and only if group, artifact and version are all present and non-empty |
| Extension.ParentLabel | src/extension.ts:74-78 | that label is `groupId:artifactId:version` |
| Extension.DescribeProfile | src/extension.ts:81-83 | a profile's label is its id, absent when the id is absent |
| Extension.DescribeExtension | src/extension.ts:85-89 | an extension has a label if and only if its artifact is not null; an empty artifact still gets one |
| Extension.DescribePlugin | src/extension.ts:125-129 | a plugin has a label if and only if its artifact is not null; an empty artifact still gets one |
| Extension.ArtifactLabel | src/extension.ts:90-98 | `Extension.DescribeArtifact`, the body `describeExtension` and `describePlugin` share (lines 85-99 and 125-139): the label is the artifact alone when the group is null, group and artifact otherwise, then the version only when it is non-empty, joined by ':' |
| Extension.ArtifactLabelSplits | src/extension.ts:90-98 | splitting that label on ':' gives back exactly its shown parts when none contains ':' |
| Extension.DescribeDependency | src/extension.ts:101-104 | a dependency has a label if and only if `Extension.HasId` (`hasId`, lines 62-64) holds: group and artifact both present and non-empty |
| Extension.DependencyLabel | src/extension.ts:105-112 | that label is group and artifact, then type, classifier, version and scope in that order, skipping each absent or empty one, joined by ':' |
| Extension.DependencyLabelSplits | src/extension.ts:105-112 | splitting that label on ':' gives back exactly its shown parts when none contains ':' |
| Extension.DescribeExclusion | src/extension.ts:115-118 | an exclusion has a label if and only if `hasId` holds |
| Extension.ExclusionLabel | src/extension.ts:119-122 | that label is exactly `groupId:artifactId` |
| Extension.OnlyTagHasNoLabel | src/extension.ts:37-54 | a callback carrying only its tag gets no placeholder, whatever its kind |
| Extension.CollectDescriptors | src/extension.ts:31-55 | one descriptor per callback, in callback order, copying the tag's start and end and holding the callback's label `Extension.Describe`, the `describe*` call of that callback's handler (lines 37-54) |
| Extension.Descriptors | src/extension.ts:30-58 | for an event stream, one descriptor per callback of the tagger, in order, with that callback's span and no placeholder |

## Left out

- The XML tokenizer is not part of this model. That covers the `sax-ts` `SAXParser`,
  `MySAXParser` and `parser.write(text).close()`, with their position semantics, self-closing
  tags, error recovery and thrown errors. The model takes the events the tokenizer reports, each
  with `parser.position` at that moment, as its input.
- Editor glue is not modelled: `activate`, `PomFoldingRangeProvider` and the conversion of
  offsets to lines through `document.positionAt` (src/extension.ts:1-24). These are VS Code API
  calls.
- Property capture from child text does not exist in the code: `process` installs no text
  handler and callbacks carry only their tag (src/mavenDomProcessor.ts:53-88).
- `relativePath` on `Parent` is not modelled: nothing reads it.
- Extension.Descriptors: the source pushes each descriptor from inside the callback while
  parsing. The model runs the tagger first and then collects the descriptors in order. The
  result is the same because the callbacks do nothing but append.
- Taxonomy.AddDependenciesFoldableTags, Taxonomy.AddPluginsFoldableTags and
  Taxonomy.AddModelBaseFoldableTags take, beside the string prefix, the prefix's element names
  as a ghost parameter, so that their contracts can speak of name lists.
- MavenDomProcessor.TagProcessor.constructor takes the registry as a parameter. The source reads
  the module-level `FOLDABLE_TAGS`; `Process` passes exactly that registry.
- MavenDomProcessor.FoldableCloseReportsOne, MavenDomProcessor.TagPathFoldable,
  Taxonomy.FoldableTagMembership and Documents.DocumentFolds assume element names without "/",
  as XML names are. `Process` and the other run lemmas hold for any names.
- Positions are unbounded natural numbers; JavaScript's floating-point numbers are not modelled.
- `hasId` returns a string or `undefined` that is only ever used as a condition. It is modelled
  as a predicate.
