/** Well-nested documents: the events a tokenizer reports for a tree of elements, and what the
    tagger makes of them, stated element by element rather than event by event. */
module Documents {
  import opened Strings
  import opened Taxonomy
  import opened MavenDomProcessor

  /** An element: its name, the position of its open-tag start, its children in document order
      and the position of its close tag. */
  datatype Element = Element(name: string, start: nat, children: seq<Element>, end: nat)

  /** The events of `e`: its open-tag start, its children's events, its close tag. */
  function Events(e: Element): seq<Event>
    decreases e
  {
    [OpenTagStart(e.name, e.start)] + EventsOf(e.children) + [CloseTag(e.name, e.end)]
  }

  function EventsOf(es: seq<Element>): seq<Event>
    decreases es
  {
    if |es| == 0 then [] else Events(es[0]) + EventsOf(es[1..])
  }

  /** No element name of `e` contains "/", as no XML name does. */
  predicate WellNamed(e: Element)
    decreases e
  {
    '/' !in e.name && forall i | 0 <= i < |e.children| :: WellNamed(e.children[i])
  }

  /** The reference: the callbacks for `e` below the element names `ancestors`, in post-order
      (children first, then `e` itself when its root-to-self name path is listed). */
  function Folds(e: Element, ancestors: seq<string>): seq<Foldable>
    decreases e
  {
    FoldsOf(e.children, ancestors + [e.name]) +
    if ancestors + [e.name] in FoldablePaths then Reported(CallbackTag(e.name, e.start, e.end)) else []
  }

  function FoldsOf(es: seq<Element>, ancestors: seq<string>): seq<Foldable>
    decreases es
  {
    if |es| == 0 then [] else Folds(es[0], ancestors) + FoldsOf(es[1..], ancestors)
  }

  /** The same walk, with the tagger's string test on the open contexts in place of the listed
      name paths. */
  function TestedFolds(foldable: set<string>, e: Element, contexts: seq<TagContext>): seq<Foldable>
    decreases e
  {
    TestedFoldsOf(foldable, e.children, contexts + [TagContext(e.name, e.start)]) +
    if TagPath(contexts, e.name) in foldable then Reported(CallbackTag(e.name, e.start, e.end)) else []
  }

  function TestedFoldsOf(foldable: set<string>, es: seq<Element>, contexts: seq<TagContext>): seq<Foldable>
    decreases es
  {
    if |es| == 0 then [] else TestedFolds(foldable, es[0], contexts) + TestedFoldsOf(foldable, es[1..], contexts)
  }

  /** Running two event sequences one after the other is running their concatenation. */
  lemma {:induction false} RunAppend(foldable: set<string>, s: ProcessorState, a: seq<Event>, b: seq<Event>)
    ensures Run(foldable, s, a + b) == Run(foldable, Run(foldable, s, a), b)
  {
    if |b| > 0 {
      var n := |b| - 1;
      RunAppend(foldable, s, a, b[..n]);
      assert (a + b)[..|a + b| - 1] == a + b[..n];
      assert (a + b)[|a + b| - 1] == b[n];
    } else {
      assert a + b == a;
    }
  }

  /** Running one event is one step. */
  lemma RunSingle(foldable: set<string>, s: ProcessorState, e: Event)
    ensures Run(foldable, s, [e]) == Step(foldable, s, e)
  {
    assert [e][..0] == [];
  }

  /** An element's events leave the open contexts as they found them and append the element's
      callbacks, whatever was open around it. */
  lemma {:induction false} RunElement(foldable: set<string>, s: ProcessorState, e: Element)
    ensures Run(foldable, s, Events(e)) ==
      ProcessorState(s.tagContexts, s.callbacks + TestedFolds(foldable, e, s.tagContexts))
    decreases e
  {
    var ctx := TagContext(e.name, e.start);
    var open := OpenTagStart(e.name, e.start);
    var close := CloseTag(e.name, e.end);
    var inside := EventsOf(e.children);
    assert Events(e) == ([open] + inside) + [close];
    var s1 := ProcessorState(s.tagContexts + [ctx], s.callbacks);
    RunSingle(foldable, s, open);
    RunAppend(foldable, s, [open], inside);
    assert Run(foldable, s, [open] + inside) == Run(foldable, s1, inside);
    RunElements(foldable, s1, inside, e.children);
    var inner := TestedFoldsOf(foldable, e.children, s.tagContexts + [ctx]);
    var s2 := ProcessorState(s1.tagContexts, s.callbacks + inner);
    assert Run(foldable, s, [open] + inside) == s2;
    RunAppend(foldable, s, [open] + inside, [close]);
    RunSingle(foldable, s2, close);
    assert s2.tagContexts[|s2.tagContexts| - 1] == ctx;
    assert s2.tagContexts[..|s2.tagContexts| - 1] == s.tagContexts;
    var own := if TagPath(s.tagContexts, e.name) in foldable then Reported(CallbackTag(e.name, e.start, e.end)) else [];
    assert Step(foldable, s2, close) == ProcessorState(s.tagContexts, s.callbacks + inner + own);
    assert TestedFolds(foldable, e, s.tagContexts) == inner + own;
    assert s.callbacks + inner + own == s.callbacks + (inner + own);
  }

  lemma {:induction false} RunElements(foldable: set<string>, s: ProcessorState, events: seq<Event>, es: seq<Element>)
    requires events == EventsOf(es)
    ensures Run(foldable, s, events) ==
      ProcessorState(s.tagContexts, s.callbacks + TestedFoldsOf(foldable, es, s.tagContexts))
    decreases es
  {
    if |es| == 0 {
      assert events == [];
      assert TestedFoldsOf(foldable, es, s.tagContexts) == [];
      assert s.callbacks + [] == s.callbacks;
    } else {
      var first, rest := Events(es[0]), EventsOf(es[1..]);
      assert events == first + rest;
      RunAppend(foldable, s, first, rest);
      RunElement(foldable, s, es[0]);
      var head := TestedFolds(foldable, es[0], s.tagContexts);
      var tail := TestedFoldsOf(foldable, es[1..], s.tagContexts);
      var s1 := ProcessorState(s.tagContexts, s.callbacks + head);
      RunElements(foldable, s1, rest, es[1..]);
      assert TestedFoldsOf(foldable, es, s.tagContexts) == head + tail;
      assert s.callbacks + head + tail == s.callbacks + (head + tail);
    }
  }

  lemma NamesSnoc(contexts: seq<TagContext>, c: TagContext)
    ensures Names(contexts + [c]) == Names(contexts) + [c.name]
  {
  }

  /** The tagger's test on the open contexts agrees with the listed name paths. */
  lemma ListedExactlyWhenFoldable(contexts: seq<TagContext>, name: string)
    requires SeparatorFree(Names(contexts), '/') && '/' !in name
    ensures TagPath(contexts, name) in FoldableTags <==> Names(contexts) + [name] in FoldablePaths
  {
    TagPathFoldable(contexts, name);
    if |contexts| == 0 {
      FoldablePathsWellFormed();
      assert Names(contexts) + [name] == [name];
    }
  }

  /** For well-named elements the tagger's string test picks out exactly the elements whose
      name path is listed. */
  lemma {:induction false} TestedFoldsAreFolds(e: Element, contexts: seq<TagContext>)
    requires WellNamed(e) && SeparatorFree(Names(contexts), '/')
    ensures TestedFolds(FoldableTags, e, contexts) == Folds(e, Names(contexts))
    decreases e
  {
    var ctx := TagContext(e.name, e.start);
    NamesSnoc(contexts, ctx);
    TestedFoldsOfAreFoldsOf(e.children, contexts + [ctx]);
    ListedExactlyWhenFoldable(contexts, e.name);
  }

  lemma {:induction false} TestedFoldsOfAreFoldsOf(es: seq<Element>, contexts: seq<TagContext>)
    requires forall i | 0 <= i < |es| :: WellNamed(es[i])
    requires SeparatorFree(Names(contexts), '/')
    ensures TestedFoldsOf(FoldableTags, es, contexts) == FoldsOf(es, Names(contexts))
    decreases es
  {
    if |es| > 0 {
      TestedFoldsAreFolds(es[0], contexts);
      TestedFoldsOfAreFoldsOf(es[1..], contexts);
    }
  }

  /** For a well-named document, the tagger reports exactly the listed elements, innermost and
      earliest-closing first, each with its own open-tag start and close positions. */
  lemma DocumentFolds(root: Element)
    requires WellNamed(root)
    ensures Run(FoldableTags, Initial, Events(root)).callbacks == Folds(root, [])
  {
    RunElement(FoldableTags, Initial, root);
    TestedFoldsAreFolds(root, []);
  }

  const ParentDocument := Element("project", 0, [Element("parent", 9, [], 17)], 27)

  lemma ParentFolds()
    ensures Folds(Element("parent", 9, [], 17), ["project"]) == [Parent(Tag("parent", 9, 17), NoCoordinates)]
  {
    assert ["project"] + ["parent"] == FoldablePaths[0];
    assert FoldsOf([], ["project", "parent"]) == [];
  }

  lemma ParentDocumentFolds()
    ensures Folds(ParentDocument, []) == [Parent(Tag("parent", 9, 17), NoCoordinates)]
  {
    var parent := Element("parent", 9, [], 17);
    ParentFolds();
    assert ParentDocument.children == [parent];
    assert [parent][1..] == [];
    assert FoldsOf([parent], ["project"]) == Folds(parent, ["project"]);
    FoldablePathsWellFormed();
    assert [] + ["project"] == ["project"];
    assert ["project"] !in FoldablePaths;
  }

  /** `<project><parent></parent></project>`: the parent element is reported once, with no
      coordinates, spanning its own open-tag start and close. */
  lemma ParentReported()
    ensures Run(FoldableTags, Initial, Events(ParentDocument)).callbacks == [Parent(Tag("parent", 9, 17), NoCoordinates)]
  {
    DocumentFolds(ParentDocument);
    ParentDocumentFolds();
  }

  const MisplacedDependencyDocument := Element("project", 0, [Element("dependency", 9, [], 21)], 31)

  lemma MisplacedDependencyFolds()
    ensures Folds(MisplacedDependencyDocument, []) == []
  {
    var dependency := Element("dependency", 9, [], 21);
    assert MisplacedDependencyDocument.children == [dependency];
    assert [dependency][1..] == [];
    FoldablePathsWellFormed();
    assert [] + ["project"] == ["project"];
    assert ["project"] !in FoldablePaths;
    assert ["project"] + ["dependency"] !in FoldablePaths by {
      assert ["project"] + ["dependency"] == ["project", "dependency"];
    }
    assert FoldsOf([], ["project", "dependency"]) == [];
    assert FoldsOf([dependency], ["project"]) == Folds(dependency, ["project"]);
  }

  /** A dependency directly under `project` is not at a listed path and is not reported. */
  lemma UnlistedDependencyIgnored()
    ensures Run(FoldableTags, Initial, Events(MisplacedDependencyDocument)).callbacks == []
  {
    DocumentFolds(MisplacedDependencyDocument);
    MisplacedDependencyFolds();
  }

  /** Build extensions are listed only for the project itself, not inside a profile. */
  lemma ProfileExtensionIgnored()
    ensures ["project", "build", "extensions", "extension"] in FoldablePaths
    ensures ["project", "profiles", "profile", "build", "extensions", "extension"] !in FoldablePaths
  {
    assert FoldablePaths[22] == ["project", "build", "extensions", "extension"];
  }

  /** The events `OpenTagStart("project", 0)`, `OpenTagStart("parent", 9)`, `CloseTag("project", 17)`:
      the close does not match the innermost open context, so it pops `parent` without a
      callback and leaves `project` open. */
  lemma MismatchedCloseDropped()
    ensures Run(FoldableTags, Initial, [OpenTagStart("project", 0), OpenTagStart("parent", 9), CloseTag("project", 17)]) ==
      ProcessorState([TagContext("project", 0)], [])
  {
    var events := [OpenTagStart("project", 0), OpenTagStart("parent", 9), CloseTag("project", 17)];
    var s1 := ProcessorState([TagContext("project", 0)], []);
    var s2 := ProcessorState([TagContext("project", 0), TagContext("parent", 9)], []);
    RunSingle(FoldableTags, Initial, events[0]);
    RunAppend(FoldableTags, Initial, [events[0]], [events[1]]);
    RunSingle(FoldableTags, s1, events[1]);
    RunAppend(FoldableTags, Initial, [events[0], events[1]], [events[2]]);
    RunSingle(FoldableTags, s2, events[2]);
    assert [events[0]] + [events[1]] == [events[0], events[1]];
    assert [events[0], events[1]] + [events[2]] == events;
    assert s2.tagContexts[..1] == [TagContext("project", 0)];
  }
}
