/** The fold-region tagger of `mavenDomProcessor.ts`: a stack of open-element contexts driven
    by the tokenizer's open-tag-start and close-tag events, which reports each closed element
    whose root-to-self path is foldable through one of six callbacks. */
module MavenDomProcessor {
  import opened Wrappers
  import opened Strings
  import opened Taxonomy

  /** The span of an element: its name, the position at its open-tag start and at its close. */
  datatype Tag = Tag(name: string, start: nat, end: nat)

  /** `ArtifactCoordinates`: the optional group, artifact and version of an element. */
  datatype Coordinates = Coordinates(groupId: Option<string>, artifactId: Option<string>, version: Option<string>)

  const NoCoordinates := Coordinates(None, None, None)

  /** The payload of each callback of the `Callback` interface, one constructor per callback. */
  datatype Foldable =
    | Parent(tag: Tag, coordinates: Coordinates)
    | Profile(tag: Tag, id: Option<string>)
    | Extension(tag: Tag, coordinates: Coordinates)
    | Dependency(tag: Tag, coordinates: Coordinates,
                 dependencyType: Option<string>, classifier: Option<string>, scope: Option<string>)
    | Exclusion(tag: Tag, coordinates: Coordinates)
    | Plugin(tag: Tag, coordinates: Coordinates)

  /** The element names `callbackTag` dispatches on. */
  const CallbackNames: set<string> := {"parent", "profile", "extension", "dependency", "exclusion", "plugin"}

  /** The element name whose case of `callbackTag`'s switch calls this callback. */
  function CaseName(f: Foldable): string
  {
    match f
    case Parent(_, _) => "parent"
    case Profile(_, _) => "profile"
    case Extension(_, _) => "extension"
    case Dependency(_, _, _, _, _) => "dependency"
    case Exclusion(_, _) => "exclusion"
    case Plugin(_, _) => "plugin"
  }

  /** A payload that carries its tag and nothing else. */
  predicate OnlyTag(f: Foldable)
  {
    match f
    case Profile(_, id) => id == None
    case Dependency(_, c, t, k, s) => c == NoCoordinates && t == None && k == None && s == None
    case _ => f.coordinates == NoCoordinates
  }

  /** `callbackTag(name, start, end, callback)`: the callback it calls, if any, with `{tag}`. */
  function CallbackTag(name: string, start: nat, end: nat): (r: Option<Foldable>)
    ensures r.Some? <==> name in CallbackNames
    ensures r.Some? ==> CaseName(r.value) == name && r.value.tag == Tag(name, start, end) && OnlyTag(r.value)
  {
    var tag := Tag(name, start, end);
    if name == "parent" then Some(Parent(tag, NoCoordinates))
    else if name == "profile" then Some(Profile(tag, None))
    else if name == "extension" then Some(Extension(tag, NoCoordinates))
    else if name == "dependency" then Some(Dependency(tag, NoCoordinates, None, None, None))
    else if name == "exclusion" then Some(Exclusion(tag, NoCoordinates))
    else if name == "plugin" then Some(Plugin(tag, NoCoordinates))
    else None
  }

  /** The callbacks a call reports: none or one. */
  function Reported(r: Option<Foldable>): seq<Foldable>
  {
    if r.Some? then [r.value] else []
  }

  /** `TagContext`: an open element and the position at its open-tag start. */
  datatype TagContext = TagContext(name: string, startPosition: nat)

  /** What the tokenizer reports, with `parser.position` at the time. */
  datatype Event =
    | OpenTagStart(name: string, position: nat)
    | CloseTag(name: string, position: nat)

  function Names(contexts: seq<TagContext>): (r: seq<string>)
    ensures |r| == |contexts| && forall i :: 0 <= i < |r| ==> r[i] == contexts[i].name
  {
    seq(|contexts|, i requires 0 <= i < |contexts| => contexts[i].name)
  }

  /** `tagPath(tagContexts, name)`: the remaining contexts' names joined by "/", then "/" and `name`. */
  function TagPath(contexts: seq<TagContext>, name: string): string
  {
    Join(Names(contexts), '/') + "/" + name
  }

  /** With at least one enclosing context, `tagPath` is the path of names from the root to the
      element; closing the root itself gives "/" followed by its name. */
  lemma TagPathIsPath(contexts: seq<TagContext>, name: string)
    ensures |contexts| > 0 ==> TagPath(contexts, name) == PathString(Names(contexts) + [name])
    ensures |contexts| == 0 ==> TagPath(contexts, name) == PathString(["", name])
  {
    if |contexts| > 0 {
      JoinSnoc(Names(contexts), name, '/');
    } else {
      assert Names(contexts) == [];
      var root := ["", name];
      assert root[1..] == [name];
      assert Join(root[1..], '/') == name;
      assert PathString(root) == root[0] + ['/'] + Join(root[1..], '/');
      assert "/" == ['/'];
    }
  }

  /** For "/"-free names, the string test `FOLDABLE_TAGS.has(tagPath(...))` holds exactly when
      the names of the open contexts followed by `name` form a listed path; in particular
      closing the root element is never foldable. */
  lemma TagPathFoldable(contexts: seq<TagContext>, name: string)
    requires SeparatorFree(Names(contexts), '/') && '/' !in name
    ensures TagPath(contexts, name) in FoldableTags <==> |contexts| > 0 && Names(contexts) + [name] in FoldablePaths
  {
    TagPathIsPath(contexts, name);
    if |contexts| > 0 {
      FoldableTagMembership(Names(contexts) + [name]);
    } else {
      FoldableTagMembership(["", name]);
      FoldablePathsWellFormed();
    }
  }

  /** The last name of every listed path is one of `callbackTag`'s cases. */
  lemma FoldablePathsEndInCallbackName()
    ensures forall i | 0 <= i < |FoldablePaths| ::
      |FoldablePaths[i]| > 0 && FoldablePaths[i][|FoldablePaths[i]| - 1] in CallbackNames
  {
  }

  /** The tagger's state: the open contexts, innermost last, and the callbacks made so far. */
  datatype ProcessorState = ProcessorState(tagContexts: seq<TagContext>, callbacks: seq<Foldable>)

  const Initial := ProcessorState([], [])

  /** One event handled as `onopentagstart` / `onclosetag` do, `foldable` standing for
      `FOLDABLE_TAGS`. */
  function Step(foldable: set<string>, s: ProcessorState, e: Event): ProcessorState
  {
    match e
    case OpenTagStart(name, position) =>
      s.(tagContexts := s.tagContexts + [TagContext(name, position)])
    case CloseTag(name, position) =>
      if |s.tagContexts| == 0 then s
      else
        var top, rest := s.tagContexts[|s.tagContexts| - 1], s.tagContexts[..|s.tagContexts| - 1];
        if top.name != name || TagPath(rest, name) !in foldable then s.(tagContexts := rest)
        else ProcessorState(rest, s.callbacks + Reported(CallbackTag(name, top.startPosition, position)))
  }

  /** The state after the events in order, from `s`. */
  function Run(foldable: set<string>, s: ProcessorState, events: seq<Event>): ProcessorState
  {
    if |events| == 0 then s else Step(foldable, Run(foldable, s, events[..|events| - 1]), events[|events| - 1])
  }

  lemma SeparatorFreeInnermost(contexts: seq<TagContext>)
    requires |contexts| > 0 && SeparatorFree(Names(contexts), '/')
    ensures SeparatorFree(Names(contexts[..|contexts| - 1]), '/') && '/' !in contexts[|contexts| - 1].name
  {
    assert Names(contexts) == Names(contexts[..|contexts| - 1]) + [contexts[|contexts| - 1].name];
  }

  /** An element closed at a foldable path is named by one of `callbackTag`'s cases. */
  lemma FoldableTagIsCallbackName(contexts: seq<TagContext>, name: string)
    requires SeparatorFree(Names(contexts), '/') && '/' !in name
    requires TagPath(contexts, name) in FoldableTags
    ensures name in CallbackNames
  {
    TagPathFoldable(contexts, name);
    FoldablePathsEndInCallbackName();
    var i :| 0 <= i < |FoldablePaths| && FoldablePaths[i] == Names(contexts) + [name];
  }

  lemma CloseReportsOne(foldable: set<string>, s: ProcessorState, name: string, position: nat)
    requires |s.tagContexts| > 0 && s.tagContexts[|s.tagContexts| - 1].name == name
    requires TagPath(s.tagContexts[..|s.tagContexts| - 1], name) in foldable && name in CallbackNames
    ensures var t := Step(foldable, s, CloseTag(name, position));
      var top := s.tagContexts[|s.tagContexts| - 1];
      t.tagContexts == s.tagContexts[..|s.tagContexts| - 1] &&
      |t.callbacks| == |s.callbacks| + 1 && t.callbacks[..|s.callbacks|] == s.callbacks &&
      CaseName(t.callbacks[|s.callbacks|]) == name &&
      t.callbacks[|s.callbacks|].tag == Tag(name, top.startPosition, position)
  {
  }

  /** A close event that matches the innermost context at a foldable path reports exactly one
      callback, of the kind named by the element, spanning from that context's open-tag start to
      the close; the context is popped and earlier callbacks are kept. */
  lemma FoldableCloseReportsOne(s: ProcessorState, name: string, position: nat)
    requires |s.tagContexts| > 0 && s.tagContexts[|s.tagContexts| - 1].name == name
    requires SeparatorFree(Names(s.tagContexts), '/')
    requires TagPath(s.tagContexts[..|s.tagContexts| - 1], name) in FoldableTags
    ensures var t := Step(FoldableTags, s, CloseTag(name, position));
      var top := s.tagContexts[|s.tagContexts| - 1];
      t.tagContexts == s.tagContexts[..|s.tagContexts| - 1] &&
      |t.callbacks| == |s.callbacks| + 1 && t.callbacks[..|s.callbacks|] == s.callbacks &&
      CaseName(t.callbacks[|s.callbacks|]) == name &&
      t.callbacks[|s.callbacks|].tag == Tag(name, top.startPosition, position)
  {
    var rest := s.tagContexts[..|s.tagContexts| - 1];
    SeparatorFreeInnermost(s.tagContexts);
    FoldableTagIsCallbackName(rest, name);
    CloseReportsOne(FoldableTags, s, name, position);
  }

  /** Some event of `events` is an open-tag start of `name` at `position`. */
  predicate Opened(events: seq<Event>, name: string, position: nat)
  {
    exists j | 0 <= j < |events| :: events[j] == OpenTagStart(name, position)
  }

  /** Some open-tag start of `name` at `start` precedes a close of `name` at `end`. */
  predicate Spanned(events: seq<Event>, name: string, start: nat, end: nat)
  {
    exists i, j | 0 <= j < i < |events| :: events[j] == OpenTagStart(name, start) && events[i] == CloseTag(name, end)
  }

  /** What `r` owes to `events`: open contexts were opened, callbacks were spanned and are of
      the kind their element names. */
  predicate Provenance(events: seq<Event>, r: ProcessorState)
  {
    (forall k | 0 <= k < |r.tagContexts| :: Opened(events, r.tagContexts[k].name, r.tagContexts[k].startPosition)) &&
    (forall k | 0 <= k < |r.callbacks| ::
      CaseName(r.callbacks[k]) == r.callbacks[k].tag.name && r.callbacks[k].tag.name in CallbackNames &&
      Spanned(events, r.callbacks[k].tag.name, r.callbacks[k].tag.start, r.callbacks[k].tag.end))
  }

  /** What a state owes to some events it still owes to more of them. */
  lemma ProvenanceExtends(before: seq<Event>, e: Event, r: ProcessorState)
    requires Provenance(before, r)
    ensures Provenance(before + [e], r)
  {
    var events := before + [e];
    forall name, position | Opened(before, name, position)
      ensures Opened(events, name, position)
    {
      var j :| 0 <= j < |before| && before[j] == OpenTagStart(name, position);
      assert events[j] == before[j];
    }
    forall name, start, end | Spanned(before, name, start, end)
      ensures Spanned(events, name, start, end)
    {
      var i, j :| 0 <= j < i < |before| && before[j] == OpenTagStart(name, start) && before[i] == CloseTag(name, end);
      assert events[j] == before[j] && events[i] == before[i];
    }
  }

  lemma StepProvenance(foldable: set<string>, before: seq<Event>, r0: ProcessorState, e: Event)
    requires Provenance(before, r0)
    ensures Provenance(before + [e], Step(foldable, r0, e))
  {
    var events := before + [e];
    var n := |before|;
    ProvenanceExtends(before, e, r0);
    assert events[n] == e;
    match e
    case OpenTagStart(name, position) =>
      assert Opened(events, name, position);
    case CloseTag(name, position) =>
      if |r0.tagContexts| > 0 {
        var top := r0.tagContexts[|r0.tagContexts| - 1];
        var rest := r0.tagContexts[..|r0.tagContexts| - 1];
        if top.name == name && TagPath(rest, name) in foldable {
          var c := CallbackTag(name, top.startPosition, position);
          if c.Some? {
            assert Opened(events, name, top.startPosition);
            var j :| 0 <= j < |events| && events[j] == OpenTagStart(name, top.startPosition);
            assert Spanned(events, name, top.startPosition, position);
          }
        }
      }
  }

  /** Every open context was pushed by an open-tag-start event with its name and position, and
      every callback names one of `callbackTag`'s cases and spans from an open-tag-start event
      of its element's name to a later close event of that name. */
  lemma {:induction false} RunProvenance(foldable: set<string>, events: seq<Event>)
    ensures Provenance(events, Run(foldable, Initial, events))
  {
    if |events| > 0 {
      var n := |events| - 1;
      RunProvenance(foldable, events[..n]);
      StepProvenance(foldable, events[..n], Run(foldable, Initial, events[..n]), events[n]);
      assert events[..n] + [events[n]] == events;
    }
  }

  /** Every callback carries its tag and nothing else: no coordinates, id, type, classifier
      or scope is ever filled in. */
  lemma {:induction false} RunCallbacksOnlyTag(foldable: set<string>, events: seq<Event>)
    ensures forall k | 0 <= k < |Run(foldable, Initial, events).callbacks| :: OnlyTag(Run(foldable, Initial, events).callbacks[k])
  {
    if |events| > 0 {
      var n := |events| - 1;
      RunCallbacksOnlyTag(foldable, events[..n]);
      var r0 := Run(foldable, Initial, events[..n]);
      match events[n]
      case OpenTagStart(_, _) =>
      case CloseTag(name, position) =>
        if |r0.tagContexts| > 0 {
          var top := r0.tagContexts[|r0.tagContexts| - 1];
          var c := CallbackTag(name, top.startPosition, position);
          if c.Some? {
            assert OnlyTag(c.value);
          }
        }
    }
  }

  /** A close event with no open context changes nothing and reports nothing. */
  lemma CloseOnEmptyIgnored(foldable: set<string>, s: ProcessorState, name: string, position: nat)
    requires |s.tagContexts| == 0
    ensures Step(foldable, s, CloseTag(name, position)) == s
  {
  }

  /** A close event whose name differs from the innermost context's still pops that context,
      and reports nothing. */
  lemma MismatchedClosePops(foldable: set<string>, s: ProcessorState, name: string, position: nat)
    requires |s.tagContexts| > 0 && s.tagContexts[|s.tagContexts| - 1].name != name
    ensures Step(foldable, s, CloseTag(name, position)) == s.(tagContexts := s.tagContexts[..|s.tagContexts| - 1])
  {
  }

  /** An open-tag-start event pushes exactly one context with its name and position, and
      nothing else changes. */
  lemma OpenPushes(foldable: set<string>, s: ProcessorState, name: string, position: nat)
    ensures Step(foldable, s, OpenTagStart(name, position)) ==
      ProcessorState(s.tagContexts + [TagContext(name, position)], s.callbacks)
  {
  }

  /** Positions the tokenizer reports never decrease. */
  predicate PositionsNondecreasing(events: seq<Event>)
  {
    forall i, j | 0 <= i < j < |events| :: events[i].position <= events[j].position
  }

  /** Every recorded position of `r` is at most `bound`, every callback's span starts no later
      than it ends, and the callbacks come in order of their ends. */
  predicate OrderedUpTo(r: ProcessorState, bound: nat)
  {
    (forall k | 0 <= k < |r.tagContexts| :: r.tagContexts[k].startPosition <= bound) &&
    (forall k | 0 <= k < |r.callbacks| :: r.callbacks[k].tag.start <= r.callbacks[k].tag.end <= bound) &&
    (forall k, l | 0 <= k < l < |r.callbacks| :: r.callbacks[k].tag.end <= r.callbacks[l].tag.end)
  }

  lemma StepOrdered(foldable: set<string>, r0: ProcessorState, bound: nat, e: Event)
    requires OrderedUpTo(r0, bound) && bound <= e.position
    ensures OrderedUpTo(Step(foldable, r0, e), e.position)
  {
    match e
    case OpenTagStart(name, position) =>
    case CloseTag(name, position) =>
      if |r0.tagContexts| > 0 {
        var top := r0.tagContexts[|r0.tagContexts| - 1];
        var rest := r0.tagContexts[..|r0.tagContexts| - 1];
        if top.name == name && TagPath(rest, name) in foldable {
          var c := CallbackTag(name, top.startPosition, position);
          if c.Some? {
            assert Step(foldable, r0, e).callbacks == r0.callbacks + [c.value];
          }
        }
      }
  }

  /** When positions never decrease, every callback's span starts no later than it ends, the
      callbacks come in order of their ends, and nothing recorded lies beyond the last event. */
  lemma {:induction false} RunOrdered(foldable: set<string>, events: seq<Event>)
    requires PositionsNondecreasing(events)
    ensures OrderedUpTo(Run(foldable, Initial, events), if |events| == 0 then 0 else events[|events| - 1].position)
  {
    if |events| > 0 {
      var n := |events| - 1;
      var before := events[..n];
      assert PositionsNondecreasing(before);
      RunOrdered(foldable, before);
      if n > 0 {
        assert before[n - 1].position <= events[n].position;
      }
      StepOrdered(foldable, Run(foldable, Initial, before), if n == 0 then 0 else before[n - 1].position, events[n]);
    }
  }

  /** The handlers of `process` and the state they share. */
  class TagProcessor {
    /** `FOLDABLE_TAGS`, as the handlers see it. */
    const foldableTags: set<string>
    var tagContexts: seq<TagContext>
    var callbacks: seq<Foldable>

    constructor (foldableTags: set<string>)
      ensures this.foldableTags == foldableTags && tagContexts == [] && callbacks == []
    {
      this.foldableTags := foldableTags;
      tagContexts := [];
      callbacks := [];
    }

    /** `parser.onopentagstart`: pushes one context with the name and current position. */
    method OnOpenTagStart(name: string, position: nat)
      modifies this
      ensures tagContexts == old(tagContexts) + [TagContext(name, position)]
      ensures callbacks == old(callbacks)
    {
      tagContexts := tagContexts + [TagContext(name, position)];
    }

    /** `parser.onclosetag`: with no open context, nothing changes; otherwise the innermost
        context is popped, and a callback is made only when its name is `name` and the
        resulting path is foldable. */
    method OnCloseTag(name: string, position: nat)
      modifies this
      ensures old(|tagContexts|) == 0 ==> tagContexts == old(tagContexts) && callbacks == old(callbacks)
      ensures old(|tagContexts|) > 0 ==> tagContexts == old(tagContexts)[..old(|tagContexts|) - 1]
      ensures old(|tagContexts|) > 0 ==>
        var top := old(tagContexts)[old(|tagContexts|) - 1];
        callbacks == old(callbacks) +
          if top.name == name && TagPath(tagContexts, name) in foldableTags
          then Reported(CallbackTag(name, top.startPosition, position))
          else []
    {
      if |tagContexts| == 0 {
        return;
      }
      var tagContext := tagContexts[|tagContexts| - 1];
      tagContexts := tagContexts[..|tagContexts| - 1];
      if tagContext.name != name {
        return;
      }
      var isFoldableTag := TagPath(tagContexts, name) in foldableTags;
      if isFoldableTag {
        var r := CallbackTag(name, tagContext.startPosition, position);
        if r.Some? {
          callbacks := callbacks + [r.value];
        }
      }
    }

    /** `parser.write(text)`: the tokenizer's events dispatched to the handlers in order. */
    method Write(events: seq<Event>)
      modifies this
      ensures ProcessorState(tagContexts, callbacks) ==
        Run(foldableTags, old(ProcessorState(tagContexts, callbacks)), events)
    {
      ghost var start := ProcessorState(tagContexts, callbacks);
      var i := 0;
      while i < |events|
        invariant 0 <= i <= |events|
        invariant ProcessorState(tagContexts, callbacks) == Run(foldableTags, start, events[..i])
      {
        assert events[..i + 1][..i] == events[..i];
        match events[i] {
          case OpenTagStart(name, position) => OnOpenTagStart(name, position);
          case CloseTag(name, position) => OnCloseTag(name, position);
        }
        i := i + 1;
      }
      assert events[..|events|] == events;
    }
  }

  /** `process(text, callback)` with the tokenizer's events given: the callbacks made, in order. */
  method Process(events: seq<Event>) returns (callbacks: seq<Foldable>)
    ensures callbacks == Run(FoldableTags, Initial, events).callbacks
  {
    var processor := new TagProcessor(FoldableTags);
    processor.Write(events);
    callbacks := processor.callbacks;
  }
}
