/** The labels of `extension.ts`: each foldable element's optional coordinates turned into a
    ':'-separated placeholder, and the folding descriptors collected from the tagger's callbacks. */
module Extension {
  import opened Wrappers
  import opened Strings
  import opened Taxonomy
  import opened MavenDomProcessor

  /** `PART_SEPARATOR`. */
  const PartSeparator := ':'

  /** JavaScript truthiness of an optional string: present and not empty. */
  predicate Truthy(s: Option<string>)
  {
    s.Some? && s.value != ""
  }

  /** The truthy values among `parts`, in order: the parts a label shows. */
  function Present(parts: seq<Option<string>>): (r: seq<string>)
    ensures |r| <= |parts|
    ensures forall i | 0 <= i < |r| :: r[i] != ""
  {
    if |parts| == 0 then []
    else (if Truthy(parts[0]) then [parts[0].value] else []) + Present(parts[1..])
  }

  /** `appendPartIfNotNull(sb, s)`. */
  function AppendPartIfNotNull(sb: string, s: Option<string>): string
  {
    if !Truthy(s) then sb else sb + [PartSeparator] + s.value
  }

  /** `hasId(coordinates)`, read as a condition. */
  predicate HasId(c: Coordinates)
  {
    Truthy(c.groupId) && Truthy(c.artifactId)
  }

  /** `describeParent(parent)`. */
  function DescribeParent(c: Coordinates): (r: Option<string>)
    ensures r.Some? <==> Truthy(c.groupId) && Truthy(c.artifactId) && Truthy(c.version)
  {
    if !HasId(c) then None
    else if !Truthy(c.version) then None
    else
      var sb := c.groupId.value;
      var sb := AppendPartIfNotNull(sb, c.artifactId);
      var sb := AppendPartIfNotNull(sb, c.version);
      Some(sb)
  }

  /** `describeProfile(profile)`. */
  function DescribeProfile(id: Option<string>): (r: Option<string>)
    ensures r == id
  {
    id
  }

  /** The common body of `describeExtension` and `describePlugin`. */
  function DescribeArtifact(c: Coordinates): (r: Option<string>)
    ensures r.Some? <==> c.artifactId.Some?
  {
    if c.artifactId == None then None
    else
      var sb := if c.groupId == None then c.artifactId.value
                else c.groupId.value + [PartSeparator] + c.artifactId.value;
      Some(AppendPartIfNotNull(sb, c.version))
  }

  /** `describeExtension(extension)`. */
  function DescribeExtension(c: Coordinates): (r: Option<string>)
    ensures r.Some? <==> c.artifactId.Some?
  {
    DescribeArtifact(c)
  }

  /** `describePlugin(plugin)`. */
  function DescribePlugin(c: Coordinates): (r: Option<string>)
    ensures r.Some? <==> c.artifactId.Some?
  {
    DescribeArtifact(c)
  }

  /** `describeDependency(dependency)`. */
  function DescribeDependency(c: Coordinates, dependencyType: Option<string>, classifier: Option<string>,
                              scope: Option<string>): (r: Option<string>)
    ensures r.Some? <==> HasId(c)
  {
    if !HasId(c) then None
    else
      var sb := c.groupId.value;
      var sb := AppendPartIfNotNull(sb, c.artifactId);
      var sb := AppendPartIfNotNull(sb, dependencyType);
      var sb := AppendPartIfNotNull(sb, classifier);
      var sb := AppendPartIfNotNull(sb, c.version);
      var sb := AppendPartIfNotNull(sb, scope);
      Some(sb)
  }

  /** `describeExclusion(exclusion)`. */
  function DescribeExclusion(c: Coordinates): (r: Option<string>)
    ensures r.Some? <==> HasId(c)
  {
    if !HasId(c) then None
    else
      var sb := c.groupId.value;
      Some(AppendPartIfNotNull(sb, c.artifactId))
  }

  /** The placeholder the callback for `f` hands to `addDescriptorIfPossible`. */
  function Describe(f: Foldable): Option<string>
  {
    match f
    case Parent(_, c) => DescribeParent(c)
    case Profile(_, id) => DescribeProfile(id)
    case Extension(_, c) => DescribeExtension(c)
    case Dependency(_, c, t, k, s) => DescribeDependency(c, t, k, s)
    case Exclusion(_, c) => DescribeExclusion(c)
    case Plugin(_, c) => DescribePlugin(c)
  }

  /** Appending a part to a label adds it as one more ':'-separated piece when it is truthy,
      and nothing otherwise. */
  lemma AppendPartJoins(parts: seq<string>, s: Option<string>)
    requires |parts| >= 1
    ensures AppendPartIfNotNull(Join(parts, PartSeparator), s) == Join(parts + Present([s]), PartSeparator)
  {
    assert [s][1..] == [];
    if Truthy(s) {
      assert Present([s]) == [s.value];
      JoinSnoc(parts, s.value, PartSeparator);
    } else {
      assert Present([s]) == [];
      assert parts + [] == parts;
    }
  }

  /** `appendPartIfNotNull` applied for each of `more` in turn. */
  function AppendParts(sb: string, more: seq<Option<string>>): string
    decreases |more|
  {
    if |more| == 0 then sb else AppendParts(AppendPartIfNotNull(sb, more[0]), more[1..])
  }

  /** Appending the parts of `more` one by one is joining the truthy ones on. */
  lemma {:induction false} AppendPartsJoin(parts: seq<string>, more: seq<Option<string>>)
    requires |parts| >= 1
    ensures AppendParts(Join(parts, PartSeparator), more) == Join(parts + Present(more), PartSeparator)
    decreases |more|
  {
    if |more| == 0 {
      assert parts + [] == parts;
    } else {
      AppendPartJoins(parts, more[0]);
      AppendPartsJoin(parts + Present([more[0]]), more[1..]);
      assert Present(more) == Present([more[0]]) + Present(more[1..]) by {
        assert [more[0]][1..] == [];
      }
      assert parts + Present([more[0]]) + Present(more[1..]) == parts + Present(more);
    }
  }

  /** A parent's label is its group, artifact and version joined by ':'. */
  lemma ParentLabel(c: Coordinates)
    requires Truthy(c.groupId) && Truthy(c.artifactId) && Truthy(c.version)
    ensures DescribeParent(c) == Some(Join([c.groupId.value, c.artifactId.value, c.version.value], PartSeparator))
  {
    var more := [c.artifactId, c.version];
    var sb1 := AppendPartIfNotNull(c.groupId.value, c.artifactId);
    var sb2 := AppendPartIfNotNull(sb1, c.version);
    assert more[1..] == [c.version] && more[1..][1..] == [];
    assert AppendParts(sb2, []) == sb2;
    assert AppendParts(sb1, [c.version]) == sb2;
    assert AppendParts(c.groupId.value, more) == sb2;
    assert Join([c.groupId.value], PartSeparator) == c.groupId.value;
    AppendPartsJoin([c.groupId.value], more);
    assert Present(more) == [c.artifactId.value, c.version.value];
  }

  /** A dependency's label is its group and artifact followed by whichever of type, classifier,
      version and scope are truthy, in that order, joined by ':'. */
  lemma DependencyLabel(c: Coordinates, dependencyType: Option<string>, classifier: Option<string>,
                        scope: Option<string>)
    requires HasId(c)
    ensures DescribeDependency(c, dependencyType, classifier, scope) ==
      Some(Join([c.groupId.value, c.artifactId.value] + Present([dependencyType, classifier, c.version, scope]), PartSeparator))
  {
    var optional := [dependencyType, classifier, c.version, scope];
    var more := [c.artifactId] + optional;
    assert more[1..] == optional;
    assert optional[1..] == [classifier, c.version, scope];
    assert optional[1..][1..] == [c.version, scope];
    assert optional[1..][1..][1..] == [scope];
    assert optional[1..][1..][1..][1..] == [];
    var sb1 := AppendPartIfNotNull(c.groupId.value, c.artifactId);
    var sb2 := AppendPartIfNotNull(sb1, dependencyType);
    var sb3 := AppendPartIfNotNull(sb2, classifier);
    var sb4 := AppendPartIfNotNull(sb3, c.version);
    var sb5 := AppendPartIfNotNull(sb4, scope);
    assert AppendParts(sb5, []) == sb5;
    assert AppendParts(sb4, [scope]) == sb5;
    assert AppendParts(sb3, [c.version, scope]) == sb5;
    assert AppendParts(sb2, [classifier, c.version, scope]) == sb5;
    assert AppendParts(sb1, optional) == sb5;
    assert AppendParts(c.groupId.value, more) == sb5;
    assert Join([c.groupId.value], PartSeparator) == c.groupId.value;
    AppendPartsJoin([c.groupId.value], more);
    assert Present(more) == [c.artifactId.value] + Present(optional);
  }

  /** An exclusion's label is exactly its group and artifact joined by ':'. */
  lemma ExclusionLabel(c: Coordinates)
    requires HasId(c)
    ensures DescribeExclusion(c) == Some(Join([c.groupId.value, c.artifactId.value], PartSeparator))
  {
    assert Join([c.groupId.value], PartSeparator) == c.groupId.value;
    AppendPartJoins([c.groupId.value], c.artifactId);
    assert [c.artifactId][1..] == [];
    assert Present([c.artifactId]) == [c.artifactId.value];
  }

  /** An extension's or plugin's label starts with the artifact alone when the group is absent
      (even an empty one is shown), with group and artifact otherwise, and ends with the
      version when that is truthy. */
  lemma ArtifactLabel(c: Coordinates)
    requires c.artifactId.Some?
    ensures DescribeArtifact(c) ==
      Some(Join((if c.groupId == None then [] else [c.groupId.value]) + [c.artifactId.value] + Present([c.version]), PartSeparator))
  {
    var head := (if c.groupId == None then [] else [c.groupId.value]) + [c.artifactId.value];
    if c.groupId != None {
      assert head[1..] == [c.artifactId.value];
    }
    AppendPartJoins(head, c.version);
  }

  /** The pieces of a label are its shown parts: splitting a dependency's label on ':' gives
      back group, artifact and the truthy optional parts whenever none contains ':'. */
  lemma DependencyLabelSplits(c: Coordinates, dependencyType: Option<string>, classifier: Option<string>,
                              scope: Option<string>)
    requires HasId(c)
    requires SeparatorFree([c.groupId.value, c.artifactId.value] + Present([dependencyType, classifier, c.version, scope]), PartSeparator)
    ensures Split(DescribeDependency(c, dependencyType, classifier, scope).value, PartSeparator) ==
      [c.groupId.value, c.artifactId.value] + Present([dependencyType, classifier, c.version, scope])
  {
    DependencyLabel(c, dependencyType, classifier, scope);
    SplitJoin([c.groupId.value, c.artifactId.value] + Present([dependencyType, classifier, c.version, scope]), PartSeparator);
  }

  /** Splitting an extension's or plugin's label on ':' gives back its shown parts whenever
      none contains ':'. */
  lemma ArtifactLabelSplits(c: Coordinates)
    requires c.artifactId.Some?
    requires SeparatorFree((if c.groupId == None then [] else [c.groupId.value]) + [c.artifactId.value] + Present([c.version]), PartSeparator)
    ensures Split(DescribeArtifact(c).value, PartSeparator) ==
      (if c.groupId == None then [] else [c.groupId.value]) + [c.artifactId.value] + Present([c.version])
  {
    ArtifactLabel(c);
    SplitJoin((if c.groupId == None then [] else [c.groupId.value]) + [c.artifactId.value] + Present([c.version]), PartSeparator);
  }

  /** A callback made by the tagger carries only its tag, so no label can be made from it. */
  lemma OnlyTagHasNoLabel(f: Foldable)
    requires OnlyTag(f)
    ensures Describe(f) == None
  {
  }

  /** `FoldingDescriptor`: a span and its optional placeholder. */
  datatype FoldingDescriptor = FoldingDescriptor(start: nat, end: nat, placeholder: Option<string>)

  /** The callbacks of `descriptors`: one `addDescriptorIfPossible` per callback, in order. */
  method CollectDescriptors(callbacks: seq<Foldable>) returns (result: seq<FoldingDescriptor>)
    ensures |result| == |callbacks|
    ensures forall i | 0 <= i < |result| ::
      result[i] == FoldingDescriptor(callbacks[i].tag.start, callbacks[i].tag.end, Describe(callbacks[i]))
  {
    result := [];
    var i := 0;
    while i < |callbacks|
      invariant 0 <= i <= |callbacks|
      invariant |result| == i
      invariant forall k | 0 <= k < i ::
        result[k] == FoldingDescriptor(callbacks[k].tag.start, callbacks[k].tag.end, Describe(callbacks[k]))
    {
      var f := callbacks[i];
      result := result + [FoldingDescriptor(f.tag.start, f.tag.end, Describe(f))];
      i := i + 1;
    }
  }

  /** `descriptors(text)`, with the tokenizer's events given: one descriptor per callback, in
      callback order, with the callback's span; since the tagger fills in no coordinates, no
      descriptor gets a placeholder. */
  method Descriptors(events: seq<Event>) returns (result: seq<FoldingDescriptor>)
    ensures |result| == |Run(FoldableTags, Initial, events).callbacks|
    ensures forall i | 0 <= i < |result| ::
      var tag := Run(FoldableTags, Initial, events).callbacks[i].tag;
      result[i] == FoldingDescriptor(tag.start, tag.end, None)
  {
    var callbacks := Process(events);
    result := CollectDescriptors(callbacks);
    RunCallbacksOnlyTag(FoldableTags, events);
    forall i | 0 <= i < |callbacks| ensures Describe(callbacks[i]) == None {
      OnlyTagHasNoLabel(callbacks[i]);
    }
  }
}
