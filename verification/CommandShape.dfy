/** The shape of reconcile commands (backend/internal/commandvalidation/validation.go).

    The validators walk through lists, fill maps of what they have seen and compare sizes at the end.  Proved is what
    the counting amounts to: an accepted command is an exact cover.  `Rules` stands for the checks on single values:
    identifiers, references and descriptors. */
module CommandShape {
  import opened Wrappers
  import opened Canonical

  const MAXIMUM_ITEMS := 128

  /** `content` is everything of a reference besides its two identifiers. */
  datatype Reference = Reference(template: string, revision: string, content: nat)

  /** Absent entries of a list are `None`. */
  datatype Instance = Instance(id: string, templates: seq<Option<Reference>>)

  datatype Descriptor = Descriptor(instance: string, content: nat)

  datatype DesiredState = Running | Installed | Other

  datatype Reconcile = Reconcile(
    state: DesiredState, templates: seq<string>, instances: seq<string>, revisions: seq<Option<Reference>>,
    assignments: seq<Option<Instance>>, descriptors: seq<Option<Descriptor>>)

  datatype Rules = Rules(identifier: string -> bool, reference: Reference -> bool, descriptor: Descriptor -> bool)

  // ---- Counting ------------------------------------------------------------------------------

  function Names(list: seq<string>): set<string> {
    set i | 0 <= i < |list| :: list[i]
  }

  lemma NamesGrow(list: seq<string>, name: string)
    ensures Names(list + [name]) == Names(list) + {name}
  {
    var longer := list + [name];
    assert forall i :: 0 <= i < |list| ==> longer[i] == list[i];
    assert longer[|list|] == name;
    forall n ensures n in Names(longer) <==> n in Names(list) + {name} {
      if n in Names(list) { var i :| 0 <= i < |list| && list[i] == n; assert longer[i] == n; }
    }
  }

  /** A list has as many entries as names exactly when no name repeats. */
  lemma {:induction false} CountNames(list: seq<string>)
    ensures |Names(list)| <= |list| && (|Names(list)| == |list| <==> Distinct(list))
  {
    if list != [] {
      var front, last := list[..|list| - 1], list[|list| - 1];
      assert list == front + [last];
      CountNames(front);
      NamesGrow(front, last);
      assert Distinct(list) <==> Distinct(front) && last !in Names(front) by {
        if Distinct(front) && last !in Names(front) {
          forall i, j | 0 <= i < j < |list| ensures list[i] != list[j] {
            assert list[i] == front[i];
            if j < |front| { assert list[j] == front[j]; }
          }
        }
      }
    }
  }

  lemma {:induction false} SubsetCount(a: set<string>, b: set<string>)
    requires a <= b
    ensures |a| <= |b| && (|a| == |b| <==> a == b)
  {
    if a != {} {
      var x :| x in a;
      SubsetCount(a - {x}, b - {x});
      assert a == (a - {x}) + {x} && b == (b - {x}) + {x};
    } else if b != {} {
      var y :| y in b;
    }
  }

  /** As many different names as there are places, all of them places: then every place is named once, and no place was
      listed twice to begin with. */
  lemma ExactCover(names: seq<string>, places: seq<string>)
    requires |names| == |places| && Distinct(names) && forall i :: 0 <= i < |names| ==> names[i] in places
    ensures Distinct(places) && Names(names) == Names(places)
  {
    assert Names(names) <= Names(places);
    CountNames(names);
    CountNames(places);
    SubsetCount(Names(names), Names(places));
  }

  // ---- Lists of identifiers ------------------------------------------------------------------

  ghost predicate ListFits(r: Rules, values: seq<string>, required: bool) {
    && |values| <= MAXIMUM_ITEMS && (required ==> values != [])
    && (forall i :: 0 <= i < |values| ==> r.identifier(values[i])) && Distinct(values)
  }

  method ValidIdentifierList(r: Rules, values: seq<string>, required: bool) returns (ok: bool)
    ensures ok <==> ListFits(r, values, required)
  {
    if |values| > MAXIMUM_ITEMS || (required && |values| == 0) { return false; }
    var seen: set<string> := {};
    for k := 0 to |values|
      invariant seen == Names(values[..k]) && Distinct(values[..k])
      invariant forall i :: 0 <= i < k ==> r.identifier(values[i])
    {
      if !r.identifier(values[k]) { return false; }
      AddName(values, k);
      if values[k] in seen { return false; }
      seen := seen + {values[k]};
    }
    assert values[..|values|] == values;
    ok := true;
  }

  /** What one more entry does to the names seen so far. */
  lemma AddName(values: seq<string>, k: nat)
    requires k < |values|
    ensures Names(values[..k + 1]) == Names(values[..k]) + {values[k]}
    ensures Distinct(values[..k]) && values[k] !in Names(values[..k]) ==> Distinct(values[..k + 1])
    ensures values[k] in Names(values[..k]) ==> !Distinct(values)
  {
    assert values[..k + 1] == values[..k] + [values[k]];
    NamesGrow(values[..k], values[k]);
    if values[k] in Names(values[..k]) {
      var i :| 0 <= i < k && values[..k][i] == values[k];
      assert values[i] == values[k];
    }
  }

  // ---- Descriptors ---------------------------------------------------------------------------

  function DescriptorNames(list: seq<Option<Descriptor>>): seq<string> {
    seq(|list|, i requires 0 <= i < |list| => if list[i].Some? then list[i].value.instance else "")
  }

  ghost predicate DescriptorsFit(r: Rules, instances: seq<string>, list: seq<Option<Descriptor>>) {
    && |list| == |instances| <= MAXIMUM_ITEMS
    && (forall i :: 0 <= i < |list| ==>
          list[i].Some? && r.descriptor(list[i].value) && list[i].value.instance in instances)
    && Distinct(DescriptorNames(list))
  }

  method ValidPluginDescriptors(r: Rules, instances: seq<string>, list: seq<Option<Descriptor>>) returns (ok: bool)
    ensures ok <==> DescriptorsFit(r, instances, list)
  {
    if |list| != |instances| || |list| > MAXIMUM_ITEMS { return false; }
    var allowed: set<string> := {};
    for k := 0 to |instances|
      invariant allowed == Names(instances[..k])
    {
      AddName(instances, k);
      allowed := allowed + {instances[k]};
    }
    assert instances[..|instances|] == instances;
    ghost var names := DescriptorNames(list);
    var seen: set<string> := {};
    for k := 0 to |list|
      invariant seen == Names(names[..k]) && Distinct(names[..k])
      invariant forall i :: 0 <= i < k ==>
                  list[i].Some? && r.descriptor(list[i].value) && list[i].value.instance in instances
    {
      if list[k].None? || !r.descriptor(list[k].value) { return false; }
      var instance := list[k].value.instance;
      if instance !in allowed { return false; }
      AddName(names, k);
      if instance in seen { return false; }
      seen := seen + {instance};
    }
    assert names[..|names|] == names;
    ok := true;
  }

  predicate Requires(state: DesiredState) {
    state == Running || state == Installed
  }

  ghost predicate DescriptorShape(r: Rules, c: Reconcile) {
    if Requires(c.state) then DescriptorsFit(r, c.instances, c.descriptors) else c.descriptors == []
  }

  method ValidPluginDescriptorShape(r: Rules, c: Reconcile) returns (ok: bool)
    ensures ok <==> DescriptorShape(r, c)
  {
    if c.state == Running || c.state == Installed {
      ok := ValidPluginDescriptors(r, c.instances, c.descriptors);
    } else {
      ok := |c.descriptors| == 0;
    }
  }

  ghost predicate DescribedBy(c: Reconcile, i: int, instance: string) {
    0 <= i < |c.descriptors| && c.descriptors[i].Some? && c.descriptors[i].value.instance == instance
  }

  /** Where descriptors are required, an accepted command has exactly one for every instance and no other, although the
      validator never asks whether the instances repeat. */
  lemma DescriptorsAreInBijection(r: Rules, c: Reconcile, instance: string)
    requires DescriptorShape(r, c) && Requires(c.state) && instance in c.instances
    ensures Distinct(c.instances)
    ensures exists i :: DescribedBy(c, i, instance)
    ensures forall i, j :: DescribedBy(c, i, instance) && DescribedBy(c, j, instance) ==> i == j
  {
    var names := DescriptorNames(c.descriptors);
    ExactCover(names, c.instances);
    var k :| 0 <= k < |c.instances| && c.instances[k] == instance;
    assert instance in Names(c.instances);
    var i :| 0 <= i < |names| && names[i] == instance;
    assert DescribedBy(c, i, instance);
    forall a, b | DescribedBy(c, a, instance) && DescribedBy(c, b, instance) ensures a == b {
      assert names[a] == names[b];
    }
  }

  // ---- Templates -----------------------------------------------------------------------------

  function RevisionNames(list: seq<Option<Reference>>): seq<string> {
    seq(|list|, i requires 0 <= i < |list| => if list[i].Some? then list[i].value.revision else "")
  }

  function TemplateNames(list: seq<Option<Reference>>): seq<string> {
    seq(|list|, i requires 0 <= i < |list| => if list[i].Some? then list[i].value.template else "")
  }

  function InstanceNames(list: seq<Option<Instance>>): seq<string> {
    seq(|list|, i requires 0 <= i < |list| => if list[i].Some? then list[i].value.id else "")
  }

  /** The authoritative revisions: in order, of listed templates, none twice, and every listed template among them. */
  ghost predicate RevisionsFit(r: Rules, templates: seq<string>, list: seq<Option<Reference>>) {
    && (forall i :: 0 <= i < |list| ==>
          list[i].Some? && r.reference(list[i].value) && list[i].value.template in templates)
    && Distinct(RevisionNames(list))
    && (forall t :: t in templates ==> t in TemplateNames(list))
  }

  /** What one instance is given: authoritative revisions, at most one of each template. */
  ghost predicate TemplatesFit(revisions: seq<Option<Reference>>, list: seq<Option<Reference>>) {
    && (forall i :: 0 <= i < |list| ==> list[i].Some? && list[i] in revisions)
    && Distinct(TemplateNames(list))
  }

  ghost predicate EntryFits(revisions: seq<Option<Reference>>, instances: seq<string>, entry: Option<Instance>) {
    entry.Some? && entry.value.id in instances && TemplatesFit(revisions, entry.value.templates)
  }

  ghost predicate AssignmentsFit(revisions: seq<Option<Reference>>, instances: seq<string>,
                                 list: seq<Option<Instance>>) {
    && (forall i :: 0 <= i < |list| ==> EntryFits(revisions, instances, list[i]))
    && Distinct(InstanceNames(list))
    && (forall k :: 0 <= k < |revisions| ==> revisions[k].Some? && UsedSomewhere(list, revisions[k].value.revision))
  }

  ghost predicate Uses(entry: Option<Instance>, revision: string) {
    entry.Some? && revision in Names(RevisionNames(entry.value.templates))
  }

  ghost predicate UsedSomewhere(list: seq<Option<Instance>>, revision: string) {
    exists i :: 0 <= i < |list| && Uses(list[i], revision)
  }

  ghost predicate TemplateShape(r: Rules, c: Reconcile) {
    || (c.revisions == [] && c.assignments == [])
    || (&& c.state == Running && ListFits(r, c.templates, true) && 0 < |c.revisions| <= MAXIMUM_ITEMS
        && |c.assignments| == |c.instances|
        && RevisionsFit(r, c.templates, c.revisions) && AssignmentsFit(c.revisions, c.instances, c.assignments))
  }

  /** The authoritative revisions by identifier. */
  ghost predicate Tabulates(table: map<string, Reference>, list: seq<Option<Reference>>) {
    && table.Keys == Names(RevisionNames(list))
    && forall k :: k in table ==> table[k].revision == k && Some(table[k]) in list
  }

  method CheckRevisions(r: Rules, templates: seq<string>, list: seq<Option<Reference>>)
    returns (table: Option<map<string, Reference>>)
    requires Distinct(templates)
    ensures table.Some? <==> RevisionsFit(r, templates, list)
    ensures table.Some? ==> Tabulates(table.value, list)
  {
    ghost var names, stableNames := RevisionNames(list), TemplateNames(list);
    var known: map<string, Reference> := map[];
    var stable: set<string> := {};
    for k := 0 to |list|
      invariant forall i :: 0 <= i < k ==>
                  list[i].Some? && r.reference(list[i].value) && list[i].value.template in templates
      invariant known.Keys == Names(names[..k]) && Distinct(names[..k])
      invariant forall n :: n in known ==> known[n].revision == n && Some(known[n]) in list
      invariant stable == Names(stableNames[..k])
    {
      if list[k].None? || !r.reference(list[k].value) || list[k].value.template !in templates { return None; }
      var reference := list[k].value;
      AddName(names, k);
      AddName(stableNames, k);
      if reference.revision in known { return None; }
      assert list[k] in list;
      known := known[reference.revision := reference];
      stable := stable + {reference.template};
    }
    assert names[..|names|] == names && stableNames[..|stableNames|] == stableNames;
    CoveredExactly(templates, stableNames);
    if |stable| != |templates| { return None; }
    table := Some(known);
  }

  /** Of different places all are named exactly when there are as many names. */
  lemma CoveredExactly(places: seq<string>, names: seq<string>)
    requires Distinct(places) && forall i :: 0 <= i < |names| ==> names[i] in places
    ensures |Names(names)| == |places| <==> forall p :: p in places ==> p in names
  {
    CountNames(places);
    assert Names(names) <= Names(places);
    SubsetCount(Names(names), Names(places));
    assert (forall p :: p in places ==> p in names) <==> Names(names) == Names(places) by {
      if forall p :: p in places ==> p in names {
        forall n | n in Names(places) ensures n in Names(names) {
          assert n in places && n in names;
        }
      }
      if Names(names) == Names(places) {
        forall p | p in places ensures p in names { assert p in Names(places); }
      }
    }
  }

  /** In a table a reference is looked up by its revision. */
  lemma TabulatedExactly(table: map<string, Reference>, revisions: seq<Option<Reference>>, reference: Reference)
    requires Tabulates(table, revisions) && Distinct(RevisionNames(revisions))
    ensures Some(reference) in revisions <==> reference.revision in table && table[reference.revision] == reference
  {
    var names := RevisionNames(revisions);
    if Some(reference) in revisions {
      var i :| 0 <= i < |revisions| && revisions[i] == Some(reference);
      assert names[i] == reference.revision;
      assert reference.revision in Names(names);
      var j :| 0 <= j < |revisions| && revisions[j] == Some(table[reference.revision]);
      assert names[j] == names[i];
    }
  }

  method CheckTemplates(table: map<string, Reference>, ghost revisions: seq<Option<Reference>>,
                        list: seq<Option<Reference>>)
    returns (ok: bool, used: set<string>)
    requires Tabulates(table, revisions) && Distinct(RevisionNames(revisions))
    ensures ok <==> TemplatesFit(revisions, list)
    ensures ok ==> used == Names(RevisionNames(list))
  {
    ghost var names, stableNames := RevisionNames(list), TemplateNames(list);
    ok, used := false, {};
    var seen: set<string> := {};
    for k := 0 to |list|
      invariant forall i :: 0 <= i < k ==> list[i].Some? && list[i] in revisions
      invariant seen == Names(stableNames[..k]) && Distinct(stableNames[..k])
      invariant used == Names(names[..k])
    {
      if list[k].None? { return; }
      var reference := list[k].value;
      TabulatedExactly(table, revisions, reference);
      if reference.revision !in table || table[reference.revision] != reference { return; }
      AddName(names, k);
      AddName(stableNames, k);
      if reference.template in seen { return; }
      seen, used := seen + {reference.template}, used + {reference.revision};
    }
    assert names[..|names|] == names && stableNames[..|stableNames|] == stableNames;
    ok := true;
  }

  /** The revisions used by the first entries. */
  ghost function UsedBy(list: seq<Option<Instance>>): set<string> {
    if list == [] then {}
    else
      UsedBy(list[..|list| - 1]) +
      if list[|list| - 1].Some? then Names(RevisionNames(list[|list| - 1].value.templates)) else {}
  }

  lemma {:induction false} UsedByIsSomewhere(list: seq<Option<Instance>>)
    ensures forall n :: n in UsedBy(list) <==> UsedSomewhere(list, n)
  {
    hide Names, RevisionNames;
    if list != [] {
      var front, last := list[..|list| - 1], list[|list| - 1];
      UsedByIsSomewhere(front);
      assert forall i :: 0 <= i < |front| ==> front[i] == list[i];
      forall n ensures UsedSomewhere(list, n) <==> UsedSomewhere(front, n) || Uses(last, n) {
        if UsedSomewhere(front, n) {
          var i :| 0 <= i < |front| && Uses(front[i], n);
          assert Uses(list[i], n);
        }
        if Uses(last, n) { assert Uses(list[|list| - 1], n); }
      }
    }
  }

  lemma NoNames(names: seq<string>, list: seq<Option<Instance>>)
    ensures Names(names[..0]) == {} && Distinct(names[..0]) && UsedBy(list[..0]) == {}
  {
  }

  lemma UsedByGrows(list: seq<Option<Instance>>, k: nat)
    requires k < |list| && list[k].Some?
    ensures UsedBy(list[..k + 1]) == UsedBy(list[..k]) + Names(RevisionNames(list[k].value.templates))
  {
    hide Names, RevisionNames;
    assert list[..k + 1][..k] == list[..k];
  }

  method CheckAssignments(table: map<string, Reference>, ghost revisions: seq<Option<Reference>>,
                          instances: seq<string>, list: seq<Option<Instance>>)
    returns (ok: bool)
    requires Tabulates(table, revisions) && Distinct(RevisionNames(revisions))
    requires forall i :: 0 <= i < |revisions| ==> revisions[i].Some?
    ensures ok <==> AssignmentsFit(revisions, instances, list)
  {
    hide TemplatesFit, Tabulates, UsedSomewhere, UsedBy, Names, Distinct, RevisionNames;
    ghost var names := InstanceNames(list);
    NoNames(names, list);
    var seen: set<string>, used: set<string> := {}, {};
    for k := 0 to |list|
      invariant forall i :: 0 <= i < k ==> EntryFits(revisions, instances, list[i])
      invariant seen == Names(names[..k]) && Distinct(names[..k])
      invariant used == UsedBy(list[..k])
    {
      if list[k].None? || list[k].value.id !in instances { return false; }
      assert names[k] == list[k].value.id;
      AddName(names, k);
      if list[k].value.id in seen { return false; }
      var fits, more := CheckTemplates(table, revisions, list[k].value.templates);
      if !fits { return false; }
      UsedByGrows(list, k);
      seen, used := seen + {list[k].value.id}, used + more;
    }
    assert names[..|names|] == names && list[..|list|] == list;
    AllUsedExactly(table, revisions, instances, list);
    ok := |used| == |table|;
  }

  /** Only known revisions are used, so all are used exactly when as many are used as are known. */
  lemma AllUsedExactly(table: map<string, Reference>, revisions: seq<Option<Reference>>, instances: seq<string>,
                       list: seq<Option<Instance>>)
    requires Tabulates(table, revisions) && forall i :: 0 <= i < |revisions| ==> revisions[i].Some?
    requires forall i :: 0 <= i < |list| ==> EntryFits(revisions, instances, list[i])
    ensures |UsedBy(list)| == |table| <==>
              forall k :: 0 <= k < |revisions| ==> UsedSomewhere(list, revisions[k].value.revision)
  {
    hide UsedBy, UsedSomewhere, EntryFits;
    UsedAreKnown(revisions, instances, list);
    SubsetCount(UsedBy(list), table.Keys);
    AllNamesUsed(revisions, list);
  }

  lemma UsedAreKnown(revisions: seq<Option<Reference>>, instances: seq<string>, list: seq<Option<Instance>>)
    requires forall i :: 0 <= i < |list| ==> EntryFits(revisions, instances, list[i])
    ensures UsedBy(list) <= Names(RevisionNames(revisions))
  {
    hide TemplatesFit, Names, RevisionNames;
    UsedByIsSomewhere(list);
    forall n | n in UsedBy(list) ensures n in Names(RevisionNames(revisions)) {
      var i :| 0 <= i < |list| && Uses(list[i], n);
      KnownOnly(revisions, list[i].value.templates, n);
    }
  }

  lemma AllNamesUsed(revisions: seq<Option<Reference>>, list: seq<Option<Instance>>)
    requires forall i :: 0 <= i < |revisions| ==> revisions[i].Some?
    requires UsedBy(list) <= Names(RevisionNames(revisions))
    ensures UsedBy(list) == Names(RevisionNames(revisions)) <==>
            forall k :: 0 <= k < |revisions| ==> UsedSomewhere(list, revisions[k].value.revision)
  {
    hide UsedBy, UsedSomewhere;
    UsedByIsSomewhere(list);
    var names := RevisionNames(revisions);
    assert forall k :: 0 <= k < |revisions| ==> names[k] == revisions[k].value.revision && names[k] in Names(names);
  }

  lemma KnownOnly(revisions: seq<Option<Reference>>, list: seq<Option<Reference>>, n: string)
    requires TemplatesFit(revisions, list) && n in Names(RevisionNames(list))
    ensures n in Names(RevisionNames(revisions))
  {
    var i :| 0 <= i < |list| && RevisionNames(list)[i] == n;
    var j :| 0 <= j < |revisions| && revisions[j] == list[i];
    assert RevisionNames(revisions)[j] == n;
  }

  method ValidReconcileTemplateShape(r: Rules, c: Reconcile) returns (ok: bool)
    ensures ok <==> TemplateShape(r, c)
  {
    hide AssignmentsFit;
    if |c.revisions| == 0 && |c.assignments| == 0 { return true; }
    if c.state != Running { return false; }
    var listed := ValidIdentifierList(r, c.templates, true);
    if !listed || |c.revisions| == 0 || |c.revisions| > MAXIMUM_ITEMS || |c.assignments| != |c.instances| {
      return false;
    }
    var table := CheckRevisions(r, c.templates, c.revisions);
    if table.None? { return false; }
    ok := CheckAssignments(table.value, c.revisions, c.instances, c.assignments);
  }

  ghost predicate AssignedBy(c: Reconcile, i: int, instance: string) {
    0 <= i < |c.assignments| && c.assignments[i].Some? && c.assignments[i].value.id == instance
  }

  /** An accepted command with templates is an exact cover: every instance is assigned once and no instance is listed
      twice, only authoritative revisions are assigned, every revision is assigned somewhere, and the revisions are
      those of exactly the listed templates. */
  lemma AssignmentsAreExactCover(r: Rules, c: Reconcile)
    requires TemplateShape(r, c) && c.revisions != []
    ensures Distinct(c.instances)
    ensures forall instance :: instance in c.instances <==> exists i :: AssignedBy(c, i, instance)
    ensures forall instance, i, j :: AssignedBy(c, i, instance) && AssignedBy(c, j, instance) ==> i == j
    ensures forall i, reference ::
              0 <= i < |c.assignments| && c.assignments[i].Some? && reference in c.assignments[i].value.templates ==>
              reference in c.revisions
    ensures forall k :: 0 <= k < |c.revisions| ==>
              c.revisions[k].Some? && UsedSomewhere(c.assignments, c.revisions[k].value.revision)
    ensures forall t :: t in c.templates <==> t in TemplateNames(c.revisions)
  {
    var names := InstanceNames(c.assignments);
    ExactCover(names, c.instances);
    forall instance ensures instance in c.instances <==> exists i :: AssignedBy(c, i, instance) {
      if instance in c.instances {
        assert instance in Names(c.instances);
        var i :| 0 <= i < |names| && names[i] == instance;
        assert AssignedBy(c, i, instance);
      }
    }
    forall instance, i, j | AssignedBy(c, i, instance) && AssignedBy(c, j, instance) ensures i == j {
      assert names[i] == names[j];
    }
  }
}
