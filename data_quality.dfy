/** The data quality rule editor: rules grouped by inventory type and field
    (`ruleGroups[type][field]`), the edits that move a rule between fields,
    keep a field's rules consistent, add and delete rules, and the flattening
    of the groups into the list that is sent back to the server.

    A type's groups are an association list in key insertion order, which is
    the order a JavaScript object enumerates non-numeric keys in. */
module DataQuality {
  import opened Optional

  /** A number, a string or null, as the rule editor stores min and max. */
  datatype Value = Null | Num(x: real) | Text(s: string)

  /** A rule's label: none, a label name typed for a new rule, or a label id. */
  datatype LabelRef = NoLabel | Named(name: string) | LabelId(id: int)

  datatype Rule = Rule(enabled: bool, field: string, displayName: string, dataType: Option<string>,
                       ruleType: int, required: bool, notNull: bool, min: Value, max: Value,
                       severity: string, units: string, labelRef: LabelRef, isNew: bool, autofocus: bool)

  /** A column the editor offers. change_field reads the column's `data_type`
      attribute (here `dataTypeKey`) while create_new_rule reads `dataType`. */
  datatype Column = Column(name: string, displayName: string, dataTypeKey: Option<string>, dataType: Option<string>)

  datatype Label = Label(id: int, name: string)

  /** One rule as save_settings sends it. */
  datatype SavedRule = SavedRule(enabled: bool, field: string, dataType: Option<string>, ruleType: int,
                                 required: bool, notNull: bool, min: Value, max: Value, severity: string,
                                 units: string, labelRef: LabelRef)

  datatype InventoryType = Properties | TaxLots

  datatype Group = Group(field: string, rules: seq<Rule>)

  /** JavaScript truthiness of a min or max value. */
  predicate Truthy(v: Value)
  {
    match v
    case Null => false
    case Num(x) => x != 0.0
    case Text(s) => s != ""
  }

  /** `v || null` */
  function OrNull(v: Value): (r: Value)
    ensures Truthy(v) ==> r == v
    ensures !Truthy(v) ==> r == Null
  {
    if Truthy(v) then v else Null
  }

  // ---------------------------------------------------------------------
  // The groups of one inventory type, as an association list

  /** Where key `f` sits among the groups, if it is a key. */
  function IndexOf(gs: seq<Group>, f: string): (r: Option<nat>)
    ensures r.Some? ==> r.value < |gs| && gs[r.value].field == f
    ensures r.Some? ==> forall j :: 0 <= j < r.value ==> gs[j].field != f
    ensures r.None? ==> forall j :: 0 <= j < |gs| ==> gs[j].field != f
  {
    if gs == [] then None
    else if gs[0].field == f then Some(0)
    else
      match IndexOf(gs[1..], f)
      case None => None
      case Some(j) => Some(j + 1)
  }

  predicate HasKey(gs: seq<Group>, f: string)
  {
    IndexOf(gs, f).Some?
  }

  /** `ruleGroups[type][f]`, the empty list when `f` is not a key. */
  function Lookup(gs: seq<Group>, f: string): seq<Rule>
  {
    match IndexOf(gs, f)
    case None => []
    case Some(i) => gs[i].rules
  }

  /** `ruleGroups[type][f] = rules`: replaces the key's list in place, or adds
      the key at the end. */
  function SetGroup(gs: seq<Group>, f: string, rules: seq<Rule>): seq<Group>
  {
    match IndexOf(gs, f)
    case None => gs + [Group(f, rules)]
    case Some(i) => gs[i := Group(f, rules)]
  }

  /** `delete ruleGroups[type][f]` */
  function DeleteKey(gs: seq<Group>, f: string): seq<Group>
  {
    match IndexOf(gs, f)
    case None => gs
    case Some(i) => gs[..i] + gs[i + 1..]
  }

  /** `if (!_.has(groups, f)) groups[f] = []; groups[f].push(r)` */
  function Push(gs: seq<Group>, f: string, r: Rule): seq<Group>
  {
    SetGroup(gs, f, Lookup(gs, f) + [r])
  }

  /** `list.splice(index, 1)`: removes the element at `index`, nothing when
      `index` is past the end. */
  function RemoveAt(s: seq<Rule>, index: nat): (r: seq<Rule>)
    ensures index < |s| ==> |r| == |s| - 1 && forall k :: 0 <= k < |r| ==> r[k] == if k < index then s[k] else s[k + 1]
    ensures index >= |s| ==> r == s
  {
    if index < |s| then s[..index] + s[index + 1..] else s
  }

  /** Keys are unique, no group is empty, and every rule of a group carries
      that group's field. */
  ghost predicate ValidGroups(gs: seq<Group>)
  {
    (forall i, j :: 0 <= i < |gs| && 0 <= j < |gs| && gs[i].field == gs[j].field ==> i == j) &&
    (forall i :: 0 <= i < |gs| ==> |gs[i].rules| > 0) &&
    (forall i, k :: 0 <= i < |gs| && 0 <= k < |gs[i].rules| ==> gs[i].rules[k].field == gs[i].field)
  }

  /** Every rule of the list has field `f`. */
  ghost predicate AllOfField(rules: seq<Rule>, f: string)
  {
    forall k :: 0 <= k < |rules| ==> rules[k].field == f
  }

  lemma LookupSet(gs: seq<Group>, f: string, rules: seq<Rule>, g: string)
    ensures Lookup(SetGroup(gs, f, rules), g) == if g == f then rules else Lookup(gs, g)
  {
    var after := SetGroup(gs, f, rules);
    match IndexOf(gs, f)
    case None =>
      if g == f {
        assert IndexOf(after, g) == Some(|gs|) by {
          IndexOfLast(gs, Group(f, rules));
        }
      } else {
        SameIndexAfterAppend(gs, Group(f, rules), g);
      }
    case Some(i) =>
      SameIndexAfterReplace(gs, i, Group(f, rules), g);
  }

  lemma {:induction false} SameIndexAfterAppend(gs: seq<Group>, x: Group, g: string)
    requires IndexOf(gs, g).Some? || x.field != g
    ensures IndexOf(gs + [x], g) == IndexOf(gs, g)
  {
    if gs == [] {
    } else if gs[0].field != g {
      assert (gs + [x])[1..] == gs[1..] + [x];
      SameIndexAfterAppend(gs[1..], x, g);
    }
  }

  lemma {:induction false} IndexOfLast(gs: seq<Group>, x: Group)
    requires IndexOf(gs, x.field).None?
    ensures IndexOf(gs + [x], x.field) == Some(|gs|)
  {
    if gs != [] {
      assert (gs + [x])[1..] == gs[1..] + [x];
      IndexOfLast(gs[1..], x);
    }
  }

  lemma {:induction false} SameIndexAfterReplace(gs: seq<Group>, i: nat, x: Group, g: string)
    requires i < |gs| && x.field == gs[i].field
    ensures IndexOf(gs[i := x], g) == IndexOf(gs, g)
  {
    if i > 0 && gs[0].field != g {
      assert gs[i := x][1..] == gs[1..][i - 1 := x];
      SameIndexAfterReplace(gs[1..], i - 1, x, g);
    }
  }

  lemma LookupDelete(gs: seq<Group>, f: string, g: string)
    requires ValidGroups(gs)
    ensures Lookup(DeleteKey(gs, f), g) == if g == f then [] else Lookup(gs, g)
  {
    match IndexOf(gs, f)
    case None =>
    case Some(i) =>
      var after := gs[..i] + gs[i + 1..];
      if g == f {
        assert IndexOf(after, g).None? by {
          forall j | 0 <= j < |after| ensures after[j].field != g {
            if j < i { assert after[j] == gs[j]; } else { assert after[j] == gs[j + 1]; }
          }
        }
      } else {
        IndexAfterRemove(gs, i, g);
      }
  }

  lemma IndexAfterRemove(gs: seq<Group>, i: nat, g: string)
    requires i < |gs| && gs[i].field != g
    requires forall a, b :: 0 <= a < |gs| && 0 <= b < |gs| && gs[a].field == gs[b].field ==> a == b
    ensures Lookup(gs[..i] + gs[i + 1..], g) == Lookup(gs, g)
  {
    var after := gs[..i] + gs[i + 1..];
    match IndexOf(gs, g)
    case None =>
      forall j | 0 <= j < |after| ensures after[j].field != g {
        if j < i { assert after[j] == gs[j]; } else { assert after[j] == gs[j + 1]; }
      }
    case Some(k) =>
      var k' := if k < i then k else k - 1;
      assert after[k'] == gs[k];
      forall j | 0 <= j < k' ensures after[j].field != g {
        if j < i { assert after[j] == gs[j]; } else { assert after[j] == gs[j + 1]; }
      }
      IndexOfIs(after, g, k');
  }

  lemma {:induction false} IndexOfIs(gs: seq<Group>, g: string, k: nat)
    requires k < |gs| && gs[k].field == g
    requires forall j :: 0 <= j < k ==> gs[j].field != g
    ensures IndexOf(gs, g) == Some(k)
  {
    if k > 0 {
      IndexOfIs(gs[1..], g, k - 1);
    }
  }

  /** Setting a key to a non-empty list of rules of that field keeps the
      groups valid. */
  lemma SetGroupValid(gs: seq<Group>, f: string, rules: seq<Rule>)
    requires ValidGroups(gs) && |rules| > 0 && AllOfField(rules, f)
    ensures ValidGroups(SetGroup(gs, f, rules))
  {
    match IndexOf(gs, f)
    case None =>
      var after := gs + [Group(f, rules)];
      forall i, j | 0 <= i < |after| && 0 <= j < |after| && after[i].field == after[j].field
        ensures i == j
      {
        if i < |gs| && j < |gs| {
          assert after[i] == gs[i] && after[j] == gs[j];
        }
      }
    case Some(_) =>
  }

  lemma DeleteKeyValid(gs: seq<Group>, f: string)
    requires ValidGroups(gs)
    ensures ValidGroups(DeleteKey(gs, f))
  {
    match IndexOf(gs, f)
    case None =>
    case Some(i) =>
      var after := gs[..i] + gs[i + 1..];
      forall a | 0 <= a < |after| ensures after[a] == gs[if a < i then a else a + 1] {
      }
  }

  // ---------------------------------------------------------------------
  // loadRules: grouping

  /** The rules of field `f`, in input order. */
  function FieldRules(rules: seq<Rule>, f: string): (r: seq<Rule>)
    ensures AllOfField(r, f)
  {
    if rules == [] then []
    else
      var last := rules[|rules| - 1];
      FieldRules(rules[..|rules| - 1], f) + (if last.field == f then [last] else [])
  }

  /** The groups loadRules builds from one type's rules. */
  function GroupRules(rules: seq<Rule>): seq<Group>
  {
    if rules == [] then []
    else
      var last := rules[|rules| - 1];
      Push(GroupRules(rules[..|rules| - 1]), last.field, last)
  }

  /** Grouping keeps every rule under its own field, in input order, and
      makes valid groups; a field is a key exactly when some rule has it. */
  lemma {:induction false} GroupRulesSpec(rules: seq<Rule>)
    ensures ValidGroups(GroupRules(rules))
    ensures forall f :: Lookup(GroupRules(rules), f) == FieldRules(rules, f)
    ensures forall f :: HasKey(GroupRules(rules), f) <==> |FieldRules(rules, f)| > 0
  {
    if rules != [] {
      var prefix := rules[..|rules| - 1];
      var last := rules[|rules| - 1];
      var gs := GroupRules(prefix);
      GroupRulesSpec(prefix);
      var added := Lookup(gs, last.field) + [last];
      assert AllOfField(added, last.field);
      SetGroupValid(gs, last.field, added);
      forall f ensures Lookup(GroupRules(rules), f) == FieldRules(rules, f) {
        LookupSet(gs, last.field, added, f);
      }
      forall f ensures HasKey(GroupRules(rules), f) <==> |FieldRules(rules, f)| > 0 {
        LookupSet(gs, last.field, added, f);
        KeyIffNonEmpty(GroupRules(rules), f);
      }
    }
  }

  /** In valid groups a key is present exactly when its list is non-empty. */
  lemma KeyIffNonEmpty(gs: seq<Group>, f: string)
    requires ValidGroups(gs)
    ensures HasKey(gs, f) <==> |Lookup(gs, f)| > 0
  {
  }

  /** All the rules of the groups, key by key: the order save_settings
      visits them in. */
  function FlattenGroups(gs: seq<Group>): seq<Rule>
  {
    if gs == [] then [] else gs[0].rules + FlattenGroups(gs[1..])
  }

  lemma {:induction false} FlattenConcat(a: seq<Group>, b: seq<Group>)
    ensures FlattenGroups(a + b) == FlattenGroups(a) + FlattenGroups(b)
  {
    if a == [] {
      assert a + b == b;
    } else {
      assert (a + b)[1..] == a[1..] + b;
      FlattenConcat(a[1..], b);
    }
  }

  /** Pushing a rule adds exactly that rule to the flattened groups. */
  lemma FlattenPush(gs: seq<Group>, f: string, r: Rule)
    ensures multiset(FlattenGroups(Push(gs, f, r))) == multiset(FlattenGroups(gs)) + multiset{r}
  {
    var rules := Lookup(gs, f) + [r];
    match IndexOf(gs, f)
    case None =>
      FlattenConcat(gs, [Group(f, rules)]);
      assert FlattenGroups([Group(f, rules)]) == rules;
    case Some(i) =>
      assert gs == gs[..i] + [gs[i]] + gs[i + 1..];
      var after := gs[i := Group(f, rules)];
      assert after == gs[..i] + [Group(f, rules)] + gs[i + 1..];
      FlattenConcat(gs[..i] + [gs[i]], gs[i + 1..]);
      FlattenConcat(gs[..i], [gs[i]]);
      FlattenConcat(gs[..i] + [Group(f, rules)], gs[i + 1..]);
      FlattenConcat(gs[..i], [Group(f, rules)]);
      assert FlattenGroups([gs[i]]) == gs[i].rules;
      assert FlattenGroups([Group(f, rules)]) == rules;
  }

  /** loadRules followed by the flattening of save_settings gives back the
      same rules, regrouped by field. */
  lemma {:induction false} GroupRulesPermutation(rules: seq<Rule>)
    ensures multiset(FlattenGroups(GroupRules(rules))) == multiset(rules)
  {
    if rules != [] {
      var prefix := rules[..|rules| - 1];
      GroupRulesPermutation(prefix);
      FlattenPush(GroupRules(prefix), rules[|rules| - 1].field, rules[|rules| - 1]);
      assert rules == prefix + [rules[|rules| - 1]];
    }
  }

  // ---------------------------------------------------------------------
  // save_settings: flattening and export

  /** `_.find(labels, {name: rule.label})`: the first label of that name. */
  function FindLabel(labels: seq<Label>, ref: LabelRef): (r: Option<int>)
    ensures r.Some? ==> ref.Named? && exists k :: 0 <= k < |labels| && labels[k] == Label(r.value, ref.name)
    ensures r.None? ==> !ref.Named? || forall k :: 0 <= k < |labels| ==> labels[k].name != ref.name
  {
    if !ref.Named? || labels == [] then None
    else if labels[0].name == ref.name then Some(labels[0].id)
    else
      FindLabel(labels[1..], ref)
  }

  /** The record save_settings sends for one rule: falsy bounds become null
      and a new rule's label name becomes the matching label's id. */
  function Export(r: Rule, labels: seq<Label>): (e: SavedRule)
    ensures e.min == OrNull(r.min) && e.max == OrNull(r.max)
    ensures r.isNew && FindLabel(labels, r.labelRef).Some? ==> e.labelRef == LabelId(FindLabel(labels, r.labelRef).value)
    ensures !(r.isNew && FindLabel(labels, r.labelRef).Some?) ==> e.labelRef == r.labelRef
    ensures e.field == r.field && e.dataType == r.dataType && e.required == r.required && e.notNull == r.notNull
    ensures e.enabled == r.enabled && e.ruleType == r.ruleType && e.severity == r.severity && e.units == r.units
  {
    var ref := if r.isNew then (match FindLabel(labels, r.labelRef) case Some(id) => LabelId(id) case None => r.labelRef) else r.labelRef;
    SavedRule(r.enabled, r.field, r.dataType, r.ruleType, r.required, r.notNull, OrNull(r.min), OrNull(r.max),
              r.severity, r.units, ref)
  }

  /** save_settings' export of a list of rules, one record per rule. */
  function ExportAll(rules: seq<Rule>, labels: seq<Label>): (out: seq<SavedRule>)
    ensures |out| == |rules|
    ensures forall k :: 0 <= k < |rules| ==> out[k] == Export(rules[k], labels)
  {
    if rules == [] then [] else [Export(rules[0], labels)] + ExportAll(rules[1..], labels)
  }


  /** A group after save_settings has cleared its rules' `new` flags. */
  function ClearGroup(g: Group): (r: Group)
    ensures r.field == g.field && |r.rules| == |g.rules|
    ensures forall k :: 0 <= k < |r.rules| ==> r.rules[k] == g.rules[k].(isNew := false)
  {
    Group(g.field, seq(|g.rules|, k requires 0 <= k < |g.rules| => g.rules[k].(isNew := false)))
  }

  /** The groups after save_settings has cleared every rule's `new` flag. */
  function ClearNew(gs: seq<Group>): (r: seq<Group>)
    ensures |r| == |gs|
    ensures forall i :: 0 <= i < |r| ==> r[i] == ClearGroup(gs[i])
  {
    seq(|gs|, i requires 0 <= i < |gs| => ClearGroup(gs[i]))
  }

  /** One inventory type's part of save_settings: every rule of every group,
      key by key, exported; the `new` flags are cleared on the way. */
  method SaveGroups(gs: seq<Group>, labels: seq<Label>) returns (out: seq<SavedRule>, cleared: seq<Group>)
    ensures out == ExportAll(FlattenGroups(gs), labels)
    ensures cleared == ClearNew(gs)
  {
    out := [];
    cleared := [];
    var i := 0;
    while i < |gs|
      invariant 0 <= i <= |gs|
      invariant out == ExportAll(FlattenGroups(gs[..i]), labels)
      invariant cleared == ClearNew(gs[..i])
    {
      var part, kept := SaveGroup(gs[i], labels);
      FlattenSnoc(gs, i);
      ExportAllConcat(FlattenGroups(gs[..i]), gs[i].rules, labels);
      out := out + part;
      assert ClearNew(gs[..i + 1]) == ClearNew(gs[..i]) + [kept];
      cleared := cleared + [kept];
      i := i + 1;
    }
    assert gs[..i] == gs;
  }

  /** One group's rules, exported in order, and the group with its `new`
      flags cleared. */
  method SaveGroup(g: Group, labels: seq<Label>) returns (out: seq<SavedRule>, kept: Group)
    ensures out == ExportAll(g.rules, labels)
    ensures kept == ClearGroup(g)
  {
    var rules := g.rules;
    var cleared: seq<Rule> := [];
    out := [];
    var k := 0;
    while k < |rules|
      invariant 0 <= k <= |rules|
      invariant out == ExportAll(rules[..k], labels)
      invariant |cleared| == k && forall j :: 0 <= j < k ==> cleared[j] == rules[j].(isNew := false)
    {
      assert rules[..k + 1] == rules[..k] + [rules[k]];
      ExportAllConcat(rules[..k], [rules[k]], labels);
      out := out + [Export(rules[k], labels)];
      cleared := cleared + [rules[k].(isNew := false)];
      k := k + 1;
    }
    assert rules[..k] == rules;
    kept := Group(g.field, cleared);
  }

  lemma FlattenSnoc(gs: seq<Group>, i: nat)
    requires i < |gs|
    ensures FlattenGroups(gs[..i + 1]) == FlattenGroups(gs[..i]) + gs[i].rules
  {
    assert gs[..i + 1] == gs[..i] + [gs[i]];
    FlattenConcat(gs[..i], [gs[i]]);
    assert FlattenGroups([gs[i]]) == gs[i].rules;
  }

  /** save_settings sends one record per loaded rule: exporting the flattened
      groups of loaded rules is exporting a permutation of those rules. */
  lemma SaveAfterLoad(rules: seq<Rule>, labels: seq<Label>)
    ensures multiset(ExportAll(FlattenGroups(GroupRules(rules)), labels)) == multiset(ExportAll(rules, labels))
  {
    var flat := FlattenGroups(GroupRules(rules));
    GroupRulesPermutation(rules);
    ExportPermutation(flat, rules, labels);
  }

  lemma {:induction false} ExportPermutation(a: seq<Rule>, b: seq<Rule>, labels: seq<Label>)
    requires multiset(a) == multiset(b)
    ensures multiset(ExportAll(a, labels)) == multiset(ExportAll(b, labels))
    decreases |a|
  {
    if a != [] {
      assert a[0] in multiset(b);
      var j :| 0 <= j < |b| && b[j] == a[0];
      assert a[..0] + a[1..] == a[1..];
      RemoveOne(a, 0);
      RemoveOne(b, j);
      ExportPermutation(a[1..], b[..j] + b[j + 1..], labels);
      ExportSplit(a, 0, labels);
      ExportSplit(b, j, labels);
    }
  }

  lemma RemoveOne(b: seq<Rule>, j: nat)
    requires j < |b|
    ensures multiset(b[..j] + b[j + 1..]) == multiset(b) - multiset{b[j]}
  {
    assert b == b[..j] + [b[j]] + b[j + 1..];
  }

  /** Exporting a list with one rule taken out is exporting the list with
      that rule's record taken out. */
  lemma ExportSplit(b: seq<Rule>, j: nat, labels: seq<Label>)
    requires j < |b|
    ensures multiset(ExportAll(b, labels)) == multiset(ExportAll(b[..j] + b[j + 1..], labels)) + multiset{Export(b[j], labels)}
  {
    assert b == (b[..j] + [b[j]]) + b[j + 1..];
    ExportAllConcat(b[..j] + [b[j]], b[j + 1..], labels);
    ExportAllConcat(b[..j], [b[j]], labels);
    ExportAllConcat(b[..j], b[j + 1..], labels);
  }

  lemma {:induction false} ExportAllConcat(u: seq<Rule>, v: seq<Rule>, labels: seq<Label>)
    ensures ExportAll(u + v, labels) == ExportAll(u, labels) + ExportAll(v, labels)
  {
    if u == [] {
      assert u + v == v;
    } else {
      assert (u + v)[1..] == u[1..] + v;
      ExportAllConcat(u[1..], v, labels);
    }
  }

  // ---------------------------------------------------------------------
  // The editor

  /** `_.find(columns, {name: f})` */
  function FindColumn(columns: seq<Column>, f: string): (r: Option<Column>)
    ensures r.Some? ==> r.value in columns && r.value.name == f
    ensures r.None? ==> forall k :: 0 <= k < |columns| ==> columns[k].name != f
  {
    if columns == [] then None
    else if columns[0].name == f then Some(columns[0])
    else FindColumn(columns[1..], f)
  }

  /** Whether change_data_type keeps min and max: only a change from '' or
      'number' to null or 'number'. */
  predicate KeepsBounds(oldValue: Option<string>, dataType: Option<string>)
  {
    oldValue in {Some(""), Some("number")} && dataType in {None, Some("number")}
  }

  /** The rule create_new_rule adds for a column. */
  function NewRule(field: string, displayName: string, dataType: Option<string>): Rule
  {
    Rule(true, field, displayName, dataType, 1, false, false, Null, Null, "error", "", NoLabel, true, true)
  }

  class RuleEditor {
    var propertyGroups: seq<Group>
    var taxlotGroups: seq<Group>
    var inventoryType: InventoryType
    var columns: seq<Column>
    var labels: seq<Label>

    ghost predicate Valid()
      reads this
    {
      ValidGroups(propertyGroups) && ValidGroups(taxlotGroups)
    }

    function Groups(t: InventoryType): seq<Group>
      reads this
    {
      if t == Properties then propertyGroups else taxlotGroups
    }

    /** The groups of the type being edited. */
    function Current(): seq<Group>
      reads this
    {
      Groups(inventoryType)
    }

    method SetCurrent(gs: seq<Group>)
      modifies this`propertyGroups, this`taxlotGroups
      ensures Current() == gs && Groups(OtherType(inventoryType)) == old(Groups(OtherType(inventoryType)))
    {
      if inventoryType == Properties {
        propertyGroups := gs;
      } else {
        taxlotGroups := gs;
      }
    }

    constructor (inventoryType: InventoryType, columns: seq<Column>, labels: seq<Label>,
                 propertyRules: seq<Rule>, taxlotRules: seq<Rule>)
      ensures Valid()
      ensures this.inventoryType == inventoryType && this.columns == columns && this.labels == labels
      ensures propertyGroups == GroupRules(propertyRules) && taxlotGroups == GroupRules(taxlotRules)
    {
      this.inventoryType, this.columns, this.labels := inventoryType, columns, labels;
      var p := GroupInto(propertyRules);
      var t := GroupInto(taxlotRules);
      propertyGroups, taxlotGroups := p, t;
      GroupRulesSpec(propertyRules);
      GroupRulesSpec(taxlotRules);
    }

    /** loadRules: replace both types' groups by the grouping of the payload. */
    method LoadRules(propertyRules: seq<Rule>, taxlotRules: seq<Rule>)
      modifies this`propertyGroups, this`taxlotGroups
      ensures Valid()
      ensures propertyGroups == GroupRules(propertyRules) && taxlotGroups == GroupRules(taxlotRules)
    {
      propertyGroups := GroupInto(propertyRules);
      taxlotGroups := GroupInto(taxlotRules);
      GroupRulesSpec(propertyRules);
      GroupRulesSpec(taxlotRules);
    }

    /** save_settings: the records to send, per type, and every rule's `new`
        flag cleared. */
    method SaveSettings() returns (propertyOut: seq<SavedRule>, taxlotOut: seq<SavedRule>)
      requires Valid()
      modifies this`propertyGroups, this`taxlotGroups
      ensures Valid()
      ensures propertyOut == ExportAll(FlattenGroups(old(propertyGroups)), labels)
      ensures taxlotOut == ExportAll(FlattenGroups(old(taxlotGroups)), labels)
      ensures propertyGroups == ClearNew(old(propertyGroups)) && taxlotGroups == ClearNew(old(taxlotGroups))
    {
      var p, t;
      propertyOut, p := SaveGroups(propertyGroups, labels);
      taxlotOut, t := SaveGroups(taxlotGroups, labels);
      ClearNewValid(propertyGroups);
      ClearNewValid(taxlotGroups);
      propertyGroups, taxlotGroups := p, t;
    }

    /** change_field: `rule` (already carrying its new field, as the field
        selector wrote it) leaves the group of `oldField`, where it sat at
        `index`, for the end of the group of its new field. Fails, changing
        nothing, when no column has the new field's name. */
    method ChangeField(rule: Rule, oldField: string, index: nat) returns (ok: bool)
      requires Valid() && HasKey(Current(), oldField) && rule.field != oldField
      modifies this`propertyGroups, this`taxlotGroups
      ensures Valid()
      ensures ok <==> FindColumn(columns, rule.field).Some?
      ensures !ok ==> Current() == old(Current())
      ensures ok ==> Current() == MoveRule(old(Current()), rule, FindColumn(columns, rule.field).value, oldField, index)
      ensures Groups(OtherType(inventoryType)) == old(Groups(OtherType(inventoryType)))
    {
      var column := FindColumn(columns, rule.field);
      if column.None? {
        return false;
      }
      MoveRuleSpec(Current(), rule, column.value, oldField, index);
      SetCurrent(MoveRule(Current(), rule, column.value, oldField, index));
      ok := true;
    }
    /** change_data_type: every rule of the clicked rule's field takes its
        data type; min and max are cleared unless the change keeps them. */
    method ChangeDataType(rule: Rule, oldValue: Option<string>)
      requires Valid()
      modifies this`propertyGroups, this`taxlotGroups
      ensures Valid()
      ensures var before := old(Lookup(Current(), rule.field));
        |Lookup(Current(), rule.field)| == |before| &&
        forall k :: 0 <= k < |before| ==>
          Lookup(Current(), rule.field)[k] ==
            if KeepsBounds(oldValue, rule.dataType) then before[k].(dataType := rule.dataType)
            else before[k].(dataType := rule.dataType, min := Null, max := Null)
      ensures forall f :: f != rule.field ==> Lookup(Current(), f) == old(Lookup(Current(), f))
      ensures Groups(OtherType(inventoryType)) == old(Groups(OtherType(inventoryType)))
    {
      var group := Lookup(Current(), rule.field);
      var keep := KeepsBounds(oldValue, rule.dataType);
      var updated: seq<Rule> := [];
      var k := 0;
      while k < |group|
        invariant 0 <= k <= |group|
        invariant |updated| == k
        invariant forall j :: 0 <= j < k ==>
          updated[j] == (if keep then group[j].(dataType := rule.dataType)
                         else group[j].(dataType := rule.dataType, min := Null, max := Null))
      {
        var current := group[k];
        if !keep {
          current := current.(min := Null, max := Null);
        }
        current := current.(dataType := rule.dataType);
        updated := updated + [current];
        k := k + 1;
      }
      ReplaceGroup(rule.field, updated);
    }

    /** change_required: every rule of the clicked rule's field gets the
        negation of the clicked rule's `required`. */
    method ChangeRequired(rule: Rule)
      requires Valid()
      modifies this`propertyGroups, this`taxlotGroups
      ensures Valid()
      ensures var before := old(Lookup(Current(), rule.field));
        |Lookup(Current(), rule.field)| == |before| &&
        forall k :: 0 <= k < |before| ==> Lookup(Current(), rule.field)[k] == before[k].(required := !rule.required)
      ensures forall f :: f != rule.field ==> Lookup(Current(), f) == old(Lookup(Current(), f))
      ensures Groups(OtherType(inventoryType)) == old(Groups(OtherType(inventoryType)))
    {
      var required := !rule.required;
      var group := Lookup(Current(), rule.field);
      var updated: seq<Rule> := [];
      var k := 0;
      while k < |group|
        invariant 0 <= k <= |group|
        invariant |updated| == k && forall j :: 0 <= j < k ==> updated[j] == group[j].(required := required)
      {
        updated := updated + [group[k].(required := required)];
        k := k + 1;
      }
      ReplaceGroup(rule.field, updated);
    }

    /** change_not_null: every rule of the clicked rule's field gets the
        negation of the clicked rule's `not_null`. */
    method ChangeNotNull(rule: Rule)
      requires Valid()
      modifies this`propertyGroups, this`taxlotGroups
      ensures Valid()
      ensures var before := old(Lookup(Current(), rule.field));
        |Lookup(Current(), rule.field)| == |before| &&
        forall k :: 0 <= k < |before| ==> Lookup(Current(), rule.field)[k] == before[k].(notNull := !rule.notNull)
      ensures forall f :: f != rule.field ==> Lookup(Current(), f) == old(Lookup(Current(), f))
      ensures Groups(OtherType(inventoryType)) == old(Groups(OtherType(inventoryType)))
    {
      var notNull := !rule.notNull;
      var group := Lookup(Current(), rule.field);
      var updated: seq<Rule> := [];
      var k := 0;
      while k < |group|
        invariant 0 <= k <= |group|
        invariant |updated| == k && forall j :: 0 <= j < k ==> updated[j] == group[j].(notNull := notNull)
      {
        updated := updated + [group[k].(notNull := notNull)];
        k := k + 1;
      }
      ReplaceGroup(rule.field, updated);
    }

    /** Writes back a group edited rule by rule (same length, same field);
        a field without a group stays without one, as `_.forEach` over
        undefined does nothing. */
    method ReplaceGroup(f: string, updated: seq<Rule>)
      requires Valid()
      requires |updated| == |Lookup(Current(), f)|
      requires forall k :: 0 <= k < |updated| ==> updated[k].field == Lookup(Current(), f)[k].field
      modifies this`propertyGroups, this`taxlotGroups
      ensures Valid()
      ensures Lookup(Current(), f) == updated
      ensures forall g :: g != f ==> Lookup(Current(), g) == old(Lookup(Current(), g))
      ensures Groups(OtherType(inventoryType)) == old(Groups(OtherType(inventoryType)))
    {
      var gs := Current();
      if !HasKey(gs, f) {
        return;
      }
      var i := IndexOf(gs, f).value;
      assert AllOfField(updated, f);
      SetGroupValid(gs, f, updated);
      forall g ensures Lookup(SetGroup(gs, f, updated), g) == if g == f then updated else Lookup(gs, g) {
        LookupSet(gs, f, updated, g);
      }
      SetCurrent(SetGroup(gs, f, updated));
    }

    /** create_new_rule: a default rule for the first column, taking the data
        type of that field's existing rules; nothing without a named first
        column. */
    method CreateNewRule()
      requires Valid()
      modifies this`propertyGroups, this`taxlotGroups
      ensures Valid()
      ensures |columns| == 0 || columns[0].name == "" ==> Current() == old(Current())
      ensures |columns| > 0 && columns[0].name != "" ==>
        var field := columns[0].name;
        var before := old(Lookup(Current(), field));
        var dataType := if |before| > 0 then before[0].dataType else columns[0].dataType;
        Lookup(Current(), field) == before + [NewRule(field, columns[0].displayName, dataType)] &&
        (forall f :: f != field ==> Lookup(Current(), f) == old(Lookup(Current(), f)))
      ensures Groups(OtherType(inventoryType)) == old(Groups(OtherType(inventoryType)))
    {
      if |columns| == 0 || columns[0].name == "" {
        return;
      }
      var field := columns[0].name;
      var gs := Current();
      var dataType := columns[0].dataType;
      if HasKey(gs, field) {
        dataType := Lookup(gs, field)[0].dataType;
      }
      var added := Lookup(gs, field) + [NewRule(field, columns[0].displayName, dataType)];
      assert AllOfField(added, field);
      SetGroupValid(gs, field, added);
      forall f ensures Lookup(SetGroup(gs, field, added), f) == if f == field then added else Lookup(gs, f) {
        LookupSet(gs, field, added, f);
      }
      SetCurrent(SetGroup(gs, field, added));
    }

    /** delete_rule: drops the rule at `index` of its field's group, or the
        whole key when it was the group's only rule. */
    method DeleteRule(rule: Rule, index: nat)
      requires Valid() && HasKey(Current(), rule.field)
      modifies this`propertyGroups, this`taxlotGroups
      ensures Valid()
      ensures Current() == DropRule(old(Current()), rule.field, index)
      ensures Groups(OtherType(inventoryType)) == old(Groups(OtherType(inventoryType)))
    {
      DropRuleSpec(Current(), rule.field, index);
      SetCurrent(DropRule(Current(), rule.field, index));
    }
  }

  /** The groups after delete_rule. */
  function DropRule(gs: seq<Group>, f: string, index: nat): seq<Group>
  {
    var group := Lookup(gs, f);
    if |group| == 1 then DeleteKey(gs, f) else SetGroup(gs, f, RemoveAt(group, index))
  }

  /** delete_rule takes the rule at `index` out of its field's rules, or
      drops the field when that was its only rule; every other field keeps
      its rules and the groups stay valid. */
  lemma DropRuleSpec(gs: seq<Group>, f: string, index: nat)
    requires ValidGroups(gs) && HasKey(gs, f)
    ensures var after := DropRule(gs, f, index);
      ValidGroups(after) &&
      (|Lookup(gs, f)| == 1 ==> !HasKey(after, f)) &&
      (|Lookup(gs, f)| != 1 ==> Lookup(after, f) == RemoveAt(Lookup(gs, f), index)) &&
      (forall g :: g != f ==> Lookup(after, g) == Lookup(gs, g))
  {
    var group := Lookup(gs, f);
    var after := DropRule(gs, f, index);
    if |group| == 1 {
      DeleteKeyValid(gs, f);
      LookupDelete(gs, f, f);
      KeyIffNonEmpty(after, f);
      forall g | g != f ensures Lookup(after, g) == Lookup(gs, g) {
        LookupDelete(gs, f, g);
      }
    } else {
      KeyIffNonEmpty(gs, f);
      AllOfFieldLookup(gs, f);
      var rest := RemoveAt(group, index);
      assert AllOfField(rest, f);
      SetGroupValid(gs, f, rest);
      forall g ensures Lookup(after, g) == if g == f then rest else Lookup(gs, g) {
        LookupSet(gs, f, rest, g);
      }
    }
  }

  function OtherType(t: InventoryType): InventoryType
  {
    if t == Properties then TaxLots else Properties
  }

  /** The rule change_field pushes: the new column's data type (clearing min,
      max and units when it differs from the rule's), then, when the field
      already has rules, the first one's data type, required and not_null;
      autofocus set. */
  function Moved(rule: Rule, column: Column, target: seq<Rule>): (m: Rule)
    ensures m.field == rule.field && m.autofocus
    ensures column.dataTypeKey != rule.dataType ==> m.min == Null && m.max == Null && m.units == ""
    ensures column.dataTypeKey == rule.dataType ==> m.min == rule.min && m.max == rule.max && m.units == rule.units
    ensures |target| > 0 ==> m.dataType == target[0].dataType && m.required == target[0].required && m.notNull == target[0].notNull
    ensures |target| == 0 ==> m.dataType == column.dataTypeKey && m.required == rule.required && m.notNull == rule.notNull
  {
    var cleared := if column.dataTypeKey != rule.dataType then rule.(min := Null, max := Null, units := "") else rule;
    var typed := cleared.(dataType := column.dataTypeKey);
    var matched := if |target| > 0 then typed.(dataType := target[0].dataType, required := target[0].required, notNull := target[0].notNull) else typed;
    matched.(autofocus := true)
  }

  /** loadRules' inner loop: push every rule onto its field's group. */
  method GroupInto(rules: seq<Rule>) returns (gs: seq<Group>)
    ensures gs == GroupRules(rules)
  {
    gs := [];
    var i := 0;
    while i < |rules|
      invariant 0 <= i <= |rules|
      invariant gs == GroupRules(rules[..i])
    {
      gs := Push(gs, rules[i].field, rules[i]);
      assert rules[..i + 1][..i] == rules[..i];
      i := i + 1;
    }
    assert rules[..i] == rules;
  }

  /** The groups after change_field has moved `rule` from `oldField` to its
      own field. */
  function MoveRule(gs: seq<Group>, rule: Rule, column: Column, oldField: string, index: nat): seq<Group>
  {
    var target := Lookup(gs, rule.field);
    var pushed := SetGroup(gs, rule.field, target + [Moved(rule, column, target)]);
    var source := Lookup(pushed, oldField);
    if |source| == 1 then DeleteKey(pushed, oldField) else SetGroup(pushed, oldField, RemoveAt(source, index))
  }

  /** change_field appends the moved rule to its new field's rules, takes it
      out of the old field's rules (dropping that key when it was the last
      one), leaves every other field alone and keeps the groups valid. */
  lemma MoveRuleSpec(gs: seq<Group>, rule: Rule, column: Column, oldField: string, index: nat)
    requires ValidGroups(gs) && HasKey(gs, oldField) && rule.field != oldField
    ensures var after := MoveRule(gs, rule, column, oldField, index);
      ValidGroups(after) &&
      Lookup(after, rule.field) == Lookup(gs, rule.field) + [Moved(rule, column, Lookup(gs, rule.field))] &&
      (|Lookup(gs, oldField)| == 1 ==> !HasKey(after, oldField)) &&
      (|Lookup(gs, oldField)| != 1 ==> Lookup(after, oldField) == RemoveAt(Lookup(gs, oldField), index)) &&
      (forall f :: f != rule.field && f != oldField ==> Lookup(after, f) == Lookup(gs, f))
  {
    var target := Lookup(gs, rule.field);
    var added := target + [Moved(rule, column, target)];
    var pushed := SetGroup(gs, rule.field, added);
    AllOfFieldLookup(gs, rule.field);
    assert AllOfField(added, rule.field);
    SetGroupValid(gs, rule.field, added);
    LookupSet(gs, rule.field, added, oldField);
    var source := Lookup(pushed, oldField);
    var after := MoveRule(gs, rule, column, oldField, index);
    if |source| == 1 {
      DeleteKeyValid(pushed, oldField);
      LookupDelete(pushed, oldField, oldField);
      KeyIffNonEmpty(after, oldField);
      forall f | f != oldField ensures Lookup(after, f) == Lookup(pushed, f) {
        LookupDelete(pushed, oldField, f);
      }
    } else {
      AllOfFieldLookup(gs, oldField);
      KeyIffNonEmpty(gs, oldField);
      var rest := RemoveAt(source, index);
      assert AllOfField(rest, oldField);
      SetGroupValid(pushed, oldField, rest);
      forall f ensures Lookup(after, f) == if f == oldField then rest else Lookup(pushed, f) {
        LookupSet(pushed, oldField, rest, f);
      }
    }
    forall f | f != oldField ensures Lookup(pushed, f) == if f == rule.field then added else Lookup(gs, f) {
      LookupSet(gs, rule.field, added, f);
    }
  }

  lemma AllOfFieldLookup(gs: seq<Group>, f: string)
    requires ValidGroups(gs)
    ensures AllOfField(Lookup(gs, f), f)
  {
  }

  lemma ClearNewValid(gs: seq<Group>)
    requires ValidGroups(gs)
    ensures ValidGroups(ClearNew(gs))
  {
    var r := ClearNew(gs);
    forall i, k | 0 <= i < |r| && 0 <= k < |r[i].rules| ensures r[i].rules[k].field == r[i].field {
      assert r[i] == ClearGroup(gs[i]);
    }
  }
}
