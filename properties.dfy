/** The property tables and their audit-log lineage: Property, PropertyState,
    PropertyView and PropertyAuditLog as in-memory tables, the promotion of a
    state to a view, the view's save and update_state, and the import file
    name read back from the audit logs.

    Row ids are indices into their table, so index order is creation order
    (the `created` timestamp of an audit log), and `.first()` is the lowest
    index. */
module Properties {
  import opened Codes
  import opened Optional

  type OrgId = nat
  type CycleId = nat
  type FileId = nat
  type PropertyId = nat
  type StateId = nat
  type ViewId = nat
  type LogId = nat

  /** The canonical property. */
  datatype PropertyRow = PropertyRow(organization: OrgId)

  /** A property state: the fields the lineage and find_unmatched depend on. */
  datatype StateRow = StateRow(importFile: Option<FileId>, sourceType: Option<int>,
                               superOrganization: Option<OrgId>, dataState: int)

  /** A view binds a property and a state in a cycle. `importFilename` is the
      view's `_import_filename` cache. */
  datatype ViewRow = ViewRow(property: PropertyId, cycle: CycleId, state: StateId, importFilename: Option<string>)

  datatype AuditLog = AuditLog(organization: OrgId, parent1: Option<LogId>, parent2: Option<LogId>,
                               state: StateId, view: Option<ViewId>, name: Option<string>,
                               description: Option<string>, importFilename: Option<string>,
                               recordType: Option<RecordType>)

  /** The keyword arguments update_state passes on to the new audit log. */
  datatype LogFields = LogFields(name: Option<string>, description: Option<string>, importFilename: Option<string>,
                                 recordType: Option<RecordType>, parent2: Option<LogId>)

  /** What promote returns: the view, or None when several views match; a
      state without a super organization cannot get a Property (its
      organization is required), so the create fails. */
  datatype PromoteResult = Promoted(view: ViewId) | NoView | MissingOrganization

  /** A save either stores the view or breaks unique_together(property, cycle). */
  datatype SaveResult = Saved(view: ViewId) | IntegrityError

  /** import_filename: the name, or a failure when the view has no audit log
      to read it from. */
  datatype FilenameResult = Filename(name: Option<string>) | NoAuditLog

  const CREATION_DESCRIPTION: string := "Initial audit log added on creation/save."
  const UPDATE_DESCRIPTION: string := "Initial audit log added on update."

  /** Label of a DATA_STATE code in this module's own table, which stops at
      DATA_STATE_MATCHING. */
  function PropertyDataStateLabel(code: int): (name: string)
    ensures DATA_STATE_UNKNOWN <= code <= DATA_STATE_MATCHING ==> name == DataStateLabel(code)
    ensures !(DATA_STATE_UNKNOWN <= code <= DATA_STATE_MATCHING) ==> name == ""
  {
    if code == DATA_STATE_UNKNOWN then "Unknown"
    else if code == DATA_STATE_IMPORT then "Post Import"
    else if code == DATA_STATE_MAPPING then "Post Mapping"
    else if code == DATA_STATE_MATCHING then "Post Matching"
    else ""
  }

  /** Python truthiness of an optional string: None and "" are false. */
  predicate Truthy(s: Option<string>)
  {
    s.Some? && s.value != ""
  }

  // ---------------------------------------------------------------------
  // Queries over the tables

  /** PropertyView.objects.filter(cycle=cycle, state=s), in id order. */
  function ViewsWith(views: seq<ViewRow>, cycle: CycleId, s: StateId): (r: seq<ViewId>)
    ensures forall v :: v in r <==> 0 <= v < |views| && views[v].cycle == cycle && views[v].state == s
    ensures forall k :: 0 <= k < |r| ==> r[k] < |views|
    ensures forall k, l :: 0 <= k < l < |r| ==> r[k] < r[l]
  {
    if views == [] then []
    else
      var last := |views| - 1;
      ViewsWith(views[..last], cycle, s) + (if views[last].cycle == cycle && views[last].state == s then [last] else [])
  }

  /** When exactly one view has (cycle, s), the lookup returns that view
      alone, so `len(pvs) == 1` holds exactly then. */
  lemma {:induction false} OneMatchingView(views: seq<ViewRow>, cycle: CycleId, s: StateId, v: ViewId)
    requires v < |views| && views[v].cycle == cycle && views[v].state == s
    ensures (forall w :: 0 <= w < |views| && views[w].cycle == cycle && views[w].state == s ==> w == v)
      <==> ViewsWith(views, cycle, s) == [v]
  {
    var r := ViewsWith(views, cycle, s);
    if forall w :: 0 <= w < |views| && views[w].cycle == cycle && views[w].state == s ==> w == v {
      assert v in r;
      forall k | 0 <= k < |r| ensures r[k] == v {
        assert r[k] in r;
      }
      assert r[0] == r[|r| - 1];
      assert |r| == 1;
    }
  }

  /** PropertyAuditLog.objects.filter(state=s).first() */
  function FirstLogOfState(logs: seq<AuditLog>, s: StateId): (r: Option<LogId>)
    ensures r.Some? ==> r.value < |logs| && logs[r.value].state == s
  {
    if logs == [] then None
    else if logs[0].state == s then Some(0)
    else
      match FirstLogOfState(logs[1..], s)
      case None => None
      case Some(j) => Some(j + 1)
  }

  /** No earlier log has the state; when there is none, no log has it. */
  lemma {:induction false} FirstLogOfStateIsFirst(logs: seq<AuditLog>, s: StateId, j: LogId)
    requires j < |logs| && logs[j].state == s
    ensures FirstLogOfState(logs, s).Some? && FirstLogOfState(logs, s).value <= j
  {
    if logs[0].state != s {
      FirstLogOfStateIsFirst(logs[1..], s, j - 1);
    }
  }

  /** PropertyAuditLog.objects.filter(view_id=v).order_by('created').first() */
  function FirstLogOfView(logs: seq<AuditLog>, v: ViewId): (r: Option<LogId>)
    ensures r.Some? ==> r.value < |logs| && logs[r.value].view == Some(v)
  {
    if logs == [] then None
    else if logs[0].view == Some(v) then Some(0)
    else
      match FirstLogOfView(logs[1..], v)
      case None => None
      case Some(j) => Some(j + 1)
  }

  /** No earlier log belongs to the view; when there is none, no log does. */
  lemma {:induction false} FirstLogOfViewIsFirst(logs: seq<AuditLog>, v: ViewId, j: LogId)
    requires j < |logs| && logs[j].view == Some(v)
    ensures FirstLogOfView(logs, v).Some? && FirstLogOfView(logs, v).value <= j
  {
    if logs[0].view != Some(v) {
      FirstLogOfViewIsFirst(logs[1..], v, j - 1);
    }
  }

  /** find_unmatched(import_file): the states of that import file whose source
      type is not composite or raw. A state without a source type is kept: the
      negated `__in` lookup lets NULL through. */
  function FindUnmatched(states: seq<StateRow>, importFile: Option<FileId>): (r: seq<StateId>)
    ensures forall i :: i in r <==>
      (0 <= i < |states| && states[i].importFile == importFile &&
       (states[i].sourceType.None? || states[i].sourceType.value !in UNMATCHED_EXCLUDED))
    ensures forall k :: 0 <= k < |r| ==> r[k] < |states|
    ensures forall k, l :: 0 <= k < l < |r| ==> r[k] < r[l]
  {
    if states == [] then []
    else
      var last := |states| - 1;
      var st := states[last];
      var prefix := FindUnmatched(states[..last], importFile);
      prefix + (if st.importFile == importFile && (st.sourceType.None? || st.sourceType.value !in UNMATCHED_EXCLUDED) then [last] else [])
  }

  /** An unmatched state is never raw or composite: its source type is absent
      or a reported (building snapshot) one. */
  lemma UnmatchedAreReported(states: seq<StateRow>, importFile: Option<FileId>, i: StateId)
    requires i in FindUnmatched(states, importFile)
    requires states[i].sourceType.Some? ==> ASSESSED_RAW <= states[i].sourceType.value <= GREEN_BUTTON_BS
    ensures states[i].sourceType.None? || states[i].sourceType.value in ANCESTOR_SOURCES
  {
    if states[i].sourceType.Some? {
      SourceTypesPartition(states[i].sourceType.value);
    }
  }

  /** Audit logs only point back to earlier logs. */
  ghost predicate ParentsEarlier(logs: seq<AuditLog>)
  {
    forall i :: 0 <= i < |logs| ==>
      (logs[i].parent1.Some? ==> logs[i].parent1.value < i) &&
      (logs[i].parent2.Some? ==> logs[i].parent2.value < i)
  }

  /** The log a log's parent1 chain starts from. */
  function RootOf(logs: seq<AuditLog>, i: LogId): (r: LogId)
    requires i < |logs| && ParentsEarlier(logs)
    ensures r <= i && logs[r].parent1.None?
    decreases i
  {
    match logs[i].parent1
    case None => i
    case Some(p) => RootOf(logs, p)
  }

  /** Appending logs changes no existing log's root. */
  lemma {:induction false} RootOfAppend(logs: seq<AuditLog>, extra: seq<AuditLog>, i: LogId)
    requires i < |logs| && ParentsEarlier(logs) && ParentsEarlier(logs + extra)
    ensures RootOf(logs + extra, i) == RootOf(logs, i)
    decreases i
  {
    assert (logs + extra)[i] == logs[i];
    if logs[i].parent1.Some? {
      RootOfAppend(logs, extra, logs[i].parent1.value);
    }
  }

  /** Appending logs does not change which log is the first of a view. */
  lemma {:induction false} FirstLogOfViewAppend(logs: seq<AuditLog>, extra: seq<AuditLog>, v: ViewId)
    requires FirstLogOfView(logs, v).Some?
    ensures FirstLogOfView(logs + extra, v) == FirstLogOfView(logs, v)
  {
    if logs[0].view != Some(v) {
      assert (logs + extra)[1..] == logs[1..] + extra;
      FirstLogOfViewAppend(logs[1..], extra, v);
    }
  }

  /** Appending logs does not change which log is the first of a state. */
  lemma {:induction false} FirstLogOfStateAppend(logs: seq<AuditLog>, extra: seq<AuditLog>, s: StateId)
    requires FirstLogOfState(logs, s).Some?
    ensures FirstLogOfState(logs + extra, s) == FirstLogOfState(logs, s)
  {
    if logs[0].state != s {
      assert (logs + extra)[1..] == logs[1..] + extra;
      FirstLogOfStateAppend(logs[1..], extra, s);
    }
  }

  /** Well-formed tables: foreign keys in range, at most one view per
      (property, cycle), logs pointing only to earlier logs, and every log
      without parent1 an import root. */
  ghost predicate ValidTables(properties: seq<PropertyRow>, states: seq<StateRow>, views: seq<ViewRow>, logs: seq<AuditLog>)
  {
    (forall v :: 0 <= v < |views| ==> views[v].property < |properties| && views[v].state < |states|) &&
    (forall v, w :: 0 <= v < |views| && 0 <= w < |views| && v != w ==>
       views[v].property != views[w].property || views[v].cycle != views[w].cycle) &&
    ParentsEarlier(logs) &&
    (forall i :: 0 <= i < |logs| ==>
       logs[i].state < |states| &&
       (logs[i].view.Some? ==> logs[i].view.value < |views|) &&
       (logs[i].parent1.None? ==> logs[i].recordType == Some(AuditImport)))
  }

  /** Some view other than `id` already has the row's (property, cycle). */
  ghost predicate Clash(views: seq<ViewRow>, id: Option<ViewId>, row: ViewRow)
  {
    exists w :: 0 <= w < |views| && (id.None? || w != id.value)
      && views[w].property == row.property && views[w].cycle == row.cycle
  }

  /** The log update_state adds for a view moving to `newState`. */
  function UpdateLog(organization: OrgId, parent: LogId, newState: StateId, v: ViewId, fields: LogFields): AuditLog
  {
    AuditLog(organization, Some(parent), fields.parent2, newState, Some(v), fields.name,
             fields.description, fields.importFilename, fields.recordType)
  }

  /** The root log initialize_audit_logs creates for a view. */
  function RootLog(organization: OrgId, s: StateId, v: ViewId, description: string, importFilename: Option<string>): AuditLog
  {
    AuditLog(organization, None, None, s, Some(v), None, Some(description), importFilename, Some(AuditImport))
  }

  /** import_filename of view `v`: its cache when truthy, otherwise the name
      on its earliest audit log. */
  function FilenameOf(views: seq<ViewRow>, logs: seq<AuditLog>, v: ViewId): FilenameResult
    requires v < |views|
  {
    if Truthy(views[v].importFilename) then Filename(views[v].importFilename)
    else match FirstLogOfView(logs, v)
      case None => NoAuditLog
      case Some(i) => Filename(logs[i].importFilename)
  }

  /** Once import_filename has something to return, appending logs and
      rewriting the view without touching its cache keeps the answer. */
  lemma FilenameKept(views: seq<ViewRow>, views2: seq<ViewRow>, logs: seq<AuditLog>, extra: seq<AuditLog>, v: ViewId)
    requires v < |views| && v < |views2| && views2[v].importFilename == views[v].importFilename
    requires FilenameOf(views, logs, v).Filename?
    ensures FilenameOf(views2, logs + extra, v) == FilenameOf(views, logs, v)
  {
    if !Truthy(views[v].importFilename) {
      FirstLogOfViewAppend(logs, extra, v);
      var i := FirstLogOfView(logs, v).value;
      assert (logs + extra)[i] == logs[i];
    }
  }

  /** Appending a log that points back into the table keeps the tables valid. */
  lemma AppendLogValid(properties: seq<PropertyRow>, states: seq<StateRow>, views: seq<ViewRow>, logs: seq<AuditLog>,
                       newLog: AuditLog)
    requires ValidTables(properties, states, views, logs)
    requires newLog.parent1.Some? && newLog.parent1.value < |logs|
    requires newLog.parent2.Some? ==> newLog.parent2.value < |logs|
    requires newLog.state < |states| && (newLog.view.Some? ==> newLog.view.value < |views|)
    ensures ValidTables(properties, states, views, logs + [newLog])
  {
    var after := logs + [newLog];
    forall i | 0 <= i < |after|
      ensures (after[i].parent1.Some? ==> after[i].parent1.value < i) && (after[i].parent2.Some? ==> after[i].parent2.value < i)
    {
      if i < |logs| {
        assert after[i] == logs[i];
      }
    }
  }

  /** Writing a view back with its own property and cycle cannot break
      unique_together. */
  lemma NoClashOnResave(properties: seq<PropertyRow>, states: seq<StateRow>, views: seq<ViewRow>, logs: seq<AuditLog>,
                        v: ViewId, row: ViewRow)
    requires ValidTables(properties, states, views, logs) && v < |views|
    requires row.property == views[v].property && row.cycle == views[v].cycle
    ensures !Clash(views, Some(v), row)
  {
    forall w | 0 <= w < |views| && w != v
      ensures views[w].property != row.property || views[w].cycle != row.cycle
    {
    }
  }

  class LineageStore {
    var properties: seq<PropertyRow>
    var states: seq<StateRow>
    var views: seq<ViewRow>
    var logs: seq<AuditLog>

    ghost predicate Valid()
      reads this
    {
      ValidTables(properties, states, views, logs)
    }

    /** The organization of view `v`'s property. */
    function ViewOrganization(v: ViewId): OrgId
      requires Valid() && v < |views|
      reads this
    {
      properties[views[v].property].organization
    }

    /** What import_filename returns for `v` in the current state. */
    function ViewFilename(v: ViewId): FilenameResult
      requires v < |views|
      reads this
    {
      FilenameOf(views, logs, v)
    }

    constructor (properties: seq<PropertyRow>, states: seq<StateRow>, views: seq<ViewRow>, logs: seq<AuditLog>)
      requires ValidTables(properties, states, views, logs)
      ensures Valid()
      ensures this.properties == properties && this.states == states && this.views == views && this.logs == logs
    {
      this.properties, this.states, this.views, this.logs := properties, states, views, logs;
    }

    /** initialize_audit_logs: a parentless AUDIT_IMPORT log of the view's
        state, in its property's organization. */
    method InitializeAuditLogs(v: ViewId, description: string, importFilename: Option<string>) returns (id: LogId)
      requires Valid() && v < |views|
      modifies this`logs
      ensures Valid()
      ensures id == old(|logs|)
      ensures logs == old(logs) + [RootLog(ViewOrganization(v), views[v].state, v, description, importFilename)]
    {
      id := |logs|;
      logs := logs + [RootLog(ViewOrganization(v), views[v].state, v, description, importFilename)];
    }

    /** PropertyView.save: a view without an id is inserted and gets its root
        audit log; a view with an id is written back and gets none. The
        `import_filename` keyword, when given, wins over the view's cache. */
    method SaveView(id: Option<ViewId>, row: ViewRow, importFilename: Option<Option<string>>) returns (r: SaveResult)
      requires Valid()
      requires row.property < |properties| && row.state < |states|
      requires id.Some? ==> id.value < |views|
      modifies this`views, this`logs
      ensures Valid()
      ensures r.IntegrityError? <==> Clash(old(views), id, row)
      ensures r.IntegrityError? ==> views == old(views) && logs == old(logs)
      ensures r.Saved? && id.None? ==>
        r.view == old(|views|) && views == old(views) + [row] &&
        logs == old(logs) + [RootLog(properties[row.property].organization, row.state, r.view, CREATION_DESCRIPTION,
                                     if importFilename.Some? then importFilename.value else row.importFilename)]
      ensures r.Saved? && id.Some? ==> r.view == id.value && views == old(views)[id.value := row] && logs == old(logs)
    {
      var w := 0;
      while w < |views|
        invariant 0 <= w <= |views|
        invariant forall u :: 0 <= u < w && (id.None? || u != id.value) ==>
          views[u].property != row.property || views[u].cycle != row.cycle
      {
        if (id.None? || w != id.value) && views[w].property == row.property && views[w].cycle == row.cycle {
          return IntegrityError;
        }
        w := w + 1;
      }
      if id.Some? {
        views := views[id.value := row];
        return Saved(id.value);
      }
      var filename := if importFilename.Some? then importFilename.value else row.importFilename;
      views := views + [row];
      var _ := InitializeAuditLogs(|views| - 1, CREATION_DESCRIPTION, filename);
      r := Saved(|views| - 1);
    }

    /** PropertyState.promote: the view of (cycle, s), created together with a
        new Property when there is none. */
    method Promote(s: StateId, cycle: CycleId) returns (r: PromoteResult)
      requires Valid() && s < |states|
      modifies this`properties, this`views, this`logs
      ensures Valid()
      ensures var matches := ViewsWith(old(views), cycle, s);
        (|matches| == 0 && states[s].superOrganization.Some? ==>
           var org := states[s].superOrganization.value;
           r == Promoted(old(|views|)) &&
           properties == old(properties) + [PropertyRow(org)] &&
           views == old(views) + [ViewRow(old(|properties|), cycle, s, None)] &&
           logs == old(logs) + [RootLog(org, s, old(|views|), CREATION_DESCRIPTION, None)]) &&
        (|matches| == 0 && states[s].superOrganization.None? ==> r == MissingOrganization) &&
        (|matches| == 1 ==> r == Promoted(matches[0])) &&
        (|matches| > 1 ==> r == NoView) &&
        (!(|matches| == 0 && states[s].superOrganization.Some?) ==>
           properties == old(properties) && views == old(views) && logs == old(logs))
    {
      var matches := ViewsWith(views, cycle, s);
      if |matches| == 1 {
        return Promoted(matches[0]);
      } else if |matches| > 1 {
        return NoView;
      }
      if states[s].superOrganization.None? {
        return MissingOrganization;
      }
      var org := states[s].superOrganization.value;
      properties := properties + [PropertyRow(org)];
      var row := ViewRow(|properties| - 1, cycle, s, None);
      assert !Clash(views, None, row);
      var saved := SaveView(None, row, None);
      r := Promoted(saved.view);
    }

    /** PropertyView.update_state: chain a new log for `newState` off the first
        log of the view's current state (creating a root log first when that
        state has none), and rebind the view to `newState`. */
    method UpdateState(v: ViewId, newState: StateId, fields: LogFields)
      requires Valid() && v < |views| && newState < |states|
      requires fields.parent2.Some? ==> fields.parent2.value < |logs|
      modifies this`views, this`logs
      ensures Valid()
      ensures views == old(views)[v := old(views[v]).(state := newState)]
      ensures logs == UpdatedLogs(old(ViewOrganization(v)), old(views), old(logs), v, newState, fields)
    {
      ghost var logs2 := UpdatedLogs(ViewOrganization(v), views, logs, v, newState, fields);
      var parent: LogId;
      var first := FirstLogOfState(logs, views[v].state);
      if first.None? {
        parent := InitializeAuditLogs(v, UPDATE_DESCRIPTION, None);
      } else {
        parent := first.value;
      }
      var newLog := UpdateLog(ViewOrganization(v), parent, newState, v, fields);
      var row := views[v].(state := newState);
      var saved := SaveView(Some(v), row, None);
      assert saved.Saved? by {
        NoClashOnResave(properties, states, old(views), logs, v, row);
      }
      logs := logs + [newLog];
      assert logs == logs2;
      UpdateStateSpec(properties, states, old(views), old(logs), v, newState, fields, views, logs);
    }

    /** import_filename: the cached name when it is truthy, otherwise the
        name on the view's earliest audit log, which is then cached. */
    method ImportFilename(v: ViewId) returns (r: FilenameResult)
      requires Valid() && v < |views|
      modifies this`views
      ensures Valid()
      ensures r == old(ViewFilename(v))
      ensures Truthy(old(views[v].importFilename)) || r.NoAuditLog? ==> views == old(views)
      ensures !Truthy(old(views[v].importFilename)) && r.Filename? ==>
        views == old(views)[v := old(views[v]).(importFilename := r.name)]
      ensures forall w :: 0 <= w < |views| ==> ViewFilename(w) == old(ViewFilename(w))
    {
      if Truthy(views[v].importFilename) {
        return Filename(views[v].importFilename);
      }
      var first := FirstLogOfView(logs, v);
      if first.None? {
        return NoAuditLog;
      }
      var name := logs[first.value].importFilename;
      views := views[v := views[v].(importFilename := name)];
      r := Filename(name);
    }
  }

  /** The log update_state appends has the intended root: the first log of
      the old state's root, or the root log created just before it. */
  lemma LineageAfterUpdate(original: seq<AuditLog>, before: seq<AuditLog>, newLog: AuditLog,
                           first: Option<LogId>, parent: LogId)
    requires ParentsEarlier(original) && ParentsEarlier(before) && ParentsEarlier(before + [newLog])
    requires newLog.parent1 == Some(parent)
    requires first.Some? ==> first.value < |original| && before == original && parent == first.value
    requires first.None? ==> |before| == |original| + 1 && before[..|original|] == original
                             && parent == |original| && before[parent].parent1.None?
    ensures RootOf(before + [newLog], |before|) == if first.Some? then RootOf(original, first.value) else |original|
  {
    var after := before + [newLog];
    assert after[|before|] == newLog;
    assert parent < |before|;
    RootOfAppend(before, [newLog], parent);
    if first.None? {
      assert after[parent] == before[parent];
    }
  }

  /** The logs update_state leaves: a new log chained off the first log of
      the view's current state, after a root log for that state when it has
      none. */
  function UpdatedLogs(organization: OrgId, views: seq<ViewRow>, logs: seq<AuditLog>, v: ViewId, newState: StateId,
                       fields: LogFields): (r: seq<AuditLog>)
    requires v < |views|
    ensures |logs| < |r| && r[..|logs|] == logs && r[|r| - 1].state == newState
  {
    var s := views[v].state;
    match FirstLogOfState(logs, s)
    case Some(first) => logs + [UpdateLog(organization, first, newState, v, fields)]
    case None => logs + [RootLog(organization, s, v, UPDATE_DESCRIPTION, None), UpdateLog(organization, |logs|, newState, v, fields)]
  }

  /** update_state keeps the tables valid, leaves the new state with an audit
      log, chains the new log to the lineage of the old state (or to the root
      log it had to create), and changes no answer import_filename already
      had. */
  lemma UpdateStateSpec(properties: seq<PropertyRow>, states: seq<StateRow>, views: seq<ViewRow>, logs: seq<AuditLog>,
                        v: ViewId, newState: StateId, fields: LogFields, views2: seq<ViewRow>, logs2: seq<AuditLog>)
    requires ValidTables(properties, states, views, logs) && v < |views| && newState < |states|
    requires fields.parent2.Some? ==> fields.parent2.value < |logs|
    requires views2 == views[v := views[v].(state := newState)]
    requires logs2 == UpdatedLogs(properties[views[v].property].organization, views, logs, v, newState, fields)
    ensures ValidTables(properties, states, views2, logs2)
    ensures FirstLogOfState(logs2, newState).Some?
    ensures FirstLogOfState(logs, views[v].state).Some? ==>
      RootOf(logs2, |logs2| - 1) == RootOf(logs, FirstLogOfState(logs, views[v].state).value)
    ensures FirstLogOfState(logs, views[v].state).None? ==> RootOf(logs2, |logs2| - 1) == |logs|
    ensures forall w :: 0 <= w < |views| && FilenameOf(views, logs, w).Filename? ==>
      FilenameOf(views2, logs2, w) == FilenameOf(views, logs, w)
  {
    var org := properties[views[v].property].organization;
    UpdatedLogsValid(properties, states, views, logs, v, newState, fields, org, logs2);
    ViewStateValid(properties, states, views, logs2, v, newState);
    UpdatedLogsLineage(views, logs, v, newState, fields, org, logs2);
    FilenamesKept(views, views2, logs, logs2);
  }

  /** The logs update_state appends keep the log table valid. */
  lemma UpdatedLogsValid(properties: seq<PropertyRow>, states: seq<StateRow>, views: seq<ViewRow>, logs: seq<AuditLog>,
                         v: ViewId, newState: StateId, fields: LogFields, org: OrgId, logs2: seq<AuditLog>)
    requires ValidTables(properties, states, views, logs) && v < |views| && newState < |states|
    requires fields.parent2.Some? ==> fields.parent2.value < |logs|
    requires logs2 == UpdatedLogs(org, views, logs, v, newState, fields)
    ensures ValidTables(properties, states, views, logs2)
  {
    var s := views[v].state;
    match FirstLogOfState(logs, s)
    case Some(first) =>
      AppendLogValid(properties, states, views, logs, UpdateLog(org, first, newState, v, fields));
    case None =>
      var root := RootLog(org, s, v, UPDATE_DESCRIPTION, None);
      AppendRootValid(properties, states, views, logs, root);
      AppendLogValid(properties, states, views, logs + [root], UpdateLog(org, |logs|, newState, v, fields));
      assert logs2 == (logs + [root]) + [UpdateLog(org, |logs|, newState, v, fields)];
  }

  /** The log update_state appends is a log of the new state, and its root is
      that of the first log of the old state, or the root log created for it. */
  lemma UpdatedLogsLineage(views: seq<ViewRow>, logs: seq<AuditLog>, v: ViewId, newState: StateId, fields: LogFields,
                           org: OrgId, logs2: seq<AuditLog>)
    requires ParentsEarlier(logs) && v < |views|
    requires fields.parent2.Some? ==> fields.parent2.value < |logs|
    requires logs2 == UpdatedLogs(org, views, logs, v, newState, fields)
    ensures ParentsEarlier(logs2)
    ensures FirstLogOfState(logs2, newState).Some?
    ensures FirstLogOfState(logs, views[v].state).Some? ==>
      RootOf(logs2, |logs2| - 1) == RootOf(logs, FirstLogOfState(logs, views[v].state).value)
    ensures FirstLogOfState(logs, views[v].state).None? ==> RootOf(logs2, |logs2| - 1) == |logs|
  {
    var s := views[v].state;
    FirstLogOfStateIsFirst(logs2, newState, |logs2| - 1);
    match FirstLogOfState(logs, s)
    case Some(first) =>
      var newLog := UpdateLog(org, first, newState, v, fields);
      ParentsEarlierAppend(logs, newLog);
      LineageAfterUpdate(logs, logs, newLog, Some(first), first);
    case None =>
      var root := RootLog(org, s, v, UPDATE_DESCRIPTION, None);
      var newLog := UpdateLog(org, |logs|, newState, v, fields);
      ParentsEarlierAppend(logs, root);
      ParentsEarlierAppend(logs + [root], newLog);
      assert logs2 == (logs + [root]) + [newLog];
      assert (logs + [root])[..|logs|] == logs;
      LineageAfterUpdate(logs, logs + [root], newLog, None, |logs|);
  }

  /** Appending a log whose parents are already in the table keeps every log
      pointing back. */
  lemma ParentsEarlierAppend(logs: seq<AuditLog>, newLog: AuditLog)
    requires ParentsEarlier(logs)
    requires newLog.parent1.Some? ==> newLog.parent1.value < |logs|
    requires newLog.parent2.Some? ==> newLog.parent2.value < |logs|
    ensures ParentsEarlier(logs + [newLog])
  {
    var after := logs + [newLog];
    forall i | 0 <= i < |after|
      ensures (after[i].parent1.Some? ==> after[i].parent1.value < i) && (after[i].parent2.Some? ==> after[i].parent2.value < i)
    {
      if i < |logs| {
        assert after[i] == logs[i];
      }
    }
  }

  /** Appending logs and rewriting views without touching their caches
      changes no answer import_filename already had. */
  lemma FilenamesKept(views: seq<ViewRow>, views2: seq<ViewRow>, logs: seq<AuditLog>, logs2: seq<AuditLog>)
    requires |views2| == |views| && |logs| <= |logs2| && logs2[..|logs|] == logs
    requires forall w :: 0 <= w < |views| ==> views2[w].importFilename == views[w].importFilename
    ensures forall w :: 0 <= w < |views| && FilenameOf(views, logs, w).Filename? ==>
      FilenameOf(views2, logs2, w) == FilenameOf(views, logs, w)
  {
    var extra := logs2[|logs|..];
    assert logs + extra == logs2;
    forall w | 0 <= w < |views| && FilenameOf(views, logs, w).Filename?
      ensures FilenameOf(views2, logs2, w) == FilenameOf(views, logs, w)
    {
      FilenameKept(views, views2, logs, extra, w);
    }
  }


  /** Appending a parentless import log of a valid state and view keeps the
      tables valid. */
  lemma AppendRootValid(properties: seq<PropertyRow>, states: seq<StateRow>, views: seq<ViewRow>, logs: seq<AuditLog>,
                        root: AuditLog)
    requires ValidTables(properties, states, views, logs)
    requires root.parent1.None? && root.parent2.None? && root.recordType == Some(AuditImport)
    requires root.state < |states| && (root.view.Some? ==> root.view.value < |views|)
    ensures ValidTables(properties, states, views, logs + [root])
  {
    var after := logs + [root];
    forall i | 0 <= i < |after|
      ensures (after[i].parent1.Some? ==> after[i].parent1.value < i) && (after[i].parent2.Some? ==> after[i].parent2.value < i)
    {
      if i < |logs| {
        assert after[i] == logs[i];
      }
    }
  }

  /** Rebinding a view to another existing state keeps the tables valid. */
  lemma ViewStateValid(properties: seq<PropertyRow>, states: seq<StateRow>, views: seq<ViewRow>, logs: seq<AuditLog>,
                       v: ViewId, newState: StateId)
    requires ValidTables(properties, states, views, logs) && v < |views| && newState < |states|
    ensures ValidTables(properties, states, views[v := views[v].(state := newState)], logs)
  {
  }
}
