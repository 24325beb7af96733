# SEED core logic in Dafny

This project models five pieces of the SEED Platform's logic and proves properties of them:

- **Property lineage** (`properties.dfy`, module `Properties`). The Property, PropertyState,
  PropertyView and PropertyAuditLog tables are held as sequences in the class `LineageStore`.
  A row's id is its index, so index order is creation order and `.first()` is the lowest index.
  The model covers:
  - promoting a state to a view in a cycle;
  - a view's first save, which writes its parentless import audit log;
  - `update_state`, which chains a new audit log off the first log of the view's old state;
  - `import_filename`, read from the view's earliest log and cached;
  - `find_unmatched`.
- **Organization deletion** (`tasks.dfy`, module `Tasks`). The four inventory tables, the
  organizations, their OrganizationUser rows, the users and the progress cache entry are fields
  of the class `OrgStore`. The model covers:
  - the chunk plan of `delete_organization_inventory`;
  - the four chunk deletes;
  - the chord, run as a sequential loop;
  - `_delete_organization_related_data`, with its loop over the former members;
  - `_finish_delete`;
  - the `delete_organization` chain.
- **Ancestors of a building snapshot** (`ancestors.dfy`, module `Ancestors`). `get_ancestors`
  is a recursive function over a snapshot table in which every parent has a smaller id than its
  child. That id order is also the termination measure.
- **Code tables** (`codes.dfy`, module `Codes`): source types, DATA_STATE, MERGE_STATE, and the
  source-type sets that `get_ancestors` and `find_unmatched` filter on.
- **Data quality rule editor** (`data_quality.dfy`, module `DataQuality`). The controller's
  `ruleGroups[type][field]` object becomes an association list of (field, rules) per inventory
  type, in key insertion order. That is the order in which JavaScript enumerates an object's
  keys as long as no field name is an array index such as `"2016"`. The class `RuleEditor` has one method per
  controller operation: `loadRules`, `save_settings`, `change_field`, `change_data_type`,
  `change_required`, `change_not_null`, `create_new_rule` and `delete_rule`.
- **Populated-columns dialog** (`populated_columns.dfy`, module `PopulatedColumns`). The class
  `PopulatedColumnsModal` models:
  - the reset of every column on opening;
  - `notEmpty`;
  - the record scan that strikes filled columns off the work lists;
  - the split into visible and hidden columns, and the list that is saved.

`option.dfy` holds the `Option` type the modules share.

## Model

| member | source | states |
|---|---|---|
| Codes.SourceTypesPartition | seed/models/models.py:18-24 | Each of the seven source types is either raw or walked through by get_ancestors, never both. The walked types are the reported ones plus the composite type. find_unmatched excludes exactly the raw types and the composite type. |
| Codes.DataStateLabel | seed/models/models.py:38-49 | The DATA_STATE choices name exactly the codes 0 to 4; any other code has no label. |
| Codes.MergeStateLabel | seed/models/models.py:52-63 | The MERGE_STATE choices name exactly the codes 0 to 4; any other code has no label. |
| Ancestors.SelectBySource | seed/models/models.py:102-103 | A source-type filter of a parent list is no longer than the list and stays within the table. |
| Ancestors.SelectMembers | seed/models/models.py:102-103 | The filter keeps a parent exactly when the parent is in the list and its source type is accepted. |
| Ancestors.SelectNested | seed/models/models.py:102-103 | Filtering by {2,3,4,6} and then by {2,3,6} is the same as filtering by {2,3,6} directly. |
| Ancestors.GetAncestors | seed/models/models.py:101-106 | Every ancestor it returns was created before the building: its id is smaller. Its members are given by GetAncestorsIsReachable. |
| Ancestors.AncestorsOfEach | seed/models/models.py:104-105 | The loop over the traversed parents only collects snapshots created before the building. Its members are given by AncestorsOfEachMembership. |
| Ancestors.GetAncestorsIsReachable | seed/models/models.py:101-106 | x is in get_ancestors(b) exactly when x is reached from b by climbing through parents of types {2,3,4,6} and x itself has type 2, 3 or 6. |
| Ancestors.ReachesReported | seed/models/models.py:101-106 | Whatever the climb reaches was created before the start and has a reported source type. |
| Ancestors.AncestorsReported | seed/models/models.py:101-106 | Every element of the result was created before the building and has source type 2, 3 or 6. |
| Ancestors.AncestorsOfEachMembership | seed/models/models.py:104-105 | The loop over the parents collects x exactly when x is among the ancestors of some parent it recurses into. |
| Ancestors.DirectParentsFirst | seed/models/models.py:101-105 | The direct parents of type 2, 3 or 6 open the result, in parent order, before anything found by recursion. |
| Ancestors.CompositeParentClimbed | seed/models/models.py:102-105 | A composite (4) parent is not reported, but every ancestor of it is. |
| Ancestors.OnlyRawParents | seed/models/models.py:102 | A snapshot whose parents are all raw (0, 1, 5) has no ancestors, whatever lies beyond those parents. |
| Ancestors.NothingTraversed | seed/models/models.py:102 | Raw parents are not recursed into: nothing of them survives the traversal filter. |
| Ancestors.NoParents | seed/models/models.py:101-106 | A snapshot without parents has no ancestors. |
| Ancestors.ReportedRootParent | seed/models/models.py:101-106 | A single reported parent that has no parents of its own is the whole result. |
| Ancestors.TwoReportedParents | seed/models/models.py:101-106 | With two reported parents, the result is both parents, then the first parent's ancestors, then the second's. |
| Ancestors.DiamondReportsTwice | seed/models/models.py:103-105 | Example: in a diamond the common ancestor is reported once per path (`[1, 2, 0, 0]`): the result is a list, not a set. |
| Properties.PropertyDataStateLabel | seed/models/properties.py:28-37 | The module's own DATA_STATE table agrees with the shared table on codes 0 to 3 and has no label for any other code, including 4. |
| Properties.ViewsWith | seed/models/properties.py:149 | The lookup returns exactly the views whose cycle and state match, each once and in ascending id order. It does not look at the property. |
| Properties.OneMatchingView | seed/models/properties.py:149-169 | `len(pvs) == 1` holds exactly when a single view has the cycle and state, and `pvs[0]` is then that view. |
| Properties.FirstLogOfState | seed/models/properties.py:348-350 | A log it returns has the requested state. |
| Properties.FirstLogOfStateIsFirst | seed/models/properties.py:348-350 | Whenever some log has the state, the lookup finds one, and no later than that log. |
| Properties.FirstLogOfView | seed/models/properties.py:384-385 | A log it returns belongs to the requested view. |
| Properties.FirstLogOfViewIsFirst | seed/models/properties.py:384-385 | Whenever some log belongs to the view, the lookup finds the earliest one. |
| Properties.FirstLogOfViewAppend | seed/models/properties.py:384-385 | Later logs never change which log is a view's earliest. |
| Properties.FirstLogOfStateAppend | seed/models/properties.py:348-350 | Later logs never change which log is the first of a state. |
| Properties.FindUnmatched | seed/models/properties.py:299-316 | Returns exactly the states of the import file whose source type is not 4, 0, 1 or 5, in id order and without repeats. A state with no source type is kept. |
| Properties.UnmatchedAreReported | seed/models/properties.py:309-315 | An unmatched state with a known source type has type 2, 3 or 6. |
| Properties.RootOf | seed/models/properties.py:390-395 | Following parent1 from a log ends at an earlier or equal log that has no parent1. |
| Properties.RootOfAppend | seed/models/properties.py:390-395 | Appending logs changes no existing log's root. |
| Properties.NoClashOnResave | seed/models/properties.py:331-332 | Writing a view back with its own property and cycle cannot break unique_together(property, cycle). |
| Properties.LineageStore.constructor | seed/models/properties.py:319-336 | Holds the given tables, which must be valid: foreign keys in range, at most one view per (property, cycle), every parent an earlier log, and every parentless log an AUDIT_IMPORT root. |
| Properties.LineageStore.InitializeAuditLogs | seed/models/properties.py:338-345 | Appends one parentless AUDIT_IMPORT log that carries the view's organization, state and view, and returns its id. |
| Properties.LineageStore.SaveView | seed/models/properties.py:368-378 | Fails with an integrity error, changing nothing, exactly when another view holds the same (property, cycle). A new view is appended with one root log, whose file name is the keyword if given and otherwise the view's own. A re-save writes the row and adds no log. |
| Properties.LineageStore.Promote | seed/models/properties.py:135-175 | With no view of (cycle, state), creates one Property of the state's organization, one view of it and its root log, and returns that view. With one view, returns it. With more than one, returns none. The last two create nothing. |
| Properties.LineageStore.UpdateState | seed/models/properties.py:347-366 | Rebinds the view to the new state and leaves the logs as UpdatedLogs describes. The tables stay valid. |
| Properties.UpdatedLogs | seed/models/properties.py:347-366 | Only appends to the log table, and its last log has the new state. |
| Properties.UpdateStateSpec | seed/models/properties.py:347-366 | After update_state, the tables are valid and the new state has a log. The new log's root is the old state's first log's root, or the root log created when the old state had none. Every file name import_filename could already return is unchanged. |
| Properties.UpdatedLogsValid | seed/models/properties.py:351-366 | The appended logs keep the log table valid. |
| Properties.UpdatedLogsLineage | seed/models/properties.py:348-361 | The appended log chains into the old state's lineage, or to the fresh root log. |
| Properties.LineageAfterUpdate | seed/models/properties.py:351-361 | The root of the new log is the old state's root, or the log created just before it. |
| Properties.LineageStore.ImportFilename | seed/models/properties.py:380-387 | A truthy cached name is returned as it is. Otherwise it returns the earliest log's name and caches it, or fails when the view has no log. No view's answer changes. |
| Properties.FilenameKept | seed/models/properties.py:380-387 | Once import_filename has an answer (FilenameOf) for a view, appending logs leaves that answer unchanged, and so does rewriting views without touching their caches. |
| Properties.FilenamesKept | seed/models/properties.py:380-387 | The same holds for every view at once. |
| Tasks.IdsOfMembers | seed/tasks.py:140-151 | The collected ids are exactly those of the organization's rows. |
| Tasks.WithoutMembers | seed/tasks.py:194-220 | A chunk delete keeps exactly the rows whose id is not in the chunk or which are out of its scope. |
| Tasks.OtherOrgsMembers | seed/tasks.py:140-151 | The rows of other organizations are exactly those with another organization. |
| Tasks.WithoutUnique | seed/tasks.py:194-220 | Deleting rows keeps primary keys unique. |
| Tasks.WithoutOwnIdsInOrg | seed/tasks.py:197 | Deleting the organization's ids within the organization leaves exactly the other organizations' rows. |
| Tasks.WithoutOwnIdsAnyOrg | seed/tasks.py:205 | With unique ids, deleting the organization's ids by id alone also leaves exactly the other organizations' rows. |
| Tasks.Batch | seed/tasks.py:166-189 | `batch(ids, chunk_size)`: the batches concatenate back to the id list, and there are ceil(n/size) of them. |
| Tasks.BatchSpec | seed/tasks.py:166-189 | No batch is empty. All have size items except possibly the last. |
| Tasks.Plan | seed/tasks.py:164-189 | The chord holds one unit per batch of each of the four id lists. |
| Tasks.PlanCoversIds | seed/tasks.py:164-189 | The units of Plan of each kind delete exactly that kind's id list, in order. |
| Tasks.PlanShape | seed/tasks.py:164-189 | Every unit of Plan has the same step. |
| Tasks.ChunksCover | seed/tasks.py:166-189 | Chunks of a size cover a list, and cover it exactly when its length is a multiple of the size. |
| Tasks.CountsCover | seed/tasks.py:164-189 | The four lists' chunks cover their total, and cover it exactly when every length is a multiple of the chunk size. |
| Tasks.IncrementsOfEqualSteps | seed/tasks.py:195-220 | Units of equal step add `count * step * 100` to the progress. |
| Tasks.UnitsProgress | seed/tasks.py:163 | Units of step size/total add at least 100 exactly when their chunks cover at least the total, and exactly 100 exactly when they cover exactly the total. |
| Tasks.PlanIncrements | seed/tasks.py:153-220 | The chunk units add at least 100 to the progress, and exactly 100 when every list length is a multiple of chunk_size. |
| Tasks.AppendUnits | seed/tasks.py:166-171 | The batch loop appends one unit per batch, all with the same step. |
| Tasks.PlanDeletesOrg | seed/tasks.py:140-191 | Running the whole plan leaves, in each of the four tables, exactly the rows of other organizations. |
| Tasks.ChordStep | seed/tasks.py:190-191 | Running one more unit extends the ids deleted from each table by that unit's ids. |
| Tasks.NoOwnRows | seed/tasks.py:155-161 | A table without rows of the organization is its own rows of other organizations. |
| Tasks.OrgStore.DeletePropertyChunk | seed/tasks.py:194-198 | Deletes the chunk's ids within the organization and adds increment*100 to the progress. |
| Tasks.OrgStore.DeletePropertyStateChunk | seed/tasks.py:201-206 | Deletes the chunk's ids in any organization and adds increment*100 to the progress. |
| Tasks.OrgStore.DeleteTaxLotChunk | seed/tasks.py:209-213 | Deletes the chunk's ids within the organization and adds increment*100 to the progress. |
| Tasks.OrgStore.DeleteTaxLotStateChunk | seed/tasks.py:216-220 | Deletes the chunk's ids within the organization and adds increment*100 to the progress. |
| Tasks.OrgStore.RunUnit | seed/tasks.py:194-220 | Runs the chunk task of the unit's kind and touches no other table. |
| Tasks.OrgStore.RunChord | seed/tasks.py:190-191 | After all units have run, each table has lost the ids of its kind's units, and the progress has grown by the units' increments. |
| Tasks.OrgStore.SetCache | seed/tasks.py:81 | `set_cache` writes the given status and progress into the cache entry. |
| Tasks.OrgStore.FinishDelete | seed/tasks.py:115-125 | Progress 100, status success. |
| Tasks.OrgStore.PlanInventory | seed/tasks.py:140-189 | Returns the organization's row count over the four tables and its chunk plan. |
| Tasks.OrgStore.DeleteOrganizationInventory | seed/tasks.py:128-191 | Schedules the organization's plan. With no rows it schedules nothing. Afterwards each of the four tables holds exactly its rows of other organizations, and the progress is 100 with status success. |
| Tasks.OrgStore.DeleteOrganizationRelatedData | seed/tasks.py:90-112 | Succeeds exactly when the organization exists; otherwise nothing changes. On success, the organization and its OrganizationUser rows are gone, exactly the former members left without any membership are deleted, and the progress is 100 with status success. |
| Tasks.OrgStore.DeleteOrganization | seed/tasks.py:73-87 | The four inventory tables keep only other organizations' rows. The organization, its memberships and its abandoned users are deleted exactly when the organization exists; otherwise organizations, memberships and users are unchanged. The progress ends at 100 with status success. |
| Tasks.RemoveOrgMembers | seed/tasks.py:98 | Deleting the organization removes exactly that organization. |
| Tasks.OtherOrgMembershipsMembers | seed/tasks.py:98 | The delete removes exactly the organization's OrganizationUser rows. |
| Tasks.MembersOfMembers | seed/tasks.py:93-96 | The users gathered are exactly the organization's members. |
| Tasks.RemoveUserMembers | seed/tasks.py:105 | user.delete() removes exactly that user. |
| Tasks.DropAbandonedMembers | seed/tasks.py:102-105 | DropAbandoned, the user table after the loop, deletes exactly the gathered users that have no membership left. |
| Tasks.UsersLeft | seed/tasks.py:93-105 | A user survives exactly when it was not a member of this organization only. |
| Tasks.AbandonedIff | seed/tasks.py:102-105 | An abandoned user is a member of the organization with no membership in any other organization. |
| DataQuality.IndexOf | seed/static/seed/js/controllers/data_quality_admin_controller.js:65 | `_.has`: finds the one position whose key is the field, or reports that no key is. |
| DataQuality.RemoveAt | seed/static/seed/js/controllers/data_quality_admin_controller.js:216 | `splice(index, 1)` removes the element at the index and shifts the rest. An index past the end removes nothing. |
| DataQuality.FieldRules | seed/static/seed/js/controllers/data_quality_admin_controller.js:63-81 | The rules of a field all carry that field. |
| DataQuality.GroupRulesSpec | seed/static/seed/js/controllers/data_quality_admin_controller.js:58-82 | After loading (GroupRules), the groups are valid: keys are unique, no group is empty, and every rule carries its group's field. Each field's group holds that field's rules in input order, and a key exists exactly when the field has rules. |
| DataQuality.GroupRulesPermutation | seed/static/seed/js/controllers/data_quality_admin_controller.js:58-82 | Flattening the loaded groups gives back the loaded rules, up to order. |
| DataQuality.GroupInto | seed/static/seed/js/controllers/data_quality_admin_controller.js:63-81 | The push loop builds exactly the grouping of the rules. |
| DataQuality.FindLabel | seed/static/seed/js/controllers/data_quality_admin_controller.js:142-144 | A label id it finds belongs to a label with the rule's label name. None is found when no label has that name, or when the rule carries no name. |
| DataQuality.Export | seed/static/seed/js/controllers/data_quality_admin_controller.js:123-175 | The record sent for a rule copies enabled, field, data_type, rule_type, required, not_null, severity and units. A bound is sent as it is when truthy and as null when falsy (0, '', null), which is `v \|\| null` (OrNull). A new rule's label name becomes the id of the label of that name, when one exists. |
| DataQuality.ExportAll | seed/static/seed/js/controllers/data_quality_admin_controller.js:120-177 | One record per rule, the k-th being the export of the k-th rule. |
| DataQuality.ClearNewValid | seed/static/seed/js/controllers/data_quality_admin_controller.js:140-141 | Clearing the flags of every rule of every group (ClearNew, ClearGroup) keeps the groups valid. |
| DataQuality.SaveGroup | seed/static/seed/js/controllers/data_quality_admin_controller.js:121-177 | Exports one group's rules in order and clears their `new` flags. |
| DataQuality.SaveGroups | seed/static/seed/js/controllers/data_quality_admin_controller.js:120-177 | Exports every rule of every group, key by key, and returns the groups with every `new` flag cleared (ClearNew) and everything else kept. |
| DataQuality.SaveAfterLoad | seed/static/seed/js/controllers/data_quality_admin_controller.js:114-179 | Saving right after loading sends one record per loaded rule, up to order. |
| DataQuality.ExportPermutation | seed/static/seed/js/controllers/data_quality_admin_controller.js:120-177 | Reordering the rules only reorders the records sent. |
| DataQuality.FindColumn | seed/static/seed/js/controllers/data_quality_admin_controller.js:191 | A column it finds is one of the columns and has the name. None is found only when no column has it. |
| DataQuality.Moved | seed/static/seed/js/controllers/data_quality_admin_controller.js:190-217 | The moved rule takes the new column's data type. min, max and units are cleared exactly when that type differs from the rule's. When the target field already has rules, the rule copies data_type, required and not_null from the first of them. |
| DataQuality.MoveRuleSpec | seed/static/seed/js/controllers/data_quality_admin_controller.js:204-216 | In MoveRule, the moved rule goes to the end of its new field's rules. It is removed from the old field's rules, and the old key is deleted when the rule was its only rule. Other fields are unchanged, and the groups stay valid. |
| DataQuality.DropRuleSpec | seed/static/seed/js/controllers/data_quality_admin_controller.js:283-286 | delete_rule (DropRule) removes the rule at the index, or the whole key when it was the field's only rule. Other fields are unchanged, and the groups stay valid. |
| DataQuality.RuleEditor.constructor | seed/static/seed/js/controllers/data_quality_admin_controller.js:55-83 | Starts from the grouping of the loaded rules of both types. |
| DataQuality.RuleEditor.LoadRules | seed/static/seed/js/controllers/data_quality_admin_controller.js:58-82 | Both types' groups become the grouping of the payload's rules, and the groups are valid. |
| DataQuality.RuleEditor.SaveSettings | seed/static/seed/js/controllers/data_quality_admin_controller.js:114-186 | Returns, per type, the export of every held rule. It clears every `new` flag and keeps the groups valid. |
| DataQuality.RuleEditor.ChangeField | seed/static/seed/js/controllers/data_quality_admin_controller.js:189-218 | When a column has the new field's name, the current type's groups become MoveRule's result. Otherwise nothing changes. The other type is untouched. |
| DataQuality.RuleEditor.ReplaceGroup | seed/static/seed/js/controllers/data_quality_admin_controller.js:223-230 | The `_.forEach` write-back over `ruleGroups[type][field]`: the field's rules become the updated ones, and every other field and the other type are unchanged. The groups stay valid. |
| DataQuality.RuleEditor.ChangeDataType | seed/static/seed/js/controllers/data_quality_admin_controller.js:221-231 | Every rule of the field takes the clicked rule's data type. min and max are cleared unless the change is from '' or number to null or number. Other fields and the other type are unchanged. |
| DataQuality.RuleEditor.ChangeRequired | seed/static/seed/js/controllers/data_quality_admin_controller.js:234-239 | Every rule of the field gets the negation of the clicked rule's `required`. Other fields and the other type are unchanged. |
| DataQuality.RuleEditor.ChangeNotNull | seed/static/seed/js/controllers/data_quality_admin_controller.js:242-247 | Every rule of the field gets the negation of the clicked rule's `not_null`. Other fields and the other type are unchanged. |
| DataQuality.RuleEditor.CreateNewRule | seed/static/seed/js/controllers/data_quality_admin_controller.js:250-280 | Does nothing without a named first column. Otherwise it appends one default rule for that column, taking the data type of the field's first existing rule when there is one. Other fields are unchanged. |
| DataQuality.RuleEditor.DeleteRule | seed/static/seed/js/controllers/data_quality_admin_controller.js:283-286 | The current type's groups become DropRule's result. The other type is untouched. |
| PopulatedColumns.Filter | seed/static/seed/js/controllers/show_populated_columns_modal_controller.js:50-53 | `_.filter`/`_.reject` never lengthen a list. |
| PopulatedColumns.FilterMembers | seed/static/seed/js/controllers/show_populated_columns_modal_controller.js:50-53 | A column is kept exactly when it is in the list and passes the test. |
| PopulatedColumns.FilterOrder | seed/static/seed/js/controllers/show_populated_columns_modal_controller.js:50-53 | The kept columns stay in list order. |
| PopulatedColumns.FilterSplit | seed/static/seed/js/controllers/show_populated_columns_modal_controller.js:50-53 | Two complementary tests split a list into two parts that together hold every column exactly once. |
| PopulatedColumns.PopulatedColumnsModal.constructor | seed/static/seed/js/controllers/show_populated_columns_modal_controller.js:17-24 | Every column is unpinned and visible, and nothing else about it changes. |
| PopulatedColumns.StrikeFilled | seed/static/seed/js/controllers/show_populated_columns_modal_controller.js:58-63 | The forEachRight/splice loop over a record leaves exactly the columns the record does not fill, in order. |
| PopulatedColumns.StrikeRows | seed/static/seed/js/controllers/show_populated_columns_modal_controller.js:65-73 | Striking through the related records leaves exactly the columns none of them fills. |
| PopulatedColumns.OneRow | seed/static/seed/js/controllers/show_populated_columns_modal_controller.js:26-28 | A single record populates a column exactly when NotEmpty (neither null, undefined nor '') holds for `record[name]`, which is undefined when the key is missing. |
| PopulatedColumns.RecordProgress | seed/static/seed/js/controllers/show_populated_columns_modal_controller.js:75 | The per-record progress stays in [50, 100). |
| PopulatedColumns.PopulatedColumnsModal.ScanRecords | seed/static/seed/js/controllers/show_populated_columns_modal_controller.js:50-76 | `cols` ends as the plain columns no record fills, and `relatedCols` as the related columns no related record fills. The progress is that of the last record. |
| PopulatedColumns.VisibleIffPopulated | seed/static/seed/js/controllers/show_populated_columns_modal_controller.js:50-84 | Whatever the columns, a column is in VisibleColumns exactly when some record has a non-empty value for it (some related record, for a related column). |
| PopulatedColumns.PairFoundIsColumn | seed/static/seed/js/controllers/show_populated_columns_modal_controller.js:81-87 | With unique pairs, finding a column's (dbName, table) in a sub-list is the same as finding the column itself. |
| PopulatedColumns.VisibleHiddenDisjoint | seed/static/seed/js/controllers/show_populated_columns_modal_controller.js:79-88 | No column is both visible and hidden. |
| PopulatedColumns.SavedIsPermutation | seed/static/seed/js/controllers/show_populated_columns_modal_controller.js:79-96 | With unique pairs, visible followed by hidden holds every column exactly once. |
| PopulatedColumns.SavedShape | seed/static/seed/js/controllers/show_populated_columns_modal_controller.js:86-96 | The saved list (Saved) is VisibleColumns as they were, followed by one invisible entry per column of HiddenColumns. |
| PopulatedColumns.FlaggedColumns | seed/static/seed/js/controllers/show_populated_columns_modal_controller.js:86-92 | After the scan (Flagged), a shown column is unchanged. Any other column changes only in being marked invisible. |
| PopulatedColumns.HideEach | seed/static/seed/js/controllers/show_populated_columns_modal_controller.js:90-92 | The loop marks every hidden column invisible. |
| PopulatedColumns.MarkHidden | seed/static/seed/js/controllers/show_populated_columns_modal_controller.js:90-92 | The same write, seen through the full column list. |
| PopulatedColumns.PopulatedColumnsModal.Start | seed/static/seed/js/controllers/show_populated_columns_modal_controller.js:30-101 | Saves visible followed by hidden under `grid.<type>` and marks the hidden columns invisible. Ends with progress 100, state done, and a status that reports the number of visible columns. |

## Left out

- The Django ORM is left out: tables are sequences, and a row's id is its index.
- Transactions are left out. Celery's chain and chord scheduling, the chord's interval and the `lock_and_track` decorator are left out: the chord's units run one after another, followed by `_finish_delete`. The race between the chord's callback and the rest of the chain is therefore not modelled.
- `set_cache`/`increment_cache` are the `progress` and `status` fields of `OrgStore`. The cache key is not modelled.
- Tasks.OrgStore.DeleteOrganization: states only the final progress and status. The intermediate values (0 at the start, then each chunk's increment, which can pass 100 before `_finish_delete` runs) are stated on the chunk members and PlanIncrements instead.
- Tasks.OrgStore.DeleteOrganization: as in the source, the chain passes no chunk size to the inventory task, so the default of 100 is used whatever `chunk_size` is given.
- The `batch` helper of `seed.lib.mcm.utils` is not part of this model. `Tasks.Batch` is defined here as consecutive slices of `size`, the last one shorter, and BatchSpec is stated for that definition.
- The PropertyState unit deletes by id alone, and the organization filter in `delete_organization_inventory` is applied to PropertyState too. PropertyState has no organization field in seed/models/properties.py, so the model follows seed/tasks.py and gives every inventory row an organization.
- Deleting an organization cascades to its OrganizationUser rows only. Other cascaded rows are not modelled.
- `sys.setrecursionlimit` and the invitation email (`invite_to_seed`) are left out.
- Floating-point progress is modelled with `real`, without rounding.
- `AUDIT_IMPORT` is defined in a module that is not part of this model, so the record type is a datatype constructor, not a number.
- The PropertyView instance and its row are one value. The `_import_filename` cache is a field of the view row.
- `assign_cycle_and_tax_lot` (body commented out), `clean`, `to_dict`, `__unicode__`, the pure schema classes, and the end-to-end browser test orgPages.spec.js have no logic to model.
- Valid does not include "every view's current state has an audit log". SaveView (first save), Promote and UpdateState each give the view they touch such a log. A re-save that rebinds a view to another state adds no log, as in the source, so the property is not an invariant of every operation.
- Properties.LineageStore.Promote: when the state has no super organization, the source's Property create fails at the database. The model returns `MissingOrganization` and changes nothing.
- Properties.LineageStore.ImportFilename: a view with no audit log makes the source fail on `None.import_filename`. The model returns `NoAuditLog`.
- Moment.js date conversion of date-typed bounds, the data quality service calls, the spinner and `$emit` are left out. So are `restore_defaults` and `reset_all_rules`, which only reload rules through `loadRules`.
- DataQuality.RuleEditor.ChangeField: the field selector's `ng-model` has already written the new field into the rule. The model receives that rule and requires its field to differ from the old field, because the selector fires only on a change. The case where no column has the new name is an error in the source (`.data_type` of undefined); the model changes nothing.
- DataQuality.GroupRules: keeps every field in insertion order. A JavaScript object enumerates integer-like keys (such as `"2016"`) first, in ascending numeric order, so when a field name is an array index, save_settings sends that field's rules before those of fields inserted earlier. GroupRulesSpec, SaveGroups and SaveSettings state the order for non-numeric field names only; the records sent are the same up to order either way (SaveAfterLoad).
- Rules and columns are values, so the aliasing between `$scope.columns` and the hidden list is modelled by writing the same change into both (HideEach, MarkHidden).
- The inventory fetch, `loadSettings`, `saveSettings`, `refresh` and `cancel` of the populated-columns dialog are left out. The fetched inventory is a parameter of `Start`, and the status strings are datatype values.
