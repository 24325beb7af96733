/** Code tables shared by the building-snapshot, property and task models:
    the source type of a snapshot or state, its DATA_STATE and MERGE_STATE,
    and the record type written on audit logs. */
module Codes {

  // Source type of a snapshot / state (seed/models/models.py:18-24).
  const ASSESSED_RAW: int := 0
  const PORTFOLIO_RAW: int := 1
  const ASSESSED_BS: int := 2
  const PORTFOLIO_BS: int := 3
  const COMPOSITE_BS: int := 4
  const GREEN_BUTTON_RAW: int := 5
  const GREEN_BUTTON_BS: int := 6

  // DATA_STATE of a state (seed/models/models.py:38-49). The copy of this
  // table in seed/models/properties.py:28-37 stops at DATA_STATE_MATCHING.
  const DATA_STATE_UNKNOWN: int := 0
  const DATA_STATE_IMPORT: int := 1
  const DATA_STATE_MAPPING: int := 2
  const DATA_STATE_MATCHING: int := 3
  const DATA_STATE_DELETE: int := 4

  // MERGE_STATE of a state (seed/models/models.py:52-63).
  const MERGE_STATE_UNKNOWN: int := 0
  const MERGE_STATE_NEW: int := 1
  const MERGE_STATE_MERGED: int := 2
  const MERGE_STATE_DUPLICATE: int := 3
  const MERGE_STATE_DELETE: int := 4

  /** The raw import sources: assessor, Portfolio Manager and Green Button rows
      as they were read from a file. */
  const RAW_SOURCES: set<int> := {ASSESSED_RAW, PORTFOLIO_RAW, GREEN_BUTTON_RAW}

  /** Source types that get_ancestors reports: the non-raw, non-composite ones
      (seed/models/models.py:103). */
  const ANCESTOR_SOURCES: set<int> := {ASSESSED_BS, PORTFOLIO_BS, GREEN_BUTTON_BS}

  /** Source types that get_ancestors walks through: the reported ones and the
      composite snapshot (seed/models/models.py:102). */
  const TRAVERSED_SOURCES: set<int> := {ASSESSED_BS, PORTFOLIO_BS, COMPOSITE_BS, GREEN_BUTTON_BS}

  /** Source types that find_unmatched leaves out (seed/models/properties.py:310-312). */
  const UNMATCHED_EXCLUDED: set<int> := {COMPOSITE_BS, ASSESSED_RAW, PORTFOLIO_RAW, GREEN_BUTTON_RAW}

  /** Label of a DATA_STATE code, the empty string outside the table: the
      table names exactly the codes 0 to 4. */
  function DataStateLabel(code: int): (name: string)
    ensures name != "" <==> DATA_STATE_UNKNOWN <= code <= DATA_STATE_DELETE
  {
    if code == DATA_STATE_UNKNOWN then "Unknown"
    else if code == DATA_STATE_IMPORT then "Post Import"
    else if code == DATA_STATE_MAPPING then "Post Mapping"
    else if code == DATA_STATE_MATCHING then "Post Matching"
    else if code == DATA_STATE_DELETE then "Flagged for Deletion"
    else ""
  }

  /** Label of a MERGE_STATE code, the empty string outside the table: the
      table names exactly the codes 0 to 4. */
  function MergeStateLabel(code: int): (name: string)
    ensures name != "" <==> MERGE_STATE_UNKNOWN <= code <= MERGE_STATE_DELETE
  {
    if code == MERGE_STATE_UNKNOWN then "Unknown"
    else if code == MERGE_STATE_NEW then "New Record"
    else if code == MERGE_STATE_MERGED then "Merged Record"
    else if code == MERGE_STATE_DUPLICATE then "Duplicate Record"
    else if code == MERGE_STATE_DELETE then "Delete Record"
    else ""
  }

  /** Every source type code is exactly one of: raw, composite, reported; the
      traversed ones are the reported ones and the composite one. */
  lemma SourceTypesPartition(t: int)
    requires ASSESSED_RAW <= t <= GREEN_BUTTON_BS
    ensures (t in RAW_SOURCES) != (t in TRAVERSED_SOURCES)
    ensures t in TRAVERSED_SOURCES <==> t in ANCESTOR_SOURCES || t == COMPOSITE_BS
    ensures t in UNMATCHED_EXCLUDED <==> t in RAW_SOURCES || t == COMPOSITE_BS
  {
  }

  /** Record type of an audit log. AUDIT_IMPORT's numeric value is defined in
      the auditlog module, which is not part of this model. */
  datatype RecordType = AuditImport | OtherUpdate(code: int)
}
