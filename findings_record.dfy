/**
 * The canonical record (Findings.java): a mutable object whose fields the
 * builder and the reconciler set one at a time, and the value it has when
 * it is written to the document store.
 */
module FindingsRecord {
  import opened Wrappers
  import opened Json
  import opened Severities
  import opened AlertStates

  /**
   * The content of a Findings object at one moment, as the document store
   * keeps it: every field nullable, `additionalData` by its entries.
   */
  datatype Doc = Doc(
    id: Option<string>,
    title: Option<string>,
    description: Option<string>,
    toolType: Option<string>,
    severity: Option<Severity>,
    state: Option<AlertState>,
    createdAt: Option<string>,
    updatedAt: Option<string>,
    url: Option<string>,
    cve: Option<string>,
    cwe: Option<string>,
    cvss: Option<string>,
    location: Option<string>,
    ticketId: Option<string>,
    alertNumber: Option<string>,
    additionalData: Option<map<string, Json>>)

  /** The value of a freshly constructed Findings: every field null. */
  const Blank := Doc(None, None, None, None, None, None, None, None, None,
                     None, None, None, None, None, None, None)

  /** The `Map<String, Object>` behind `additionalData`: a HashMap shared by reference. */
  class DataMap {
    var entries: map<string, Json>

    constructor ()
      ensures entries == map[]
    {
      entries := map[];
    }

    /** HashMap.put: binds `key`, replacing any earlier binding. */
    method Put(key: string, value: Json)
      modifies this
      ensures entries == old(entries)[key := value]
    {
      entries := entries[key := value];
    }
  }

  class Findings {
    var id: Option<string>
    var title: Option<string>
    var description: Option<string>
    var toolType: Option<string>
    var severity: Option<Severity>
    var state: Option<AlertState>
    var createdAt: Option<string>
    var updatedAt: Option<string>
    var url: Option<string>
    var cve: Option<string>
    var cwe: Option<string>
    var cvss: Option<string>
    var location: Option<string>
    var ticketId: Option<string>
    var alertNumber: Option<string>
    var additionalData: DataMap?

    /** The record's current content; each getter of the source reads one component of it. */
    function Value(): Doc
      reads this, additionalData
    {
      Doc(id, title, description, toolType, severity, state, createdAt, updatedAt, url,
          cve, cwe, cvss, location, ticketId, alertNumber,
          if additionalData == null then None else Some(additionalData.entries))
    }

    /** The implicit no-argument constructor: every field starts out null. */
    constructor ()
      ensures Value() == Blank
      ensures additionalData == null
    {
      id, title, description, toolType := None, None, None, None;
      severity, state := None, None;
      createdAt, updatedAt, url := None, None, None;
      cve, cwe, cvss, location, ticketId, alertNumber := None, None, None, None, None, None;
      additionalData := null;
    }

    method SetId(v: Option<string>)
      modifies this
      ensures Value() == old(Value()).(id := v)
      ensures additionalData == old(additionalData)
    {
      id := v;
    }

    method SetTitle(v: Option<string>)
      modifies this
      ensures Value() == old(Value()).(title := v)
      ensures additionalData == old(additionalData)
    {
      title := v;
    }

    method SetDescription(v: Option<string>)
      modifies this
      ensures Value() == old(Value()).(description := v)
      ensures additionalData == old(additionalData)
    {
      description := v;
    }

    method SetToolType(v: Option<string>)
      modifies this
      ensures Value() == old(Value()).(toolType := v)
      ensures additionalData == old(additionalData)
    {
      toolType := v;
    }

    method SetSeverity(v: Option<Severity>)
      modifies this
      ensures Value() == old(Value()).(severity := v)
      ensures additionalData == old(additionalData)
    {
      severity := v;
    }

    method SetState(v: Option<AlertState>)
      modifies this
      ensures Value() == old(Value()).(state := v)
      ensures additionalData == old(additionalData)
    {
      state := v;
    }

    method SetCreatedAt(v: Option<string>)
      modifies this
      ensures Value() == old(Value()).(createdAt := v)
      ensures additionalData == old(additionalData)
    {
      createdAt := v;
    }

    method SetUpdatedAt(v: Option<string>)
      modifies this
      ensures Value() == old(Value()).(updatedAt := v)
      ensures additionalData == old(additionalData)
    {
      updatedAt := v;
    }

    method SetUrl(v: Option<string>)
      modifies this
      ensures Value() == old(Value()).(url := v)
      ensures additionalData == old(additionalData)
    {
      url := v;
    }

    method SetCve(v: Option<string>)
      modifies this
      ensures Value() == old(Value()).(cve := v)
      ensures additionalData == old(additionalData)
    {
      cve := v;
    }

    method SetCwe(v: Option<string>)
      modifies this
      ensures Value() == old(Value()).(cwe := v)
      ensures additionalData == old(additionalData)
    {
      cwe := v;
    }

    method SetCvss(v: Option<string>)
      modifies this
      ensures Value() == old(Value()).(cvss := v)
      ensures additionalData == old(additionalData)
    {
      cvss := v;
    }

    method SetLocation(v: Option<string>)
      modifies this
      ensures Value() == old(Value()).(location := v)
      ensures additionalData == old(additionalData)
    {
      location := v;
    }

    method SetTicketId(v: Option<string>)
      modifies this
      ensures Value() == old(Value()).(ticketId := v)
      ensures additionalData == old(additionalData)
    {
      ticketId := v;
    }

    method SetAlertNumber(v: Option<string>)
      modifies this
      ensures Value() == old(Value()).(alertNumber := v)
      ensures additionalData == old(additionalData)
    {
      alertNumber := v;
    }

    /** Replaces the map reference wholesale; the record then sees whatever that map holds. */
    method SetAdditionalData(m: DataMap?)
      modifies this
      ensures additionalData == m
      ensures Value() == old(Value()).(additionalData := if m == null then None else Some(m.entries))
    {
      additionalData := m;
    }
  }
}
