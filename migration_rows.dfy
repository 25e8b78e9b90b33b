/**
 * The SQL text `migrateTable` builds for one conversion row and one lead
 * row.  A row is a record of the transformed view's columns; dates arrive
 * already as their `toISOString()` text and loosely typed columns
 * (`value`, `interest`, `fit_score`, …) as JSON values, so that their
 * JavaScript truthiness and `String(…)` form can be modelled.
 */
module MigrationRows {

  import opened Wrappers
  import opened Strings
  import opened JsonValues
  import opened SqlLiterals
  import opened MigrationBatches

  /** `'${x}'`: quotes around the text, without escaping. */
  function Unescaped(s: string): string {
    "'" + s + "'"
  }

  /** `${x || fallback}`: the value's text when it is truthy, else the fallback (`NULL` or `0`). */
  function OrElseText(v: Json, fallback: string): string {
    if Truthy(v) then ToJsString(v) else fallback
  }

  /** `${d ? `'${d.toISOString()}'` : 'NULL'}` for a nullable timestamp. */
  function DateOrNull(iso: Option<string>): string {
    match iso
    case Some(t) => Unescaped(t)
    case None => "NULL"
  }

  /** A text cell holds `value`: NULL when it is falsy, otherwise a literal reading back as it. */
  predicate CellHolds(cell: string, value: Option<string>) {
    if value.None? || value == Some("") then cell == "NULL"
    else ReadLiteral(cell) == Some((value.value, ""))
  }

  /** The cells of a run of nullable text columns. */
  function TextCells(values: seq<Option<string>>): (r: seq<string>)
    ensures |r| == |values|
  {
    seq(|values|, i requires 0 <= i < |values| => TextOrNull(values[i]))
  }

  /** Each cell of a run of text columns holds its value. */
  lemma TextCellsHold(values: seq<Option<string>>)
    ensures forall i :: 0 <= i < |values| ==> CellHolds(TextCells(values)[i], values[i])
  {
  }

  // ---------------------------------------------------------------------
  // Conversions
  // ---------------------------------------------------------------------

  const ConversionColumns: seq<string> := [
    "id", "organization_id", "lead_id", "name", "identifier", "external_id", "external_source",
    "date", "value", "source", "utm_source", "utm_medium", "utm_campaign", "utm_content",
    "utm_term", "utm_channel", "conversion_url", "conversion_domain", "device",
    "raw_payload", "idempotency_hash", "created_at"
  ]

  /** A row of `conversions_transformed`. */
  datatype ConversionRow = ConversionRow(
    id: string, organizationId: string, leadId: string,
    name: Option<string>, identifier: Option<string>,
    externalId: Option<string>, externalSource: Option<string>,
    date: string,
    value: Json,
    source: Option<string>,
    utmSource: Option<string>, utmMedium: Option<string>, utmCampaign: Option<string>,
    utmContent: Option<string>, utmTerm: Option<string>, utmChannel: Option<string>,
    conversionUrl: Option<string>, conversionDomain: Option<string>, device: Option<string>,
    rawPayloadJson: string,
    idempotencyHash: string,
    createdAt: string)

  /** The name, identifier and external reference columns (3 to 6). */
  function ConversionReferenceValues(r: ConversionRow): seq<Option<string>> {
    [r.name, r.identifier, r.externalId, r.externalSource]
  }

  /** The source, UTM, URL, domain and device columns (9 to 18). */
  function ConversionTrafficValues(r: ConversionRow): seq<Option<string>> {
    [r.source, r.utmSource, r.utmMedium, r.utmCampaign, r.utmContent, r.utmTerm,
     r.utmChannel, r.conversionUrl, r.conversionDomain, r.device]
  }

  /** The value of each column, in `ConversionColumns` order. */
  function ConversionCells(r: ConversionRow): seq<string> {
    [Unescaped(r.id), Unescaped(r.organizationId), Unescaped(r.leadId)]
    + TextCells(ConversionReferenceValues(r))
    + [Unescaped(r.date), OrElseText(r.value, "NULL")]
    + TextCells(ConversionTrafficValues(r))
    + [Quote(r.rawPayloadJson), Unescaped(r.idempotencyHash), Unescaped(r.createdAt)]
  }

  /** One `( … )` tuple of the batch insert. */
  function ConversionTuple(r: ConversionRow): string {
    "(" + Join(ConversionCells(r), ", ") + ")"
  }

  /** The insert statement for one batch; conflicting ids are left as they are. */
  function ConversionBatchInsert(batch: seq<ConversionRow>): string {
    "INSERT INTO conversions (" + Join(ConversionColumns, ", ") + ") VALUES " +
    Join(seq(|batch|, i requires 0 <= i < |batch| => ConversionTuple(batch[i])), ",") +
    " ON CONFLICT (id) DO NOTHING"
  }

  /**
   * Every column gets exactly one value; every free-text column reads back
   * as its value, or is NULL when the value is falsy; `value` is written
   * as its text when truthy and NULL otherwise; the raw payload always
   * reads back as its JSON text.
   */
  lemma ConversionCellsSpec(r: ConversionRow)
    ensures |ConversionCells(r)| == |ConversionColumns| == 22
    ensures forall i :: 0 <= i < 4 ==> CellHolds(ConversionCells(r)[3 + i], ConversionReferenceValues(r)[i])
    ensures forall i :: 0 <= i < 10 ==> CellHolds(ConversionCells(r)[9 + i], ConversionTrafficValues(r)[i])
    ensures Truthy(r.value) ==> ConversionCells(r)[8] == ToJsString(r.value)
    ensures !Truthy(r.value) ==> ConversionCells(r)[8] == "NULL"
    ensures ReadLiteral(ConversionCells(r)[19]) == Some((r.rawPayloadJson, ""))
  {
    var refs := ConversionReferenceValues(r);
    var traffic := ConversionTrafficValues(r);
    TextCellsHold(refs);
    TextCellsHold(traffic);
    var c := ConversionCells(r);
    assert forall i :: 0 <= i < 4 ==> c[3 + i] == TextCells(refs)[i];
    assert forall i :: 0 <= i < 10 ==> c[9 + i] == TextCells(traffic)[i];
    QuoteReadsBack(r.rawPayloadJson, "");
    assert Quote(r.rawPayloadJson) + "" == Quote(r.rawPayloadJson);
  }

  /** The conversion inserts of `migrateTable`: one statement per batch of 200, in order. */
  function ConversionInserts(rows: seq<ConversionRow>): seq<string> {
    var bs := Batches(rows, ConversionBatchSize);
    seq(|bs|, i requires 0 <= i < |bs| => ConversionBatchInsert(bs[i]))
  }

  // ---------------------------------------------------------------------
  // Leads
  // ---------------------------------------------------------------------

  const LeadColumns: seq<string> := [
    "id", "organization_id", "name", "email", "secondary_email", "phone", "secondary_phone",
    "company", "job_title", "import_method", "external_id", "external_source",
    "fit_score", "interest", "total_conversions", "first_conversion_date", "last_conversion_date",
    "first_conversion_utm_source", "first_conversion_utm_medium", "first_conversion_utm_campaign",
    "first_conversion_utm_content", "first_conversion_utm_term",
    "last_conversion_utm_source", "last_conversion_utm_medium", "last_conversion_utm_campaign",
    "last_conversion_utm_content", "last_conversion_utm_term",
    "tags", "notes", "created_at", "updated_at"
  ]

  /** A row of `leads_transformed`; `tags` is the parsed `tags_json` ([] when it is empty or null). */
  datatype LeadRow = LeadRow(
    id: string, organizationId: string,
    name: Option<string>, email: Option<string>, secondaryEmail: Option<string>,
    phone: Option<string>, secondaryPhone: Option<string>,
    company: Option<string>, jobTitle: Option<string>, importMethod: Option<string>,
    externalId: Json, externalSource: Json,
    fitScore: Json, interest: Json, totalConversions: Json,
    firstConversionDate: Option<string>, lastConversionDate: Option<string>,
    firstUtmSource: Option<string>, firstUtmMedium: Option<string>, firstUtmCampaign: Option<string>,
    firstUtmContent: Option<string>, firstUtmTerm: Option<string>,
    lastUtmSource: Option<string>, lastUtmMedium: Option<string>, lastUtmCampaign: Option<string>,
    lastUtmContent: Option<string>, lastUtmTerm: Option<string>,
    tags: seq<string>,
    notes: Option<string>,
    createdAt: string, updatedAt: string)

  /** `${fit_score ? `'${fit_score}'` : 'NULL'}` */
  function FitScoreCell(v: Json): string {
    if Truthy(v) then Unescaped(ToJsString(v)) else "NULL"
  }

  /** The name, e-mail, phone, company, job title and import method columns (2 to 9). */
  function LeadContactValues(r: LeadRow): seq<Option<string>> {
    [r.name, r.email, r.secondaryEmail, r.phone, r.secondaryPhone,
     r.company, r.jobTitle, r.importMethod]
  }

  /** The first- and last-touch UTM columns (17 to 26). */
  function LeadUtmValues(r: LeadRow): seq<Option<string>> {
    [r.firstUtmSource, r.firstUtmMedium, r.firstUtmCampaign, r.firstUtmContent, r.firstUtmTerm,
     r.lastUtmSource, r.lastUtmMedium, r.lastUtmCampaign, r.lastUtmContent, r.lastUtmTerm]
  }

  /** The value of each column, in `LeadColumns` order. */
  function LeadCells(r: LeadRow): seq<string> {
    [Unescaped(r.id), Unescaped(r.organizationId)]
    + TextCells(LeadContactValues(r))
    + [Unescaped(ToJsString(r.externalId)), Unescaped(ToJsString(r.externalSource)),
       FitScoreCell(r.fitScore), OrElseText(r.interest, "0"), OrElseText(r.totalConversions, "0"),
       DateOrNull(r.firstConversionDate), DateOrNull(r.lastConversionDate)]
    + TextCells(LeadUtmValues(r))
    + [TagsArrayLiteral(r.tags), TextOrNull(r.notes),
       Unescaped(r.createdAt), Unescaped(r.updatedAt)]
  }

  /** The insert of one lead; an existing id only has its `updated_at` refreshed. */
  function LeadInsert(r: LeadRow): string {
    "INSERT INTO leads (" + Join(LeadColumns, ", ") + ") VALUES (" + Join(LeadCells(r), ", ") +
    ") ON CONFLICT (id) DO UPDATE SET updated_at = EXCLUDED.updated_at"
  }

  /**
   * Every lead column gets exactly one value; the contact, UTM and notes
   * columns read back as their values or are NULL when falsy; a falsy
   * interest or conversion total is written as 0.
   */
  lemma LeadCellsSpec(r: LeadRow)
    ensures |LeadCells(r)| == |LeadColumns| == 31
    ensures forall i :: 0 <= i < 8 ==> CellHolds(LeadCells(r)[2 + i], LeadContactValues(r)[i])
    ensures forall i :: 0 <= i < 10 ==> CellHolds(LeadCells(r)[17 + i], LeadUtmValues(r)[i])
    ensures CellHolds(LeadCells(r)[28], r.notes)
    ensures !Truthy(r.interest) ==> LeadCells(r)[13] == "0"
    ensures !Truthy(r.totalConversions) ==> LeadCells(r)[14] == "0"
  {
    var contact := LeadContactValues(r);
    var utm := LeadUtmValues(r);
    TextCellsHold(contact);
    TextCellsHold(utm);
    TextCellsHold([r.notes]);
    var c := LeadCells(r);
    assert forall i :: 0 <= i < 8 ==> c[2 + i] == TextCells(contact)[i];
    assert forall i :: 0 <= i < 10 ==> c[17 + i] == TextCells(utm)[i];
    assert c[28] == TextCells([r.notes])[0];
  }

  /** The tags column reads back as the parsed tag list, in order. */
  lemma LeadTagsCell(r: LeadRow)
    ensures ReadTagsArray(LeadCells(r)[27]) == Some(r.tags)
  {
    TagsArrayReadsBack(r.tags);
    assert LeadCells(r)[27] == TagsArrayLiteral(r.tags);
  }

  /**
   * A lead whose external id is null is written as the text 'null'
   * rather than SQL NULL: the column is placed between quotes without a
   * null check.
   */
  lemma NullExternalIdBecomesText(r: LeadRow)
    requires r.externalId.JNull?
    ensures LeadCells(r)[10] == "'null'"
  {
  }
}
