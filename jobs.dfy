/**
 * The job record of the scheduler (the `Job` dataclass) and the conversion
 * of one raw configuration entry into it (`dacite.from_dict(Job, j)`).
 */
module Jobs {
  import opened Wrappers

  /** One periodic job, immutable once converted from the configuration. */
  datatype Job = Job(name: string, schedule: string, sql: string, transaction: bool)

  /** A scalar value as the YAML configuration loader produces it. */
  datatype Value = Str(s: string) | Bool(b: bool) | Number(n: int) | Null

  /** One entry of the configuration's `jobs` list: a dictionary of fields. */
  type RawJob = map<string, Value>

  /** The four fields `Job` declares, the only keys the conversion looks at. */
  const JobFields: set<string> := {"name", "schedule", "sql", "transaction"}

  predicate HasStr(raw: RawJob, field: string) {
    field in raw && raw[field].Str?
  }

  predicate HasBool(raw: RawJob, field: string) {
    field in raw && raw[field].Bool?
  }

  /**
   * The conversion succeeds exactly when every declared field is present
   * with the declared type (a missing field or a wrongly typed one raises);
   * keys that `Job` does not declare are ignored.
   */
  function FromDict(raw: RawJob): (r: Option<Job>)
    ensures r.Some? ==> JobFields <= raw.Keys
  {
    if HasStr(raw, "name") && HasStr(raw, "schedule") && HasStr(raw, "sql") && HasBool(raw, "transaction")
    then Some(Job(raw["name"].s, raw["schedule"].s, raw["sql"].s, raw["transaction"].b))
    else None
  }

  /** The dictionary a job is written as in the configuration. */
  function ToDict(job: Job): (raw: RawJob)
    ensures raw.Keys == JobFields
  {
    map["name" := Str(job.name), "schedule" := Str(job.schedule),
        "sql" := Str(job.sql), "transaction" := Bool(job.transaction)]
  }

  /** Converting the dictionary written for a job gives that job back. */
  lemma ConversionRoundTrip(job: Job)
    ensures FromDict(ToDict(job)) == Some(job)
  {
  }

  /** A converted entry agrees with the job on every declared field: writing the job back gives those fields. */
  lemma ConversionKeepsFields(raw: RawJob, f: string)
    requires FromDict(raw).Some? && f in JobFields
    ensures f in raw && ToDict(FromDict(raw).value)[f] == raw[f]
  {
  }

  /** A field missing from the entry, or present with the wrong type, makes the conversion fail. */
  lemma ConversionRejectsBadField(raw: RawJob, field: string)
    requires field in JobFields
    requires field !in raw || (field == "transaction" && !raw[field].Bool?) || (field != "transaction" && !raw[field].Str?)
    ensures FromDict(raw).None?
  {
  }

  /** Keys the dataclass does not declare have no effect on the conversion. */
  lemma ConversionIgnoresExtraKeys(raw: RawJob, key: string, v: Value)
    requires key !in JobFields
    ensures FromDict(raw[key := v]) == FromDict(raw)
  {
  }
}
