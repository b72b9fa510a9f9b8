/** The persisted job record and the order on its timestamp fields. */
module Records {
  import opened Results

  /** Opaque, immutable record identifier. */
  type JobId = nat

  /** A timestamp field in milliseconds; None when the field is absent or null. */
  type Stamp = Option<int>

  /** One document of the jobs collection. `data`, `jobType`, `priority` and the
      repeat fields are carried through and never interpreted. */
  datatype Job = Job(
    id: JobId,
    name: string,
    data: string,
    jobType: Option<string>,
    priority: Option<int>,
    nextRunAt: Stamp,
    lastRunAt: Stamp,
    lastFinishedAt: Stamp,
    failedAt: Stamp,
    lockedAt: Stamp,
    repeatInterval: Option<string>,
    repeatTimezone: Option<string>,
    repeatAt: Option<string>,
    disabled: Option<bool>)

  /** Strict order on timestamps: an absent stamp lies below every present one. */
  predicate Earlier(a: Stamp, b: Stamp) {
    match (a, b)
    case (None, Some(_)) => true
    case (Some(x), Some(y)) => x < y
    case _ => false
  }

  predicate NoLater(a: Stamp, b: Stamp) {
    !Earlier(b, a)
  }

  /** The records with the given name, in store order (the `{name: job}` match). */
  function WithName(js: seq<Job>, name: string): (r: seq<Job>)
    ensures forall j :: j in r <==> j in js && j.name == name
  {
    if js == [] then []
    else if js[0].name == name then [js[0]] + WithName(js[1..], name)
    else WithName(js[1..], name)
  }

  /** No two records share an id. */
  predicate IdsUnique(js: seq<Job>) {
    forall a, b :: 0 <= a < b < |js| ==> js[a].id != js[b].id
  }

  /** Every id in the store is below `bound`. */
  predicate IdsBelow(js: seq<Job>, bound: nat) {
    forall j :: j in js ==> j.id < bound
  }
}
