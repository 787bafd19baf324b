/** The JSON document a claim row accumulates across ingest, verification and
    payout, and the shallow merge every stage writes it with. */
module VerificationRecord {
  import opened ClaimTypes

  datatype Json =
    | JNull
    | JBool(b: bool)
    | JNum(n: real)
    | JStr(s: string)
    | JList
    | JObj(fields: map<string, Json>)

  type Data = map<string, Json>

  /** Keys only the keeper writes; a verifier's details never carry them. */
  const KEEPER_KEYS: set<string> := {"supersedeCount", "reattributedFrom", "lockDeferrals"}

  /** JavaScript truthiness. */
  predicate Truthy(v: Json) {
    match v
    case JNull => false
    case JBool(b) => b
    case JNum(n) => n != 0.0
    case JStr(s) => s != ""
    case JList => true
    case JObj(_) => true
  }

  /** The record behind a stored column: null, lists and scalars read as empty. */
  function Base(stored: Json): Data {
    if stored.JObj? then stored.fields else map[]
  }

  /** A missing key reads as null; no reader here tells the two apart. */
  function Get(data: Data, key: string): Json {
    if key in data then data[key] else JNull
  }

  /** Shallow merge, the patch winning. */
  function Merge(stored: Json, patch: Data): Json {
    JObj(Base(stored) + patch)
  }

  /** How many times the claim has been re-pointed at another trigger. */
  function SupersedesSoFar(stored: Json): real {
    var count := Get(Base(stored), "supersedeCount");
    if count.JNum? then count.n else 0.0
  }

  predicate AlreadyReattributed(stored: Json) {
    "reattributedFrom" in Base(stored)
  }

  /** The deferral counter as a number; anything else reads as -1, which no
      schedule position matches. */
  function LockDeferrals(stored: Json): real {
    match Get(Base(stored), "lockDeferrals")
    case JNull => 0.0
    case JNum(n) => n
    case _ => -1.0
  }

  /** A reason code in a details record, or the default when there is none. */
  function ReasonOf(details: Data, default: string): string {
    var reason := Get(details, "reason");
    if reason.JStr? then reason.s else default
  }

  /** The review-reason column holds 128 characters. */
  function Clip(reason: string): string {
    if |reason| <= 128 then reason else reason[..128]
  }
}
