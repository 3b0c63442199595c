/** What a deployment fixes, and what each request takes from its surroundings. */
module Settings {
  import opened Text
  import opened Json
  import opened Constraints
  import opened Purpose
  import opened AuditChain

  datatype Config = Config(
    policy: PolicyDocument, manifests: map<string, Manifest>,
    issuer: string, audience: string, region: string, grantTtl: nat, clockSkew: nat,
    rx: Regex, hashing: Hashing,
    render: Json -> string,        // str(value)
    toInt: Json -> Option<int>,    // int(value); None is an exception
    iso: int -> string)            // ISO-8601 text of an instant

  /** The clock, fresh identifiers, and whether an audit append reaches the store. */
  datatype Ambient = Ambient(now: int, newId: string, auditId: string, auditId2: string, auditOk: bool, auditOk2: bool)
}
