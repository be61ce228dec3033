/** The part of a Spring `ResponseEntity` the handlers decide: status and body. */
module Http {
  import opened Records

  const OK: nat := 200
  const BadRequest: nat := 400
  const InternalServerError: nat := 500

  /** A body is either a message or a JSON list of records. */
  datatype Body =
    | Text(text: string)
    | SkillList(skills: seq<Skill>)
    | ResourceList(resources: seq<Resource>)

  datatype Response = Response(status: nat, body: Body)

  predicate Is2xx(status: nat) {
    200 <= status < 300
  }
}
