/**
 * The records that travel between the controllers and the roadmap builder.
 * The source keeps them as `Map<String, String>`; a key that is absent
 * reads as `null`, modelled as `None`.
 */
module Records {
  import opened Wrappers

  /** A skill: the "name" and "description" entries. */
  datatype Skill = Skill(name: Option<string>, description: Option<string>)

  /** A learning resource: the "title", "url" and "type" entries. */
  datatype Resource = Resource(title: Option<string>, url: Option<string>, kind: Option<string>)
}
