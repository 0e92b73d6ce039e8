/** Static application configuration consumed by the modelled core. */
module Config {

  /** The upload extensions accepted by the document endpoints (lower case, no dot). */
  const AllowedExtensions: set<string> := {"png", "jpg", "jpeg", "pdf"}
}
