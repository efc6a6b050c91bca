/** What the gateway keeps of the database between two refreshes. */
module Cache {
  import opened RateLimiter
  import opened RouteSelection

  /** By key hash: the key's id and its limits; by model name: its routes. */
  datatype GatewayCache = GatewayCache(
    keyHashes: map<string, string>,
    modelRoutes: map<string, ModelTarget>,
    rateLimits: map<string, RateLimitConfig>)
}
