/** The client settings the core reads (namespace, environment and the two switches),
    with the defaults the client ships with. */
module Settings {

  datatype Properties = Properties(
    namespace: string,
    environment: string,
    cacheEnabled: bool,
    syncEnabled: bool)

  /** namespace "default", environment "dev", cache and synchronization on. */
  const Defaults := Properties("default", "dev", true, true)
}
