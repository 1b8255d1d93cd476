/**
 * The configuration records the configuration service returns for one
 * integration (`types.ModuleGroup` and its configuration entries).
 */
module ModuleTypes {

  /** One key/value entry of a tenant group's configuration. */
  datatype ModuleConfiguration = ModuleConfiguration(confKey: string, confValue: string)

  /** A configured tenant group: its module id, display name and ordered configuration entries. */
  datatype ModuleGroup = ModuleGroup(moduleId: int, groupName: string, configurations: seq<ModuleConfiguration>)

  /** The configuration of one integration: whether it is enabled, and its tenant groups. */
  datatype ModuleConfig = ModuleConfig(moduleActive: bool, configurationGroups: seq<ModuleGroup>)
}
