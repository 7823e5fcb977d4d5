/** The entities of a devfile, as the `common` package of the devfile versions declares them. */
module Common {
  import opened Wrappers

  /** DevfileMetadata: every field is a pointer in the source, so every field is optional here. */
  datatype DevfileMetadata = DevfileMetadata(name: Option<string>, version: Option<string>)

  /** The zero value `DevfileMetadata{}`: every pointer nil. */
  const ZeroMetadata: DevfileMetadata := DevfileMetadata(None, None)

  datatype ProjectSource = ProjectSource(sourceType: string, location: string, branch: Option<string>)

  /** DevfileProject; `name` is the key the merge deduplicates on. */
  datatype DevfileProject = DevfileProject(name: string, clonePath: Option<string>, source: ProjectSource)

  datatype CommandAction = CommandAction(actionType: string, component: Option<string>,
                                         command: Option<string>, workdir: Option<string>)

  /** DevfileCommand; `name` is the key the merge deduplicates on. */
  datatype DevfileCommand = DevfileCommand(name: string, actions: seq<CommandAction>)

  /** DevfileComponent: the merge never looks inside a component, so only its identifying parts are kept. */
  datatype DevfileComponent = DevfileComponent(alias: Option<string>, id: Option<string>, componentType: string)

  /** The value of a version 1.0.0 devfile (the fields of `Devfile100`). */
  datatype Devfile = Devfile(
    apiVersion: string,
    metadata: DevfileMetadata,
    projects: seq<DevfileProject>,
    components: seq<DevfileComponent>,
    commands: seq<DevfileCommand>)

  function ProjectName(p: DevfileProject): string { p.name }

  function CommandName(c: DevfileCommand): string { c.name }
}
