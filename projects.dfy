/** The project configuration a build snapshots (`Project` and
    `ProjectConfiguration` of app/controllers/projectsManager.go). Loading it
    from `.packer.json` and reloading it are outside the build core; the core
    only reads these values. */
module Projects {

  datatype Configuration = Configuration(
    buildType: string,
    buildInstructions: map<string, seq<string>>,
    updateInstructions: map<string, seq<string>>,
    reviewType: string,
    reviewAddress: string,
    packageNames: map<string, string>,
    deployScript: string)

  datatype Project = Project(name: string, config: Configuration)

  /** The configuration value of a Go `ProjectConfiguration{}`. */
  const EmptyConfiguration := Configuration("", map[], map[], "", "", map[], "")

  /** The zero `Project` that a lookup of an unknown name returns. */
  const ZeroProject := Project("", EmptyConfiguration)

  /** Go's `m[sys]` on a `map[string][]string`: a missing key reads as the
      empty (nil) slice. */
  function Instructions(m: map<string, seq<string>>, sys: string): seq<string>
  {
    if sys in m then m[sys] else []
  }

  /** Go's `Package[sys]`: a missing key reads as "". */
  function PackageName(c: Configuration, sys: string): string
  {
    if sys in c.packageNames then c.packageNames[sys] else ""
  }

  /** `ProjectsManager.GetProjectByName`: a map lookup that yields the zero
      project for an unknown name. */
  function GetProjectByName(projects: map<string, Project>, name: string): Project
  {
    if name in projects then projects[name] else ZeroProject
  }
}
