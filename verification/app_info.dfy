/**
 The application's static constants: its identity, the three enumerations
 the status endpoint reports, the database provider and the docs path.
 */
module AppInfo {
  import opened Js

  /** Overall verdict of the status endpoint. */
  datatype AppStatus = Healthy | Degraded | Unhealthy {
    function Name(): string {
      match this
      case Healthy => "healthy"
      case Degraded => "degraded"
      case Unhealthy => "unhealthy"
    }
  }

  /** The runtime environment the application reports. */
  datatype Environment = Development | Production | Test {
    function Name(): string {
      match this
      case Development => "development"
      case Production => "production"
      case Test => "test"
    }
  }

  /** Reachability of the database. */
  datatype DatabaseStatus = Connected | Disconnected | Error {
    function Name(): string {
      match this
      case Connected => "connected"
      case Disconnected => "disconnected"
      case Error => "error"
    }
  }

  datatype AppMetadata = AppMetadata(name: string, version: string, description: string, author: string)

  const AppName: string := "O'Secours Backend API"
  const DefaultVersion: string := "1.0.0"
  const Description: string :=
    "API backend pour le syst\U{E8}me d'alerte d'urgence O'Secours permettant la gestion des alertes, "
    + "interventions et communications entre citoyens et services de secours"
  const Author: string := "\U{C9}quipe O'Secours"

  /** The only database provider the application uses. */
  const DatabaseProvider: string := "mysql"

  /** Path of the interactive API documentation. */
  const DocsBasePath: string := "/api/docs"

  /**
   The application metadata, fixed when the constants are first loaded; the
   version is `npm_package_version` as it was at that moment, or 1.0.0.
   */
  function Load(npmPackageVersion: Option<string>): (m: AppMetadata)
    ensures m.name == AppName && m.description == Description && m.author == Author
    ensures m.version != ""
    ensures Truthy(npmPackageVersion) ==> m.version == npmPackageVersion.value
    ensures !Truthy(npmPackageVersion) ==> m.version == DefaultVersion
  {
    AppMetadata(AppName, OrElse(npmPackageVersion, DefaultVersion), Description, Author)
  }
}
