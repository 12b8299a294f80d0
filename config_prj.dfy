/** ConfigPrj: a project configuration linked to the solution configuration it belongs to. */
module Configs {

  /** A solution configuration (`ConfigSln`); its name handling is not part of this model. */
  class ConfigSln {
    const configuration: string
    const platform: string

    constructor(configuration: string, platform: string)
      ensures this.configuration == configuration && this.platform == platform
    {
      this.configuration := configuration;
      this.platform := platform;
    }
  }

  class ConfigPrj {
    /** The `ConfigItem` part: configuration name and platform. */
    const configuration: string
    const platform: string

    /** Project GUID; `protected set`. */
    var pGuid: string
    /** Presence of a `.Build.0` record; `internal set`. */
    var includeInBuild: bool
    /** The very solution configuration this one is linked to; `protected set`. */
    var sln: ConfigSln?

    /** `ConfigPrj(string name, string platform, string pGuid, bool build, ConfigSln sln)`. */
    constructor(name: string, platform: string, pGuid: string, build: bool, sln: ConfigSln?)
      ensures configuration == name && this.platform == platform
      ensures this.pGuid == pGuid && includeInBuild == build && this.sln == sln
    {
      configuration := name;
      this.platform := platform;
      new;
      Set(pGuid, build, sln);
    }

    /**
     * `ConfigPrj(string formatted, string pGuid, bool build, ConfigSln sln)`; `split` is how
     * `ConfigItem(string formatted)` separates configuration and platform.
     */
    constructor FromFormatted(formatted: string, pGuid: string, build: bool, sln: ConfigSln?,
                              split: string -> (string, string))
      ensures (configuration, platform) == split(formatted)
      ensures this.pGuid == pGuid && includeInBuild == build && this.sln == sln
    {
      configuration := split(formatted).0;
      platform := split(formatted).1;
      new;
      Set(pGuid, build, sln);
    }

    /** `Set(pGuid, build, sln)`: the three fields, one after another. */
    method Set(pGuid: string, build: bool, sln: ConfigSln?)
      modifies this
      ensures this.pGuid == pGuid && includeInBuild == build && this.sln == sln
    {
      this.pGuid := pGuid;
      includeInBuild := build;
      this.sln := sln;
    }

    /** The internal `IncludeInBuild` setter: the link and the GUID stay as they are. */
    method SetIncludeInBuild(build: bool)
      modifies this`includeInBuild
      ensures includeInBuild == build
      ensures pGuid == old(pGuid) && sln == old(sln)
    {
      includeInBuild := build;
    }
  }

  /**
   * A project mapped to a solution configuration without a `.Build.0` record keeps the link and
   * reports that it is not built.
   */
  method MappedButNotBuilt(sln: ConfigSln, pGuid: string) returns (c: ConfigPrj)
    ensures fresh(c)
    ensures c.sln == sln && !c.includeInBuild
  {
    c := new ConfigPrj(sln.configuration, sln.platform, pGuid, false, sln);
  }
}
