/** SlnResult: the mutable holder of everything a parse produces. */
module Results {
  import opened Common
  import opened ReadOnly
  import opened Projects
  import opened Configs
  import opened SlnHandlers

  /** Header information (`SlnHeader`); its contents are not part of this model. */
  datatype SlnHeader = SlnHeader(id: nat)
  /** A project-dependency manager (`ISlnPDManager`), known only by identity. */
  datatype DependencyManager = DependencyManager(id: nat)
  /** A project item with its configurations (`ProjectItemCfg`), known only by identity. */
  datatype ProjectItemCfg = ProjectItemCfg(id: nat)
  /** The environment (`IEnvironment`), known only by identity. */
  datatype Environment = Environment(id: nat)

  /** The `List<ISection>` behind `Map`: one object whose contents grow in place. */
  class SectionList {
    var items: seq<Section>

    constructor()
      ensures items == []
    {
      items := [];
    }

    /** `Add(section)`. */
    method Add(s: Section)
      modifies this
      ensures items == old(items) + [s]
    {
      items := items + [s];
    }
  }

  class SlnResult {
    var solutionDir: Option<string>
    /** `SlnItems` flags. */
    var resultType: nat
    /** `private set`: written only through `SetHeader`. */
    var header: Option<SlnHeader>
    var projectConfigurationPlatforms: Option<RoProperties<ConfigSln, seq<ConfigPrj>>>
    var projectItemsConfigs: Option<seq<ProjectItemCfg>>
    var defaultConfig: ConfigSln?
    var properties: Option<RoProperties<string, string>>
    var projectDependencies: Option<DependencyManager>
    /** Key[-value] records; a key-only record holds a null value. */
    var extItems: Option<map<string, Option<string>>>
    var env: Option<Environment>
    /** `Map`: never null and `private set`, so always the list made at construction. */
    const sectionMap: SectionList
    var solutionConfigList: Option<seq<ConfigSln>>
    var projectConfigList: Option<seq<ConfigPrj>>
    var projectItemList: Option<seq<ProjectItem>>
    var solutionFolderList: Option<seq<SolutionFolder>>

    /** A new result: an empty `Map`, every other property at its default. */
    constructor()
      ensures fresh(sectionMap) && sectionMap.items == []
      ensures solutionDir.None? && resultType == 0 && header.None?
      ensures projectConfigurationPlatforms.None? && projectItemsConfigs.None? && defaultConfig == null
      ensures properties.None? && projectDependencies.None? && extItems.None? && env.None?
      ensures solutionConfigList.None? && projectConfigList.None?
      ensures projectItemList.None? && solutionFolderList.None?
    {
      solutionDir, resultType, header := None, 0, None;
      projectConfigurationPlatforms, projectItemsConfigs, defaultConfig := None, None, null;
      properties, projectDependencies, extItems, env := None, None, None, None;
      sectionMap := new SectionList();
      solutionConfigList, projectConfigList := None, None;
      projectItemList, solutionFolderList := None, None;
    }

    /** `SolutionConfigs`: an alias of `SolutionConfigList`. */
    function SolutionConfigs(): (r: Option<seq<ConfigSln>>)
      reads this
      ensures r == solutionConfigList
    {
      solutionConfigList
    }

    /** `ProjectConfigs`: an alias of `ProjectConfigList`. */
    function ProjectConfigs(): (r: Option<seq<ConfigPrj>>)
      reads this
      ensures r == projectConfigList
    {
      projectConfigList
    }

    /** `ProjectItems`: an alias of `ProjectItemList`. */
    function ProjectItems(): (r: Option<seq<ProjectItem>>)
      reads this
      ensures r == projectItemList
    {
      projectItemList
    }

    /** `SolutionFolders`: an alias of `SolutionFolderList`. */
    function SolutionFolders(): (r: Option<seq<SolutionFolder>>)
      reads this
      ensures r == solutionFolderList
    {
      solutionFolderList
    }

    /** `Map.Add(section)`: the list object stays, its contents grow by the one section. */
    method AddSection(s: Section)
      modifies sectionMap
      ensures sectionMap.items == old(sectionMap.items) + [s]
    {
      sectionMap.Add(s);
    }

    /** `SetProjectDependencies(dep)`. */
    method SetProjectDependencies(dep: Option<DependencyManager>)
      modifies this`projectDependencies
      ensures projectDependencies == dep
    {
      projectDependencies := dep;
    }

    /** `SetHeader(info)`. */
    method SetHeader(info: Option<SlnHeader>)
      modifies this`header
      ensures header == info
    {
      header := info;
    }

    /** Replacing a list through its setter is seen through its alias at once. */
    method SetSolutionConfigList(list: Option<seq<ConfigSln>>)
      modifies this`solutionConfigList
      ensures SolutionConfigs() == list
    {
      solutionConfigList := list;
    }
  }

  /** A fresh result holds an empty map, and setting header or dependencies leaves it, and each other, alone. */
  method SettersTouchOneField(info: SlnHeader, dep: DependencyManager) returns (r: SlnResult)
    ensures fresh(r)
    ensures r.sectionMap.items == [] && r.header == Some(info) && r.projectDependencies == Some(dep)
    ensures r.SolutionConfigs().None? && r.ProjectItems().None?
  {
    r := new SlnResult();
    r.SetHeader(Some(info));
    r.SetProjectDependencies(Some(dep));
  }
}
