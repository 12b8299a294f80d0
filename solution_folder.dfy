/** ProjectItem headers and the SolutionFolder struct built from them. */
module Projects {
  import opened Common
  import opened Text

  /** `Guids.SLN_FOLDER`: the project-type GUID of a solution folder (`ProjectType.SlnFolder`). */
  const SlnFolderGuid: string := "{2150E333-8FDC-42A3-9474-1A3956D46DE8}"

  /**
   * A project declaration: its GUID, its project-type GUID, its name and its parent folder.
   * Every field is null-able; `DefaultProjectItem` is `default(ProjectItem)`. The parent is held
   * in a `RefType<SolutionFolder?>` box whose equality stops at the folder's header, so the
   * parent is kept here by its header.
   */
  datatype ProjectItem = ProjectItem(
    pGuid: Option<string>,
    pType: Option<string>,
    name: Option<string>,
    parent: Option<ProjectItem>)

  const DefaultProjectItem: ProjectItem := ProjectItem(None, None, None, None)

  /** A solution folder: its header and the raw lines of the items it holds. */
  datatype SolutionFolder = SolutionFolder(header: ProjectItem, items: seq<RawText>)
  {
    /** `Equals(object)`: false for null or another type; otherwise headers only, items are not compared. */
    function Equals(obj: Obj<SolutionFolder>): (r: bool)
      ensures r <==> obj.Inst? && obj.value.header == header
    {
      match obj
      case NullRef => false
      case Foreign => false
      case Inst(b) => header == b.header
    }

    /** `operator ==`: a struct is never null, so this is `Equals` of the boxed operand. */
    function Eq(b: SolutionFolder): (r: bool)
      ensures r <==> header == b.header
    {
      Equals(Inst(b))
    }

    /** `operator !=`. */
    function NotEq(b: SolutionFolder): (r: bool)
      ensures r <==> !Eq(b)
    {
      !Eq(b)
    }

    /** `GetHashCode()`: the header's hash, for a given hash function on headers. */
    function HashCode(hash: ProjectItem -> int): int
    {
      hash(header)
    }
  }

  /** The items of a folder: `def ?? new List<RawText>()`. */
  function ItemsOrEmpty(items: Option<seq<RawText>>): (r: seq<RawText>)
    ensures items.None? ==> r == []
    ensures items.Some? ==> r == items.value
  {
    if items.Some? then items.value else []
  }

  /** The parent reference a folder constructor stores: the parent folder, compared by its header. */
  function ParentRef(parent: Option<SolutionFolder>): (r: Option<ProjectItem>)
    ensures r.None? <==> parent.None?
    ensures parent.Some? ==> r == Some(parent.value.header)
  {
    if parent.Some? then Some(parent.value.header) else None
  }

  /** `SolutionFolder(ProjectItem pItem, IEnumerable<RawText> def)`. */
  function FromItem(pItem: ProjectItem, def: Option<seq<RawText>>): (r: SolutionFolder)
    ensures r.header == pItem
    ensures r.items == ItemsOrEmpty(def)
  {
    SolutionFolder(pItem, ItemsOrEmpty(def))
  }

  /** `SolutionFolder(string fGuid, string name, SolutionFolder? parent, IEnumerable<RawText> items)`. */
  function WithGuid(fGuid: Option<string>, name: Option<string>, parent: Option<SolutionFolder>,
                    items: Option<seq<RawText>>): (r: Result<SolutionFolder, Error>)
    ensures r.Failure? <==> fGuid.None? || name.None?
    ensures r.Failure? ==> r.error == ArgumentNull
    ensures r.Success? ==> && r.value.header == ProjectItem(fGuid, Some(SlnFolderGuid), name, ParentRef(parent))
                           && r.value.items == ItemsOrEmpty(items)
  {
    if fGuid.None? || name.None? then Failure(ArgumentNull)
    else Success(FromItem(ProjectItem(fGuid, Some(SlnFolderGuid), name, ParentRef(parent)), items))
  }

  /**
   * `SolutionFolder(string name, IEnumerable<RawText> items)`. The GUID is the one ProjectItem's
   * name-only constructor assigns; it is a parameter here.
   */
  function WithName(name: Option<string>, items: Option<seq<RawText>>, assignedGuid: Option<string>)
    : (r: Result<SolutionFolder, Error>)
    ensures r.Failure? <==> name.None?
    ensures r.Failure? ==> r.error == ArgumentNull
    ensures r.Success? ==> && r.value.header == ProjectItem(assignedGuid, Some(SlnFolderGuid), name, None)
                           && r.value.items == ItemsOrEmpty(items)
  {
    if name.None? then Failure(ArgumentNull)
    else Success(FromItem(ProjectItem(assignedGuid, Some(SlnFolderGuid), name, None), items))
  }

  /** `SolutionFolder(string name, SolutionFolder parent, IEnumerable<RawText> items)`. */
  function WithNameAndParent(name: Option<string>, parent: SolutionFolder, items: Option<seq<RawText>>,
                             assignedGuid: Option<string>): (r: Result<SolutionFolder, Error>)
    ensures r.Failure? <==> name.None?
    ensures r.Failure? ==> r.error == ArgumentNull
    ensures r.Success? ==> && r.value.header == ProjectItem(assignedGuid, Some(SlnFolderGuid), name, Some(parent.header))
                           && r.value.items == ItemsOrEmpty(items)
  {
    if name.None? then Failure(ArgumentNull)
    else Success(FromItem(ProjectItem(assignedGuid, Some(SlnFolderGuid), name, Some(parent.header)), items))
  }

  /** `SolutionFolder(SolutionFolder folder)`: header and items are copied. */
  function Copy(folder: SolutionFolder): (r: SolutionFolder)
    ensures r.header == folder.header && r.items == folder.items
    ensures r.Eq(folder)
  {
    SolutionFolder(folder.header, folder.items)
  }

  /** Two folders with the same header are equal, whatever their items. */
  lemma EqualityIgnoresItems(h: ProjectItem, a: seq<RawText>, b: seq<RawText>)
    ensures SolutionFolder(h, a).Eq(SolutionFolder(h, b))
    ensures SolutionFolder(h, a).NotEq(SolutionFolder(h, b)) == false
  {
  }

  /** Folders under parents with the same header are equal, whatever items those parents hold. */
  lemma ParentItemsNotCompared(name: string, g: string, ph: ProjectItem, a: seq<RawText>, b: seq<RawText>)
    ensures var fa := WithNameAndParent(Some(name), SolutionFolder(ph, a), None, Some(g));
            var fb := WithNameAndParent(Some(name), SolutionFolder(ph, b), None, Some(g));
            fa.Success? && fb.Success? && fa.value.Eq(fb.value)
  {
  }

  /** Equal folders have equal hash codes, whatever hash function the headers use. */
  lemma EqualFoldersHashEqually(a: SolutionFolder, b: SolutionFolder, hash: ProjectItem -> int)
    requires a.Eq(b)
    ensures a.HashCode(hash) == b.HashCode(hash)
  {
  }

  /** Every constructor that builds its own header gives it the solution-folder project type. */
  lemma ConstructedFoldersHaveFolderType(fGuid: Option<string>, name: Option<string>, parent: Option<SolutionFolder>,
                                         items: Option<seq<RawText>>, p: SolutionFolder)
    ensures WithGuid(fGuid, name, parent, items).Success? ==>
              WithGuid(fGuid, name, parent, items).value.header.pType == Some(SlnFolderGuid)
    ensures WithName(name, items, fGuid).Success? ==>
              WithName(name, items, fGuid).value.header.pType == Some(SlnFolderGuid)
    ensures WithNameAndParent(name, p, items, fGuid).Success? ==>
              WithNameAndParent(name, p, items, fGuid).value.header.pType == Some(SlnFolderGuid)
  {
  }
}
