/** LAbstract, the base of the solution-line handlers, and the Section record a handler leaves behind. */
module SlnHandlers {
  import opened Common
  import opened Text
  import opened Projects

  /** What the parser does with a matched line. */
  datatype LineAct = Process | Ignore

  /** A type GUID (`Type.GUID`): determined by the type alone. */
  datatype Guid = TypeGuid(of: HandlerType)

  /** Severity of a diagnostic sent to the log. */
  datatype Level = ErrorLevel | DebugLevel

  /** The parser context handed to the hooks; only its user-data store is modelled. */
  class Svc {
    var udata: map<Guid, string>

    constructor()
      ensures udata == map[]
    {
      udata := map[];
    }
  }

  /**
   * One handler instance. `kind` is its run-time type; `coHandlers` are the handler types whose
   * content its own block already covers (null and empty are the same here).
   */
  class LAbstract {
    const kind: HandlerType
    const coHandlers: set<HandlerType>
    /** `Id = GetType().GUID`. */
    const id: Guid := TypeGuid(kind)
    var lineControl: LineAct

    constructor(kind: HandlerType, coHandlers: set<HandlerType>)
      ensures this.kind == kind && this.coHandlers == coHandlers
      ensures id == TypeGuid(kind)
      ensures lineControl == Process
    {
      this.kind := kind;
      this.coHandlers := coHandlers;
      lineControl := Process;
    }

    /** The default `PreProcessing`: does nothing. */
    method PreProcessing(svc: Svc)
      ensures unchanged(this, svc)
    {
    }

    /** The default `PostProcessing`: does nothing. */
    method PostProcessing(svc: Svc)
      ensures unchanged(this, svc)
    {
    }
  }

  /** Two handlers of one type share their Id. */
  lemma SameTypeSameId(a: LAbstract, b: LAbstract)
    requires a.kind == b.kind
    ensures a.id == b.id
  {
  }

  /** ASCII case folding to upper case. */
  function UpperAscii(c: char): char {
    if 'a' <= c <= 'z' then (c as int - 32) as char else c
  }

  /**
   * `String.Equals(a, b, StringComparison.OrdinalIgnoreCase)` with `b` null-able. Folding ASCII
   * letters only is exact when `a` is a GUID.
   */
  predicate EqualsIgnoreCase(a: string, b: Option<string>) {
    b.Some? && |a| == |b.value| && forall i :: 0 <= i < |a| ==> UpperAscii(a[i]) == UpperAscii(b.value[i])
  }

  /** Whether a project-type GUID names a solution folder. */
  predicate IsFolderType(pType: Option<string>) {
    EqualsIgnoreCase(SlnFolderGuid, pType)
  }

  /**
   * `GetProjectItem(line, solutionDir)`: the item `parse` builds from the line, or the default item
   * with an error diagnostic when it has no GUID, or with a debug diagnostic when it is a folder.
   */
  function GetProjectItem(line: string, solutionDir: string, parse: (string, string) -> ProjectItem)
    : (r: (ProjectItem, Option<Level>))
    ensures var p := parse(line, solutionDir);
      && (p.pGuid.None? ==> r == (DefaultProjectItem, Some(ErrorLevel)))
      && (p.pGuid.Some? && IsFolderType(p.pType) ==> r == (DefaultProjectItem, Some(DebugLevel)))
      && (p.pGuid.Some? && !IsFolderType(p.pType) ==> r == (p, None))
    ensures r.0 == DefaultProjectItem || (r.0.pGuid.Some? && !IsFolderType(r.0.pType))
  {
    var pItem := parse(line, solutionDir);
    if pItem.pGuid.None? then (DefaultProjectItem, Some(ErrorLevel))
    else if IsFolderType(pItem.pType) then (DefaultProjectItem, Some(DebugLevel))
    else (pItem, None)
  }

  /** The folder check is case-insensitive: a lower-case folder type GUID is dropped too. */
  lemma LowerCaseFolderTypeDropped(line: string, dir: string, parse: (string, string) -> ProjectItem)
    requires parse(line, dir).pGuid.Some?
    requires parse(line, dir).pType == Some("{2150e333-8fdc-42a3-9474-1a3956d46de8}")
    ensures GetProjectItem(line, dir, parse) == (DefaultProjectItem, Some(DebugLevel))
  {
    var t := "{2150e333-8fdc-42a3-9474-1a3956d46de8}";
    assert forall i :: 0 <= i < |SlnFolderGuid| ==> UpperAscii(SlnFolderGuid[i]) == UpperAscii(t[i]);
  }

  /** The GUID check comes first: an item without a GUID is reported as an error even when it is a folder. */
  lemma MissingGuidCheckedFirst(line: string, dir: string, parse: (string, string) -> ProjectItem)
    requires parse(line, dir).pGuid.None?
    ensures GetProjectItem(line, dir, parse).1 == Some(ErrorLevel)
  {
  }

  /** A header built by any of the three solution-folder constructors is never accepted as a project item. */
  lemma FolderHeadersAreDropped(line: string, dir: string, parse: (string, string) -> ProjectItem,
                                f: SolutionFolder, fGuid: Option<string>, name: Option<string>,
                                parent: Option<SolutionFolder>, p: SolutionFolder, items: Option<seq<RawText>>)
    requires || WithGuid(fGuid, name, parent, items) == Success(f)
             || WithName(name, items, fGuid) == Success(f)
             || WithNameAndParent(name, p, items, fGuid) == Success(f)
    requires parse(line, dir) == f.header
    ensures GetProjectItem(line, dir, parse).0 == DefaultProjectItem
  {
    ConstructedFoldersHaveFolderType(fGuid, name, parent, items, p);
  }

  /**
   * `ISection`: one line of the file, the handler that claimed it (null when none did), and
   * whether it is left out when writing.
   */
  datatype Section = Section(raw: RawText, handler: LAbstract?, ignore: bool)
}
