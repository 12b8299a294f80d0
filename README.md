# MvsSln section writer, modelled in Dafny

This project models the core of MvsSln's writer for Visual Studio solution files. `SlnWriter` takes
the sections a parse left behind, i.e. raw lines, each possibly claimed by a handler. It writes them
back to a stream, and a registered writer (an `IObjHandler` with its value) may replace the raw text
of the block its handler type owns. The model also covers the small value types and holders around
the writer: `RawText`, `RoProperties`, `SolutionFolder`, `RefType`, `ConfigPrj`, `SlnResult`, and the
`LAbstract` handler base with its project-item filter.

## The files

| File | What it holds |
|---|---|
| `common.dfy` | `Option` for null-able values, `Result`/`Outcome` for calls that may throw, `Obj` for the argument of `Equals(object)`, and the exceptions as `Error`. |
| `raw_text.dfy` | `RawText`, its conversions and equality, and `String.Trim` over the `Char.IsWhiteSpace` set. |
| `ro_properties.dfy` | `RoProperties<K,V>` as a value over a `map`. |
| `solution_folder.dfy` | `ProjectItem` headers and `SolutionFolder`. |
| `ref_type.dfy` | `RefType<T>` as a class, since its `Value` can be set. |
| `config_prj.dfy` | `ConfigPrj` and `ConfigSln` as classes. |
| `l_abstract.dfy` | `LAbstract` and `GetProjectItem`, plus the `Section` record (raw text, handler, ignore flag). |
| `sln_result.dfy` | `SlnResult` as a class, with frame conditions on its setters. |
| `writer_spec.dfy` | What `Write(sections)` computes, as functions, with the lemmas about them. |
| `sln_writer.dfy` | The stream (`LineStream`) and the `SlnWriter` class, whose methods are proved against `writer_spec.dfy`. |

### How the writer is modelled

- **Sections.** A section is a value.
  - Its handler is a reference to an `LAbstract` object.
  - The object's `kind` stands for its run-time type (`GetType()`).
  - Its `coHandlers` set holds the handler types whose content its own block already covers.
- **Registry.** The writer registry maps handler types to an optional writer id and a value.
  - `Extract` is a parameter `extract` of the writer: what each writer returns for its value.
  - Its result may be null, which gives an empty line.
- **Stream.** The stream keeps the lines written so far and a release count. Writing to a released
  stream throws `ObjectDisposedException`.
- **`Write(sections)`** runs four steps:
  1. It clones the sections. A null collection or a null section throws before anything is written.
  2. It validates the co-handler rule.
  3. It selects the writable sections in one left-to-right pass that keeps a set of marked types
     (`hTypes`).
  4. It writes each selected section, either as its raw text or as the registered writer's output.
- **Round trip.** `WriterSpec.VerbatimRoundTrip`: with no registered handler
  type and no co-handler coverage, the output is exactly the raw text of every section that is not
  ignored.

### The co-handler rule

The code of `Validate` (MvsSln/Core/SlnWriter.cs:124-139) enforces two rules:

- A registered type that owns co-handlers is refused when **any** of its co-handler types is also
  registered. Registering the parent on its own passes, provided that it does not list its own type and
  that no other owner in the sections shares its type (that gives `DuplicateKey` first).
- A registered type that some owner present in the sections lists as a co-handler is refused when
  that owner's type is **not** registered, unless that type owns co-handlers itself. A registered
  owner is checked only against the first rule (the `continue` at MvsSln/Core/SlnWriter.cs:131).

So the first rule refuses a registered handler type together with any of its co-handler types. It
does not require the co-handler types to be registered as well.

Two other points of the code matter for the output:

- A registered writer's output is written as it is, and a null result gives an empty line. The raw
  text is not used as a fallback.
- A type registered with a null writer still counts as written in `WritableSections`. So only the
  first section of that type is written, as raw text, and later ones are dropped.
  `WriterSpec.FirstOfTypeWritten` and `WriterSpec.RegisteredTypeWrittenOnce` state the two halves.

## Model

| member | source | states |
|---|---|---|
| Writer.SlnWriter.Create | MvsSln/Core/SlnWriter.cs:110-114 | A null stream or a null handler map gives ArgumentNullException. Otherwise the new writer holds exactly that stream and map, is not disposed, and its invariant holds. |
| Writer.SlnWriter.constructor | MvsSln/Core/SlnWriter.cs:110-114 | Stores the stream and the registry unchanged and starts undisposed. |
| Writer.SlnWriter.WriteLine | MvsSln/Core/SlnWriter.cs:186-189 | Appends one line to an open stream; a null string gives an empty line. A released stream throws ObjectDisposed and gets no line. |
| Writer.LineStream.WriteLine | MvsSln/Core/SlnWriter.cs:186-189 | The stream's `WriteLine`: appends exactly one line when the stream is open, and fails with ObjectDisposed and changes nothing once it is released. |
| Writer.LineStream.Dispose | MvsSln/Core/SlnWriter.cs:191-194 | Releases the stream once more and leaves its lines as they were. |
| Writer.SlnWriter.WriteSection | MvsSln/Core/SlnWriter.cs:67-89 | A null section gives ArgumentNull, and an ignored section writes nothing. Any other section writes exactly one line, `Render`: the raw data when there is no handler, or its type is unregistered, or its writer is null; otherwise the writer's `Extract(value)`. |
| Writer.SlnWriter.GetSlnHandlers | MvsSln/Core/SlnWriter.cs:143-153 | Returns exactly the set of distinct handler instances of all sections, ignored ones included. |
| Writer.SlnWriter.Validate | MvsSln/Core/SlnWriter.cs:116-141 | Passes if and only if `ValidationPasses`. It fails with DuplicateKey if and only if two owners of co-handlers share a type, since `ToDictionary` throws before any rule is checked. Any other failure is a CoHandlerRule naming a registered type that breaks one of the two rules. |
| Writer.SlnWriter.WritableSections | MvsSln/Core/SlnWriter.cs:155-184 | The loop with its `hTypes` set returns exactly `Writable(sections)`. |
| Writer.SlnWriter.WriteSections | MvsSln/Core/SlnWriter.cs:55-61 | A null collection (ArgumentNull) or a null section (NullReference) leaves the stream untouched. So does a failed validation: DuplicateKey for a duplicated owner type, otherwise a CoHandlerRule naming a registered type that breaks a rule. Otherwise an open stream gets exactly `Output(clones)` appended. A released stream gets nothing, and the call fails with ObjectDisposed unless there is nothing to write. Only the stream can change, so the caller's sections and handlers are not touched. |
| Writer.SlnWriter.Dispose | MvsSln/Core/SlnWriter.cs:199-215 | The first call releases the stream and later calls do not, so the stream is released exactly once in all. The written lines stay. It may be called in any state. |
| Writer.ExceptShrinks | MvsSln/Core/SlnWriter.cs:126 | `children.Except(keys).Count() != children.Count` holds exactly when some child type is registered. |
| WriterSpec.CloneAll | MvsSln/Core/SlnWriter.cs:57 | A null collection gives ArgumentNull. Otherwise it succeeds if and only if no section is null, and then returns the sections element by element, in order; a null section gives NullReference. |
| WriterSpec.CloneEach | MvsSln/Core/SlnWriter.cs:57 | Over the elements: succeeds if and only if none is null, keeping length and order; otherwise NullReference. |
| WriterSpec.HandlersIn | MvsSln/Core/SlnWriter.cs:143-153 | Definition: the set of distinct handler instances of all sections, ignored ones included. |
| WriterSpec.CoOwners | MvsSln/Core/SlnWriter.cs:118-119 | Definition: the handlers that declare at least one co-handler type (`coh` before the dictionary is built). |
| WriterSpec.HasDuplicateKinds | MvsSln/Core/SlnWriter.cs:120 | Definition: two distinct owners share a handler type, which makes `ToDictionary` throw DuplicateKey. |
| WriterSpec.HasCo | MvsSln/Core/SlnWriter.cs:124 | Definition: `coh.ContainsKey(k)`, some owner has type `k`. |
| WriterSpec.CoOf | MvsSln/Core/SlnWriter.cs:126 | Definition: `coh[k]`, the co-handler types of the owners of type `k`. |
| WriterSpec.Violation | MvsSln/Core/SlnWriter.cs:124-139 | Definition: for an owner type, one of its co-handler types is registered (first rule, after which `continue` skips the second); otherwise some owner lists `k` and is not registered (second rule). |
| WriterSpec.ValidationPasses | MvsSln/Core/SlnWriter.cs:116-141 | Definition: no two owners share a type and no registered type breaks a rule. |
| WriterSpec.ParentRuleIff | MvsSln/Core/SlnWriter.cs:124-131 | For a registered owner of co-handlers, the first rule fails if and only if one of its co-handler types is registered. |
| WriterSpec.ParentWithCoHandlerRejected | MvsSln/Core/SlnWriter.cs:124-131 | Registering an owner of co-handlers together with any one of them fails validation. |
| WriterSpec.SelfListedHandlerRejected | MvsSln/Core/SlnWriter.cs:124-131 | A registered handler that lists its own type as a co-handler always fails validation. |
| WriterSpec.ParentAlonePasses | MvsSln/Core/SlnWriter.cs:124-131 | Registering an owner of co-handlers on its own passes validation, provided that no other owner shares its type and it does not list its own type. |
| WriterSpec.CoHandlerWithoutParentRejected | MvsSln/Core/SlnWriter.cs:134-139 | Registering a co-handler type whose owner is present in the sections but not registered fails validation, when no handler of that co-handler type owns co-handlers itself. |
| WriterSpec.OwnerExemptFromSecondRule | MvsSln/Core/SlnWriter.cs:124-139 | A registered type that owns co-handlers is not refused by the second rule: when none of its own co-handler types is registered it passes, even though an unregistered owner lists it. |
| WriterSpec.OwningChildAlonePasses | MvsSln/Core/SlnWriter.cs:124-139 | Registering only a co-handler type that owns co-handlers itself, with its owner unregistered, passes validation. |
| WriterSpec.EmptyRegistryPasses | MvsSln/Core/SlnWriter.cs:118-122 | With an empty registry, only a duplicated owner type (the `ToDictionary` throw) can fail validation. |
| WriterSpec.Step | MvsSln/Core/SlnWriter.cs:160-179 | Definition: one pass of the loop over `hTypes`: an ignored or unhandled section leaves it alone; otherwise the co-handler types are added, and the section's own type too when it is registered and not already present. |
| WriterSpec.SeenAfter | MvsSln/Core/SlnWriter.cs:158-181 | Definition: `hTypes` after the loop has run over the given sections, starting empty. |
| WriterSpec.Kept | MvsSln/Core/SlnWriter.cs:160-180 | Definition: the test under which the loop adds the section at position `i` to `ret`. |
| WriterSpec.Writable | MvsSln/Core/SlnWriter.cs:155-184 | Every selected section is one of the inputs and is not ignored. |
| WriterSpec.NonIgnored | MvsSln/Core/SlnWriter.cs:160 | Holds exactly the sections that are not ignored. |
| WriterSpec.WritableIsSubsequence | MvsSln/Core/SlnWriter.cs:157-183 | The written sections are a subsequence of the sections that are not ignored: same order, nothing invented. |
| WriterSpec.UnownedSectionsKept | MvsSln/Core/SlnWriter.cs:160-165 | Every non-ignored section without a handler is written, in its original order. |
| WriterSpec.SeenMonotone | MvsSln/Core/SlnWriter.cs:167-179 | The set of marked types only grows along the pass. |
| WriterSpec.MarkedAfter | MvsSln/Core/SlnWriter.cs:167-179 | After a handled section, its co-handler types are marked. If its type is registered and the section was written, its own type is marked too. |
| WriterSpec.CoHandledSectionDropped | MvsSln/Core/SlnWriter.cs:167-175 | Once a section whose handler lists co-handlers is seen, every later section of one of those types is dropped, whether or not the owner is registered. |
| WriterSpec.RegisteredTypeWrittenOnce | MvsSln/Core/SlnWriter.cs:171-179 | For a registered type, a null writer included, no later section of that type is written after the first written one. |
| WriterSpec.KeptPrefix | MvsSln/Core/SlnWriter.cs:160-181 | Whether a section is written depends only on it and the sections before it. |
| WriterSpec.SeenExactly | MvsSln/Core/SlnWriter.cs:167-179 | A type is in `hTypes` after the pass if and only if some non-ignored handled section marks it. A section marks the types of its co-handlers, and its own type when that type is registered and the section is written. |
| WriterSpec.KeptInWritable | MvsSln/Core/SlnWriter.cs:160-181 | A section that passes the selection test is among the written sections. |
| WriterSpec.FirstOfTypeWritten | MvsSln/Core/SlnWriter.cs:171-180 | The first non-ignored section of a handler type is written, registered or not, when no earlier section lists that type as a co-handler and it does not list itself. |
| WriterSpec.WritableKeepsAll | MvsSln/Core/SlnWriter.cs:155-184 | With no registered handler types and no section covered by another's co-handlers, every non-ignored section is written. |
| WriterSpec.LineOf | MvsSln/Core/SlnWriter.cs:186-189 | Definition: the line `StreamWriter.WriteLine` puts out for a string, empty for null. |
| WriterSpec.HasWriter | MvsSln/Core/SlnWriter.cs:85 | Definition: `Handlers.ContainsKey(tid) && Handlers[tid].handler != null`. |
| WriterSpec.Render | MvsSln/Core/SlnWriter.cs:77-88 | Definition: the line written for a non-ignored section: the raw data without a handler or writer, otherwise the writer's text. |
| WriterSpec.RenderAll | MvsSln/Core/SlnWriter.cs:60 | Definition: the lines of the given sections, one each, in order. |
| WriterSpec.Output | MvsSln/Core/SlnWriter.cs:55-61 | Definition: the lines `Write(sections)` puts out, the rendering of the writable sections. |
| WriterSpec.RenderVerbatim | MvsSln/Core/SlnWriter.cs:77-88 | A section with no handler, or with no registered non-null writer, is rendered as exactly its raw data. |
| WriterSpec.VerbatimRoundTrip | MvsSln/Core/SlnWriter.cs:55-61 | With no registered handler types and no co-handler coverage, `Write(sections)` emits exactly the raw text of every non-ignored section, in order. |
| Text.IsWhiteSpace | MvsSln/Core/RawText.cs:107 | Definition: the characters `Char.IsWhiteSpace` accepts, which `String.Trim` removes. |
| Text.LeadingWhiteSpace | MvsSln/Core/RawText.cs:107 | Counts the white-space prefix: all of it is white space, and the next character is not. |
| Text.TrailingWhiteSpace | MvsSln/Core/RawText.cs:107 | Counts the white-space suffix: all of it is white space, and the character before it is not. |
| Text.Trim | MvsSln/Core/RawText.cs:107 | `String.Trim`: the result is the input's infix between a leading and a trailing white-space run, and it neither starts nor ends with white space. |
| Text.TrimIdempotent | MvsSln/Core/RawText.cs:107 | Trimming twice is trimming once. |
| Text.NewRawText | MvsSln/Core/RawText.cs:103-108 | Stores data and encoding unchanged. `trimmed` is the trimmed data, or null for null data. |
| Text.FromString | MvsSln/Core/RawText.cs:95-99 | The one-argument constructor is the two-argument one with UTF-8. |
| Text.RawText.ToString | MvsSln/Core/RawText.cs:89-92 | Returns `data` unchanged. |
| Text.StringRoundTrip | MvsSln/Core/RawText.cs:45-53 | string to RawText to string is the identity, null included. |
| Text.RawTextRoundTripLosesEncoding | MvsSln/Core/RawText.cs:45-53 | RawText to string to RawText is not the identity once the encoding is not UTF-8. |
| Text.TrimmedIsStable | MvsSln/Core/RawText.cs:103-108 | A constructed RawText's `trimmed` is already trimmed. |
| Text.RawText.Equals | MvsSln/Core/RawText.cs:66-77 | False for null and for other types. For a RawText, true if and only if all three fields are equal. |
| Text.RawText.Eq | MvsSln/Core/RawText.cs:55-59 | `==` is true if and only if `data`, `trimmed` and `encoding` are all equal. |
| Text.RawText.NotEq | MvsSln/Core/RawText.cs:61-64 | `!=` is the negation of `==`, and holds if and only if the values differ. |
| ReadOnly.RoProperties.Create | MvsSln/Core/RoProperties.cs:72-75 | Null data gives ArgumentNullException. Otherwise the view wraps exactly the given entries. |
| ReadOnly.RoProperties.Get | MvsSln/Core/RoProperties.cs:45 | The getter returns the wrapped value when the key is present, and KeyNotFound if and only if it is missing. |
| ReadOnly.RoProperties.Set | MvsSln/Core/RoProperties.cs:45 | The indexer setter always fails with NotSupported. |
| ReadOnly.RoProperties.Count | MvsSln/Core/RoProperties.cs:51 | The number of keys of the view. |
| ReadOnly.RoProperties.Keys | MvsSln/Core/RoProperties.cs:47 | The wrapped dictionary's keys. |
| ReadOnly.RoProperties.Values | MvsSln/Core/RoProperties.cs:49 | The wrapped dictionary's values, one per key: as many as Count. |
| ReadOnly.MapValues | MvsSln/Core/RoProperties.cs:49 | The values of a dictionary as a multiset with one entry per key. |
| ReadOnly.MapValuesCount | MvsSln/Core/RoProperties.cs:49 | Each value occurs as often as there are keys mapped to it. |
| ReadOnly.ValuesCountPerValue | MvsSln/Core/RoProperties.cs:49 | In `Values` of the view, a value held by several keys occurs once per key. |
| ReadOnly.RoProperties.IsReadOnly | MvsSln/Core/RoProperties.cs:53 | Always true. |
| ReadOnly.RoProperties.ContainsKey | MvsSln/Core/RoProperties.cs:57 | True if and only if the getter succeeds for that key. |
| ReadOnly.RoProperties.TryGetValue | MvsSln/Core/RoProperties.cs:63 | Finds a value if and only if the key is present, and then it is the getter's value. |
| ReadOnly.RoProperties.Add | MvsSln/Core/RoProperties.cs:95-98 | Always NotSupported. |
| ReadOnly.RoProperties.AddPair | MvsSln/Core/RoProperties.cs:100-103 | Always NotSupported. |
| ReadOnly.RoProperties.Clear | MvsSln/Core/RoProperties.cs:105-108 | Always NotSupported. |
| ReadOnly.RoProperties.ContainsPair | MvsSln/Core/RoProperties.cs:110-113 | Always NotSupported, not a lookup. |
| ReadOnly.RoProperties.Remove | MvsSln/Core/RoProperties.cs:115-118 | Always NotSupported. |
| ReadOnly.RoProperties.RemovePair | MvsSln/Core/RoProperties.cs:120-123 | Always NotSupported. |
| ReadOnly.RoProperties.ExtractDictionary | MvsSln/Core/RoProperties.cs:55 | Returns a freshly allocated dictionary with exactly the view's entries. |
| ReadOnly.ExtractedCopyIsIndependent | MvsSln/Core/RoProperties.cs:55 | Changing the extracted copy changes only the copy; the view keeps its entries. |
| ReadOnly.Dictionary.Put | MvsSln/Core/RoProperties.cs:55 | A write to the extracted copy updates exactly that key. |
| ReadOnly.ViewAgreesWithDictionary | MvsSln/Core/RoProperties.cs:45-123 | A view over any dictionary agrees with it on Count, Keys, the size of Values, ContainsKey, the getter and TryGetValue. It refuses every mutator: the indexer setter, Add, Add of a pair, Clear, Remove and Remove of a pair. |
| Projects.SolutionFolder.Equals | MvsSln/Core/SolutionFolder.cs:63-70 | False for null and for other types; otherwise true if and only if the headers are equal. Items are not compared. |
| Projects.SolutionFolder.Eq | MvsSln/Core/SolutionFolder.cs:47-51 | `==` is true if and only if the headers are equal. |
| Projects.SolutionFolder.NotEq | MvsSln/Core/SolutionFolder.cs:53-56 | `!=` is the negation of `==`. |
| Projects.EqualityIgnoresItems | MvsSln/Core/SolutionFolder.cs:63-70 | Folders with the same header are equal whatever their items. |
| Projects.SolutionFolder.HashCode | MvsSln/Core/SolutionFolder.cs:72-75 | Definition: the header's hash, for a given hash function on headers. |
| Projects.EqualFoldersHashEqually | MvsSln/Core/SolutionFolder.cs:72-75 | Equal folders have equal hash codes, whatever hash the headers use. |
| Projects.ItemsOrEmpty | MvsSln/Core/SolutionFolder.cs:194 | Null items become the empty sequence; otherwise the items are kept. |
| Projects.FromItem | MvsSln/Core/SolutionFolder.cs:190-195 | The header is the given item, and the items are the given ones or empty when null. |
| Projects.WithGuid | MvsSln/Core/SolutionFolder.cs:112-122 | ArgumentNull if and only if the GUID or the name is null. Otherwise the header carries that GUID, name and parent (by its header) with the folder project type. |
| Projects.WithName | MvsSln/Core/SolutionFolder.cs:139-147 | ArgumentNull if and only if the name is null. Otherwise a folder-typed header with that name and no parent. |
| Projects.WithNameAndParent | MvsSln/Core/SolutionFolder.cs:166-175 | ArgumentNull if and only if the name is null. Otherwise a folder-typed header with that name and parent (by its header). |
| Projects.ParentRef | MvsSln/Core/SolutionFolder.cs:119 | A null parent stays null; a parent folder is referred to by its header. |
| Projects.ParentItemsNotCompared | MvsSln/Core/SolutionFolder.cs:63-70 | Folders under parents with the same header are equal, whatever items those parents hold, since the parent box compares folders by header. |
| Projects.Copy | MvsSln/Core/SolutionFolder.cs:198-202 | Copies header and items, so the copy equals the original. |
| Projects.ConstructedFoldersHaveFolderType | MvsSln/Core/SolutionFolder.cs:112-175 | Every guid/name constructor that succeeds builds a header of the solution-folder project type. |
| RefTypes.RefType.constructor | MvsSln/Core/RefType.cs:80-83 | Stores its argument as the value. |
| RefTypes.RefType.Empty | MvsSln/Core/RefType.cs:85-88 | The parameterless constructor leaves the value null. |
| RefTypes.RefType.SetValue | MvsSln/Core/RefType.cs:33-37 | The `Value` setter stores exactly the new value. |
| RefTypes.RefType.Unwrap | MvsSln/Core/RefType.cs:39-45 | Converting to T gives the default (null) if and only if the box is null or holds null; for a box it gives its value. |
| RefTypes.RefType.Wrap | MvsSln/Core/RefType.cs:47-50 | Converting from T makes a new box that unwraps to the value. |
| RefTypes.WrapUnwrap | MvsSln/Core/RefType.cs:39-50 | Wrapping a value and unwrapping it returns the value. |
| RefTypes.RefType.IsNullish | MvsSln/Core/RefType.cs:54-58 | Definition: the box is null or holds null. |
| RefTypes.RefType.Equals | MvsSln/Core/RefType.cs:67-73 | False for null or another type. Fails with NullReference when this box holds null. Otherwise compares the values. |
| RefTypes.RefType.Eq | MvsSln/Core/RefType.cs:52-60 | `==` holds if and only if both sides unwrap to the same value, so a null box and a box holding null are alike. |
| RefTypes.RefType.NotEq | MvsSln/Core/RefType.cs:62-65 | `!=` is the negation of `==`. |
| RefTypes.RefType.HashCode | MvsSln/Core/RefType.cs:75-78 | Fails with NullReference if and only if the box holds null; otherwise the hash is the held value's hash. |
| RefTypes.EqualityCases | MvsSln/Core/RefType.cs:52-60 | Covers all four nullish and non-nullish combinations: two nullish boxes are equal, a nullish and a non-nullish box never are, two non-nullish boxes are equal exactly when their values are. `==` is symmetric. |
| RefTypes.EqualBoxesHashEqually | MvsSln/Core/RefType.cs:67-78 | Boxes that `Equals` calls equal have equal hash codes. |
| Configs.ConfigPrj.constructor | MvsSln/Core/ConfigPrj.cs:63-67 | Sets the configuration name, the platform, PGuid, IncludeInBuild and Sln exactly to the arguments. Sln is the very object passed in. |
| Configs.ConfigPrj.FromFormatted | MvsSln/Core/ConfigPrj.cs:69-73 | Sets the same three fields from the arguments. The name and platform come from the formatted string. |
| Configs.ConfigPrj.Set | MvsSln/Core/ConfigPrj.cs:75-80 | Assigns the three fields. |
| Configs.ConfigPrj.SetIncludeInBuild | MvsSln/Core/ConfigPrj.cs:48-52 | Changes only IncludeInBuild; PGuid and Sln stay. |
| Configs.MappedButNotBuilt | MvsSln/Core/ConfigPrj.cs:44-52 | A configuration can be linked to its solution configuration and still not be built: IncludeInBuild does not depend on Sln. |
| Results.SlnResult.constructor | MvsSln/Core/SlnResult.cs:158-166 | A new result has a new, empty Map list and every other property at its default. Map is a `const` reference, so it cannot be replaced afterwards. |
| Results.SlnResult.SolutionConfigs | MvsSln/Core/SlnResult.cs:62-65 | Always returns SolutionConfigList. |
| Results.SlnResult.ProjectConfigs | MvsSln/Core/SlnResult.cs:70-73 | Always returns ProjectConfigList. |
| Results.SlnResult.ProjectItems | MvsSln/Core/SlnResult.cs:87-90 | Always returns ProjectItemList. |
| Results.SlnResult.SolutionFolders | MvsSln/Core/SlnResult.cs:104-107 | Always returns SolutionFolderList. |
| Results.SlnResult.AddSection | MvsSln/Core/SlnResult.cs:162-166 | Adds to the one Map list in place: its contents grow by the one section, and only that list changes. |
| Results.SectionList.Add | MvsSln/Core/SlnResult.cs:162-166 | The list behind Map grows by exactly the one section. |
| Results.SlnResult.SetProjectDependencies | MvsSln/Core/SlnResult.cs:208-211 | Sets ProjectDependencies to the argument and changes nothing else. |
| Results.SlnResult.SetHeader | MvsSln/Core/SlnResult.cs:217-220 | Sets Header to the argument and changes nothing else. |
| Results.SlnResult.SetSolutionConfigList | MvsSln/Core/SlnResult.cs:171-175 | A new list is seen at once through the SolutionConfigs alias. |
| Results.SettersTouchOneField | MvsSln/Core/SlnResult.cs:208-220 | On a fresh result, SetHeader and SetProjectDependencies set their own fields. The Map stays empty, the alias lists stay unset, and neither setter undoes the other. |
| SlnHandlers.LAbstract.constructor | MvsSln/Core/SlnHandlers/LAbstract.cs:69-105 | LineControl starts as Process, and Id is derived from the handler type. |
| SlnHandlers.SameTypeSameId | MvsSln/Core/SlnHandlers/LAbstract.cs:102-105 | Two handlers of one type share their Id. |
| SlnHandlers.LAbstract.PreProcessing | MvsSln/Core/SlnHandlers/LAbstract.cs:88-91 | The default hook changes nothing. |
| SlnHandlers.LAbstract.PostProcessing | MvsSln/Core/SlnHandlers/LAbstract.cs:97-100 | The default hook changes nothing. |
| SlnHandlers.UpperAscii | MvsSln/Core/SlnHandlers/LAbstract.cs:119 | Definition: maps `a`-`z` to `A`-`Z` and leaves every other character unchanged. |
| SlnHandlers.EqualsIgnoreCase | MvsSln/Core/SlnHandlers/LAbstract.cs:119 | Definition: a non-null string of the same length that agrees character by character after upper-casing. |
| SlnHandlers.IsFolderType | MvsSln/Core/SlnHandlers/LAbstract.cs:119 | Definition: the project type equals the solution-folder GUID, ignoring case. |
| SlnHandlers.GetProjectItem | MvsSln/Core/SlnHandlers/LAbstract.cs:110-125 | Gives the default item with an error for a null GUID, and the default item with a debug message for a solution-folder type. Otherwise it gives the parsed item unchanged. So a non-default result always has a GUID and is not a folder. |
| SlnHandlers.LowerCaseFolderTypeDropped | MvsSln/Core/SlnHandlers/LAbstract.cs:119-122 | The folder check ignores case: a lower-case folder GUID is dropped too. |
| SlnHandlers.MissingGuidCheckedFirst | MvsSln/Core/SlnHandlers/LAbstract.cs:114-117 | The GUID check runs first: a missing GUID is reported as an error even for a folder. |
| SlnHandlers.FolderHeadersAreDropped | MvsSln/Core/SlnHandlers/LAbstract.cs:119-122 | A header built by any of the three solution-folder constructors (GUID and name, name, name and parent) is never returned as a project item. |

## Left out

- The writer's path constructors (MvsSln/Core/SlnWriter.cs:93-106) open a file with an encoding. This is file I/O; the model starts from an open stream.
- The stream's encoding, buffering and flushing are left out. Only the written lines and whether the stream was released are modelled.
- `Extract` of the registered writers is not shown, so it is the parameter `extract` of the writer: a function of the writer and its value.
- Writer.SlnWriter.Validate: the order in which `Handlers` is enumerated is not modelled. When several registered types break a rule, the model leaves open which one is reported; that one is a registered type that does break a rule.
- Writer.SlnWriter.Validate: the exception messages are not modelled, only the exception kind and the handler type it names. For a duplicated owner type, `ToDictionary`'s ArgumentException is `DuplicateKey`.
- Section handlers that are not `ISlnHandler`s are not modelled: every handler here is an `LAbstract`. Such handlers would be skipped by `GetSlnHandlers` and would not mark co-handlers.
- `CoHandlers` is a set, so duplicate entries in the collection are not modelled. That is a real difference. The first rule (MvsSln/Core/SlnWriter.cs:126) compares the distinct elements `Except` yields with `Count` of the collection itself. So a registered owner whose collection is `[A, A]` always throws CoHandlerRuleException, even when `A` is not registered. The set model lets that case pass.
- A null and an empty `CoHandlers` collection are the same empty set here. Both are filtered out at MvsSln/Core/SlnWriter.cs:119 and mark nothing at MvsSln/Core/SlnWriter.cs:168.
- `Dispose(bool disposing)` is virtual; only the base behaviour is modelled.
- The `Section.Clone` of the parser is not shown. Sections are values here, so a clone is a copy of the value that shares the handler object.
- `IsActivated`, `Condition` and `Positioned` of `LAbstract` are abstract and are not modelled, and neither are the parser that calls them, `ISvc`, `ISlnContainer`, `ISlnResultSvc` and `IRuleOfConfig`. Only the user-data store of `ISvc` is kept, so the no-op hooks have something to leave unchanged.
- MvsSln/Sln.cs is a file-opening wrapper around the parser and is not part of this model.
- The log (`LSender.Send`) of `GetProjectItem` becomes the `Level` of the diagnostic it would send. The message text is dropped.
- `ProjectItem(line, solutionDir)` parsing is not shown, so it is the parameter `parse` of `GetProjectItem`.
- `String.Equals(..., OrdinalIgnoreCase)` is ASCII case folding. This is exact here because the solution-folder GUID has ASCII letters only.
- `Guids.SLN_FOLDER` is not shown and is taken to be `{2150E333-8FDC-42A3-9474-1A3956D46DE8}`. `ProjectType.SlnFolder` is the header's project type with that GUID.
- `ProjectItem(name, type)` is not shown. The GUID it assigns to a named folder is the parameter `assignedGuid`.
- The `ProjectItem` constructors taking a GUID, a name, a type and a parent are not shown either. They are taken to store those values verbatim.
- `ProjectItem` equality is not shown. It is taken to be field by field, with the parent compared by `RefType`'s `==`, which stops at the parent folder's header.
- The parent folder is kept only by its header. Its items cannot be reached from a child's header in this model, although the C# box holds the whole folder.
- The `SolutionFolder` overloads that only forward to another constructor (MvsSln/Core/SolutionFolder.cs:81-105, 130-134, 156-160, 182-186) are not modelled separately. The `params` array and `Guid.SlnFormat` conversions are not shown.
- Projects.SolutionFolder.HashCode has no contract of its own. The header's hash is a parameter (`ProjectItem.GetHashCode` is not shown), and `Projects.EqualFoldersHashEqually` states what the source promises.
- `RawText.GetHashCode` (MvsSln/Core/RawText.cs:79-87) is not modelled. It combines hashes through `CalculateHashCode`, which is not shown.
- `Encoding` objects are compared by name, not by reference.
- The debugger-display properties are not modelled.
- `CopyTo` and the enumerators of `RoProperties` (MvsSln/Core/RoProperties.cs:59-65) are not modelled because they have no model of array positions or iteration order.
- The implicit conversion from `Dictionary`, and the non-generic `RoProperties` over strings (MvsSln/Core/RoProperties.cs:32-39, 67-70), are `Create` at other types.
- `RoProperties` is a value over a map. It does not capture that the C# view aliases a dictionary the caller may still change.
- RefTypes.RefType.Equals: `T` is taken to be a reference type, so `default(T)` is null. `Value.Equals` is equality of values. For a value type `T`, `default(T)` is not null and is not modelled.
- `ConfigItem` is not shown. Its name and platform formatting is the parameter `split` of `ConfigPrj.FromFormatted`.
- The base constructor `ConfigItem(name, platform)` is taken to store both arguments verbatim. So `Configs.ConfigPrj.constructor` sets the configuration name and the platform exactly to its arguments.
- The remaining `SlnResult` properties are plain fields, and their auto-setters are field assignments.
