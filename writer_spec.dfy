/**
 * What `SlnWriter.Write(sections)` computes, as functions: the clone step, the co-handler rule,
 * the selection of writable sections and the rendering of each one; with the lemmas about them.
 */
module WriterSpec {
  import opened Common
  import opened Text
  import opened SlnHandlers

  /** A registered writer (`IObjHandler`), known by identity. */
  type WriterId = nat
  /** The value a writer is given (`HandlerValue.value`), known by identity. */
  type HandlerData = nat

  /** `HandlerValue`: the writer for one handler type, possibly null, and its value. */
  datatype HandlerValue = HandlerValue(handler: Option<WriterId>, value: HandlerData)

  /** `IDictionary<Type, HandlerValue>`: the writers by handler type. */
  type Registry = map<HandlerType, HandlerValue>

  /** `handler.Extract(value)`: the text a writer produces, possibly null. */
  type Extractor = (WriterId, HandlerData) -> Option<string>

  // ---------------------------------------------------------------- clone

  /** `Select(s => s.Clone())` over the elements: a null section throws NullReferenceException. */
  function CloneEach(ss: seq<Option<Section>>): (r: Result<seq<Section>, Error>)
    ensures r.Success? <==> forall i :: 0 <= i < |ss| ==> ss[i].Some?
    ensures r.Success? ==> |r.value| == |ss| && forall i :: 0 <= i < |ss| ==> ss[i] == Some(r.value[i])
    ensures r.Failure? ==> r.error == NullReference
    decreases |ss|
  {
    if ss == [] then Success([])
    else
      var init := CloneEach(ss[..|ss| - 1]);
      if init.Failure? then init
      else if ss[|ss| - 1].None? then Failure(NullReference)
      else Success(init.value + [ss[|ss| - 1].value])
  }

  /**
   * `sections.Select(s => s.Clone()).ToArray()`: a null collection throws ArgumentNullException,
   * a null section NullReferenceException.
   */
  function CloneAll(sections: Option<seq<Option<Section>>>): (r: Result<seq<Section>, Error>)
    ensures sections.None? ==> r == Failure(ArgumentNull)
    ensures sections.Some? ==> (r.Success? <==> forall i :: 0 <= i < |sections.value| ==> sections.value[i].Some?)
    ensures sections.Some? && r.Success? ==>
              |r.value| == |sections.value| && forall i :: 0 <= i < |r.value| ==> sections.value[i] == Some(r.value[i])
    ensures sections.Some? && r.Failure? ==> r.error == NullReference
  {
    if sections.None? then Failure(ArgumentNull) else CloneEach(sections.value)
  }

  // ---------------------------------------------------------------- validation

  /** `GetSlnHandlers`: the distinct handler instances of all sections, ignored ones included. */
  function HandlersIn(ss: seq<Section>): set<LAbstract> {
    set s | s in ss && s.handler != null :: s.handler as LAbstract
  }

  /** The handlers of `coh`: those that declare co-handlers. */
  function CoOwners(hs: set<LAbstract>): set<LAbstract> {
    set h | h in hs && h.coHandlers != {}
  }

  /** `ToDictionary(key => key.GetType())` throws when two owners share a type. */
  predicate HasDuplicateKinds(c: set<LAbstract>) {
    exists a, b :: a in c && b in c && a != b && a.kind == b.kind
  }

  /** `coh.ContainsKey(k)`. */
  predicate HasCo(c: set<LAbstract>, k: HandlerType) {
    exists h :: h in c && h.kind == k
  }

  /** `coh[k]`. */
  function CoOf(c: set<LAbstract>, k: HandlerType): set<HandlerType> {
    set h, t | h in c && h.kind == k && t in h.coHandlers :: t
  }

  /**
   * The co-handler rule broken by a registered type `k`: when `k` owns co-handlers, one of them is
   * registered too; otherwise some owner lists `k` and is not registered itself.
   */
  predicate Violation(c: set<LAbstract>, registered: set<HandlerType>, k: HandlerType) {
    if HasCo(c, k) then CoOf(c, k) * registered != {}
    else exists h :: h in c && k in h.coHandlers && h.kind !in registered
  }

  /** `Validate(sections)` returns without throwing. */
  predicate ValidationPasses(ss: seq<Section>, registered: set<HandlerType>) {
    var c := CoOwners(HandlersIn(ss));
    !HasDuplicateKinds(c) && forall k :: k in registered ==> !Violation(c, registered, k)
  }

  lemma CoOfOwner(c: set<LAbstract>, h: LAbstract)
    requires h in c && !HasDuplicateKinds(c)
    ensures HasCo(c, h.kind) && CoOf(c, h.kind) == h.coHandlers
  {
  }

  /** For a registered owner, the first rule fails exactly when one of its co-handlers is registered. */
  lemma ParentRuleIff(c: set<LAbstract>, registered: set<HandlerType>, p: LAbstract)
    requires p in c && !HasDuplicateKinds(c)
    ensures Violation(c, registered, p.kind) <==> p.coHandlers * registered != {}
  {
    CoOfOwner(c, p);
  }

  /** Registering a handler type with co-handlers together with any one of them is refused. */
  lemma ParentWithCoHandlerRejected(ss: seq<Section>, registered: set<HandlerType>, p: LAbstract, child: HandlerType)
    requires p in HandlersIn(ss) && child in p.coHandlers
    requires p.kind in registered && child in registered
    ensures !ValidationPasses(ss, registered)
  {
    var c := CoOwners(HandlersIn(ss));
    assert p in c;
    if !HasDuplicateKinds(c) {
      CoOfOwner(c, p);
      assert child in CoOf(c, p.kind) * registered;
    }
  }

  /** A handler that lists its own type as a co-handler can never be registered. */
  lemma SelfListedHandlerRejected(ss: seq<Section>, registered: set<HandlerType>, p: LAbstract)
    requires p in HandlersIn(ss) && p.kind in p.coHandlers && p.kind in registered
    ensures !ValidationPasses(ss, registered)
  {
    ParentWithCoHandlerRejected(ss, registered, p, p.kind);
  }

  /** Registering an owner of co-handlers on its own passes, when no other owner shares its type and it does not list itself. */
  lemma ParentAlonePasses(ss: seq<Section>, p: LAbstract)
    requires p in CoOwners(HandlersIn(ss)) && !HasDuplicateKinds(CoOwners(HandlersIn(ss)))
    requires p.kind !in p.coHandlers
    ensures ValidationPasses(ss, {p.kind})
  {
    CoOfOwner(CoOwners(HandlersIn(ss)), p);
  }

  /** Registering a co-handler type whose owner, present in the sections, is not registered is refused. */
  lemma CoHandlerWithoutParentRejected(ss: seq<Section>, registered: set<HandlerType>, p: LAbstract, child: HandlerType)
    requires p in HandlersIn(ss) && child in p.coHandlers
    requires child in registered && p.kind !in registered
    requires forall h :: h in HandlersIn(ss) && h.kind == child ==> h.coHandlers == {}
    ensures !ValidationPasses(ss, registered)
  {
    var c := CoOwners(HandlersIn(ss));
    assert p in c;
    assert !HasCo(c, child);
    assert Violation(c, registered, child);
  }

  /**
   * The second rule does not apply to a registered type that owns co-handlers itself: such a type
   * passes when none of its own co-handlers is registered, even when an unregistered owner lists it.
   */
  lemma OwnerExemptFromSecondRule(c: set<LAbstract>, registered: set<HandlerType>, p: LAbstract, ch: LAbstract)
    requires p in c && ch in c && !HasDuplicateKinds(c)
    requires ch.kind in p.coHandlers && p.kind !in registered
    requires ch.coHandlers * registered == {}
    ensures exists h :: h in c && ch.kind in h.coHandlers && h.kind !in registered
    ensures !Violation(c, registered, ch.kind)
  {
    CoOfOwner(c, ch);
  }

  /** Registering only a co-handler type that owns co-handlers itself passes, with its owner unregistered. */
  lemma OwningChildAlonePasses(ss: seq<Section>, p: LAbstract, ch: LAbstract)
    requires CoOwners(HandlersIn(ss)) == {p, ch}
    requires p.kind != ch.kind && ch.kind in p.coHandlers && ch.kind !in ch.coHandlers
    ensures ValidationPasses(ss, {ch.kind})
  {
    var c := CoOwners(HandlersIn(ss));
    OwnerExemptFromSecondRule(c, {ch.kind}, p, ch);
  }

  /** With no writers registered only a duplicated owner type can make validation fail. */
  lemma EmptyRegistryPasses(ss: seq<Section>)
    requires !HasDuplicateKinds(CoOwners(HandlersIn(ss)))
    ensures ValidationPasses(ss, {})
  {
  }

  // ---------------------------------------------------------------- selection

  /** The types `WritableSections` has marked in `hTypes` after one more section. */
  function Step(seen: set<HandlerType>, s: Section, registered: set<HandlerType>): set<HandlerType> {
    if s.ignore || s.handler == null then seen
    else
      var marked := seen + s.handler.coHandlers;
      if s.handler.kind in marked then marked
      else if s.handler.kind in registered then marked + {s.handler.kind}
      else marked
  }

  /** `hTypes` after the sections `ss`. */
  function SeenAfter(ss: seq<Section>, registered: set<HandlerType>): set<HandlerType>
    decreases |ss|
  {
    if ss == [] then {} else Step(SeenAfter(ss[..|ss| - 1], registered), ss[|ss| - 1], registered)
  }

  /**
   * Section `i` is written: it is not ignored, and it has no handler or its handler's type is
   * marked neither by an earlier section nor by its own co-handlers.
   */
  predicate Kept(ss: seq<Section>, i: nat, registered: set<HandlerType>)
    requires i < |ss|
  {
    && !ss[i].ignore
    && (ss[i].handler == null || ss[i].handler.kind !in SeenAfter(ss[..i], registered) + ss[i].handler.coHandlers)
  }

  /** `WritableSections(sections)`: the kept sections, in order. */
  function Writable(ss: seq<Section>, registered: set<HandlerType>): (r: seq<Section>)
    ensures forall i :: 0 <= i < |r| ==> r[i] in ss && !r[i].ignore
    decreases |ss|
  {
    if ss == [] then []
    else Writable(ss[..|ss| - 1], registered) + (if Kept(ss, |ss| - 1, registered) then [ss[|ss| - 1]] else [])
  }

  /** The sections that are not ignored, in order. */
  function NonIgnored(ss: seq<Section>): (r: seq<Section>)
    ensures forall i :: 0 <= i < |r| ==> r[i] in ss && !r[i].ignore
    ensures forall i :: 0 <= i < |ss| && !ss[i].ignore ==> ss[i] in r
    decreases |ss|
  {
    if ss == [] then []
    else NonIgnored(ss[..|ss| - 1]) + (if ss[|ss| - 1].ignore then [] else [ss[|ss| - 1]])
  }

  /** The sections that are not ignored and have no handler, in order. */
  function Unowned(ss: seq<Section>): seq<Section>
    decreases |ss|
  {
    if ss == [] then []
    else Unowned(ss[..|ss| - 1]) + (if !ss[|ss| - 1].ignore && ss[|ss| - 1].handler == null then [ss[|ss| - 1]] else [])
  }

  /** `a` is `b` with some elements left out. */
  predicate IsSubsequence<T(==)>(a: seq<T>, b: seq<T>)
    decreases |b|
  {
    if a == [] then true
    else if b == [] then false
    else (a[|a| - 1] == b[|b| - 1] && IsSubsequence(a[..|a| - 1], b[..|b| - 1])) || IsSubsequence(a, b[..|b| - 1])
  }

  lemma PrefixOfPrefix<T>(ss: seq<T>, i: nat, j: nat)
    requires i <= j <= |ss|
    ensures ss[..j][..i] == ss[..i]
  {
  }

  lemma SubsequenceExtend<T>(a: seq<T>, b: seq<T>, x: T)
    requires IsSubsequence(a, b)
    ensures IsSubsequence(a, b + [x]) && IsSubsequence(a + [x], b + [x])
  {
    assert (b + [x])[..|b + [x]| - 1] == b;
    assert (a + [x])[..|a + [x]| - 1] == a;
  }

  lemma UnownedAppend(ws: seq<Section>, x: Section)
    ensures Unowned(ws + [x]) == Unowned(ws) + (if !x.ignore && x.handler == null then [x] else [])
  {
    assert (ws + [x])[..|ws + [x]| - 1] == ws;
  }

  /** The writable sections are a subsequence of the sections that are not ignored. */
  lemma {:induction false} WritableIsSubsequence(ss: seq<Section>, registered: set<HandlerType>)
    ensures IsSubsequence(Writable(ss, registered), NonIgnored(ss))
    decreases |ss|
  {
    if ss != [] {
      var init := ss[..|ss| - 1];
      var last := ss[|ss| - 1];
      WritableIsSubsequence(init, registered);
      var w, n := Writable(init, registered), NonIgnored(init);
      if !last.ignore {
        SubsequenceExtend(w, n, last);
        if !Kept(ss, |ss| - 1, registered) {
          assert Writable(ss, registered) == w + [] == w;
        }
      } else {
        assert Writable(ss, registered) == w + [] == w;
        assert NonIgnored(ss) == n + [] == n;
      }
    }
  }

  /** Every section with no handler is written: the unowned sections come out unchanged and in order. */
  lemma {:induction false} UnownedSectionsKept(ss: seq<Section>, registered: set<HandlerType>)
    ensures Unowned(Writable(ss, registered)) == Unowned(ss)
    decreases |ss|
  {
    if ss != [] {
      var init := ss[..|ss| - 1];
      var last := ss[|ss| - 1];
      UnownedSectionsKept(init, registered);
      var w := Writable(init, registered);
      if Kept(ss, |ss| - 1, registered) {
        UnownedAppend(w, last);
        if last.handler != null {
          assert Unowned(ss) == Unowned(init) + [] == Unowned(init);
          assert Unowned(w + [last]) == Unowned(w) + [] == Unowned(w);
        }
      } else {
        assert Writable(ss, registered) == w + [] == w;
        assert Unowned(ss) == Unowned(init) + [] == Unowned(init);
      }
    }
  }

  /** `hTypes` only grows. */
  lemma {:induction false} SeenMonotone(ss: seq<Section>, i: nat, j: nat, registered: set<HandlerType>)
    requires i <= j <= |ss|
    ensures SeenAfter(ss[..i], registered) <= SeenAfter(ss[..j], registered)
    decreases j
  {
    if i < j {
      SeenMonotone(ss, i, j - 1, registered);
      PrefixOfPrefix(ss, j - 1, j);
    }
  }

  /** Once a section's handler is seen, the types in its co-handler set are marked. */
  lemma MarkedAfter(ss: seq<Section>, i: nat, registered: set<HandlerType>)
    requires i < |ss| && !ss[i].ignore && ss[i].handler != null
    ensures ss[i].handler.coHandlers <= SeenAfter(ss[..i + 1], registered)
    ensures ss[i].handler.kind in registered && Kept(ss, i, registered) ==> ss[i].handler.kind in SeenAfter(ss[..i + 1], registered)
  {
    PrefixOfPrefix(ss, i, i + 1);
  }

  /** After a section whose handler lists co-handlers, every later section of one of those types is dropped. */
  lemma CoHandledSectionDropped(ss: seq<Section>, i: nat, j: nat, registered: set<HandlerType>)
    requires i < j < |ss|
    requires !ss[i].ignore && ss[i].handler != null && ss[j].handler != null
    requires ss[j].handler.kind in ss[i].handler.coHandlers
    ensures !Kept(ss, j, registered)
  {
    MarkedAfter(ss, i, registered);
    SeenMonotone(ss, i + 1, j, registered);
  }

  /**
   * Of the sections whose handler type is registered, only the first one is written, even when the
   * registered writer is null.
   */
  lemma RegisteredTypeWrittenOnce(ss: seq<Section>, i: nat, j: nat, registered: set<HandlerType>)
    requires i < j < |ss|
    requires ss[i].handler != null && ss[j].handler != null && ss[i].handler.kind == ss[j].handler.kind
    requires ss[i].handler.kind in registered
    requires Kept(ss, i, registered)
    ensures !Kept(ss, j, registered)
  {
    MarkedAfter(ss, i, registered);
    SeenMonotone(ss, i + 1, j, registered);
  }

  /** Section `i` marks type `t`: `t` is one of its co-handlers, or its own registered type when it is written. */
  predicate Marks(ss: seq<Section>, i: nat, registered: set<HandlerType>, t: HandlerType)
    requires i < |ss|
  {
    && !ss[i].ignore && ss[i].handler != null
    && (t in ss[i].handler.coHandlers || (ss[i].handler.kind == t && t in registered && Kept(ss, i, registered)))
  }

  /** Whether a section is kept depends only on it and the sections before it. */
  lemma KeptPrefix(ss: seq<Section>, n: nat, i: nat, registered: set<HandlerType>)
    requires i < n <= |ss|
    ensures Kept(ss[..n], i, registered) == Kept(ss, i, registered)
  {
    PrefixOfPrefix(ss, i, n);
  }

  /** Exactly the types some section marks are in `hTypes` after the pass. */
  lemma {:induction false} SeenExactly(ss: seq<Section>, registered: set<HandlerType>, t: HandlerType)
    ensures t in SeenAfter(ss, registered) <==> exists i :: 0 <= i < |ss| && Marks(ss, i, registered, t)
    decreases |ss|
  {
    if ss != [] {
      var n := |ss| - 1;
      var init := ss[..n];
      SeenExactly(init, registered, t);
      forall i | 0 <= i < n
        ensures Marks(init, i, registered, t) == Marks(ss, i, registered, t)
      {
        KeptPrefix(ss, n, i, registered);
      }
      if t in SeenAfter(ss, registered) {
        if t in SeenAfter(init, registered) {
          var i :| 0 <= i < n && Marks(init, i, registered, t);
          assert Marks(ss, i, registered, t);
        } else {
          assert Marks(ss, n, registered, t);
        }
      } else {
        forall i | 0 <= i < |ss|
          ensures !Marks(ss, i, registered, t)
        {
          if i < n {
            assert !Marks(init, i, registered, t);
          }
        }
      }
    }
  }

  /** A kept section is among the writable sections. */
  lemma {:induction false} KeptInWritable(ss: seq<Section>, i: nat, registered: set<HandlerType>)
    requires i < |ss| && Kept(ss, i, registered)
    ensures ss[i] in Writable(ss, registered)
    decreases |ss|
  {
    var n := |ss| - 1;
    if i < n {
      KeptPrefix(ss, n, i, registered);
      KeptInWritable(ss[..n], i, registered);
    }
  }

  /**
   * The first section of a handler type is written, registered or not, when no earlier section
   * lists that type as a co-handler and it does not list itself.
   */
  lemma FirstOfTypeWritten(ss: seq<Section>, i: nat, registered: set<HandlerType>)
    requires i < |ss| && !ss[i].ignore && ss[i].handler != null
    requires ss[i].handler.kind !in ss[i].handler.coHandlers
    requires forall j :: 0 <= j < i && !ss[j].ignore && ss[j].handler != null ==>
               ss[j].handler.kind != ss[i].handler.kind && ss[i].handler.kind !in ss[j].handler.coHandlers
    ensures Kept(ss, i, registered) && ss[i] in Writable(ss, registered)
  {
    var k := ss[i].handler.kind;
    SeenExactly(ss[..i], registered, k);
    forall j | 0 <= j < i
      ensures !Marks(ss[..i], j, registered, k)
    {
      assert ss[..i][j] == ss[j];
    }
    KeptInWritable(ss, i, registered);
  }

  // ---------------------------------------------------------------- rendering

  /** What `WriteLine` puts on a line: a null string gives an empty line. */
  function LineOf(s: Option<string>): string {
    if s.Some? then s.value else ""
  }

  /** `Handlers.ContainsKey(t) && Handlers[t].handler != null`. */
  predicate HasWriter(reg: Registry, t: HandlerType) {
    t in reg && reg[t].handler.Some?
  }

  /** `Write(section)` for a section that is not ignored: the writer's text, or the raw text. */
  function Render(s: Section, reg: Registry, extract: Extractor): string {
    if s.handler == null then LineOf(s.raw.data)
    else if HasWriter(reg, s.handler.kind) then
      LineOf(extract(reg[s.handler.kind].handler.value, reg[s.handler.kind].value))
    else LineOf(s.raw.data)
  }

  function RenderAll(ws: seq<Section>, reg: Registry, extract: Extractor): seq<string> {
    seq(|ws|, i requires 0 <= i < |ws| => Render(ws[i], reg, extract))
  }

  /** The raw text of each section, one line each. */
  function Texts(ws: seq<Section>): seq<string> {
    seq(|ws|, i requires 0 <= i < |ws| => LineOf(ws[i].raw.data))
  }

  /** The lines `Write(sections)` emits for the cloned sections once validation has passed. */
  function Output(ss: seq<Section>, reg: Registry, extract: Extractor): seq<string> {
    RenderAll(Writable(ss, reg.Keys), reg, extract)
  }

  /** A section with no handler, or whose type has no registered non-null writer, is written verbatim. */
  lemma RenderVerbatim(s: Section, reg: Registry, extract: Extractor)
    requires s.handler == null || !HasWriter(reg, s.handler.kind)
    ensures Render(s, reg, extract) == LineOf(s.raw.data)
  {
  }

  /** No section's handler type is a co-handler of any handler in the sections. */
  predicate NoCoHandled(ss: seq<Section>) {
    forall i, j :: 0 <= i < |ss| && 0 <= j < |ss| && ss[i].handler != null && ss[j].handler != null ==>
      ss[j].handler.kind !in ss[i].handler.coHandlers
  }

  /** No section's handler type is registered. */
  predicate NoneRegistered(ss: seq<Section>, registered: set<HandlerType>) {
    forall i :: 0 <= i < |ss| && ss[i].handler != null ==> ss[i].handler.kind !in registered
  }

  /** Without registered types or co-handlers, every section that is not ignored is written. */
  lemma {:induction false} WritableKeepsAll(ss: seq<Section>, registered: set<HandlerType>)
    requires NoCoHandled(ss) && NoneRegistered(ss, registered)
    ensures Writable(ss, registered) == NonIgnored(ss)
    decreases |ss|
  {
    if ss != [] {
      var init := ss[..|ss| - 1];
      var last := ss[|ss| - 1];
      assert forall i :: 0 <= i < |init| ==> init[i] == ss[i];
      WritableKeepsAll(init, registered);
      if !last.ignore && last.handler != null {
        var k := last.handler.kind;
        SeenExactly(init, registered, k);
        forall j | 0 <= j < |init|
          ensures !Marks(init, j, registered, k)
        {
          assert init[j] == ss[j];
        }
        assert Kept(ss, |ss| - 1, registered);
      }
    }
  }

  /**
   * The round trip: when no handler type is registered and no section is covered by another's
   * co-handlers, `Write(sections)` emits exactly the raw text of every section that is not ignored.
   */
  lemma VerbatimRoundTrip(ss: seq<Section>, reg: Registry, extract: Extractor)
    requires NoCoHandled(ss) && NoneRegistered(ss, reg.Keys)
    ensures Output(ss, reg, extract) == Texts(NonIgnored(ss))
  {
    WritableKeepsAll(ss, reg.Keys);
    var n := NonIgnored(ss);
    forall i | 0 <= i < |n|
      ensures Render(n[i], reg, extract) == LineOf(n[i].raw.data)
    {
      assert n[i] in ss;
      var j :| 0 <= j < |ss| && ss[j] == n[i];
    }
  }

}
