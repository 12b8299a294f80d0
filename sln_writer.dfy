/** SlnWriter: writes sections to a stream, through the registered writers, under the co-handler rule. */
module Writer {
  import opened Common
  import opened Text
  import opened SlnHandlers
  import opened WriterSpec

  /** The destination `StreamWriter`: the lines written so far and how many times it has been released. */
  class LineStream {
    var lines: seq<string>
    var releases: nat

    constructor()
      ensures lines == [] && releases == 0
    {
      lines := [];
      releases := 0;
    }

    /** `WriteLine(s)`: appends one line; a released stream throws ObjectDisposedException. */
    method WriteLine(s: string) returns (r: Outcome<Error>)
      modifies this
      ensures releases == old(releases)
      ensures old(releases) == 0 ==> r == Pass && lines == old(lines) + [s]
      ensures old(releases) > 0 ==> r == Fail(ObjectDisposed) && lines == old(lines)
    {
      if releases > 0 {
        return Fail(ObjectDisposed);
      }
      lines := lines + [s];
      return Pass;
    }

    /** `Dispose()`: releases the stream; what was written stays written. */
    method Dispose()
      modifies this
      ensures releases == old(releases) + 1 && lines == old(lines)
    {
      releases := releases + 1;
    }
  }

  class SlnWriter {
    const stream: LineStream
    /** `Handlers`: the writers by handler type. */
    const handlers: Registry
    /** What each registered writer's `Extract` returns for its value. */
    const extract: Extractor
    var disposed: bool
    /** The stream's release count when the writer took it over. */
    ghost const baseReleases: nat

    /** The writer has released its stream exactly when it is disposed. */
    ghost predicate Valid()
      reads this, stream
    {
      stream.releases == baseReleases + (if disposed then 1 else 0)
    }

    /** `SlnWriter(StreamWriter writer, IDictionary handlers)` once both arguments are known to be non-null. */
    constructor(writer: LineStream, handlers: Registry, extract: Extractor)
      ensures this.stream == writer && this.handlers == handlers && this.extract == extract
      ensures !disposed && baseReleases == writer.releases
      ensures Valid()
    {
      this.stream := writer;
      this.handlers := handlers;
      this.extract := extract;
      this.disposed := false;
      this.baseReleases := writer.releases;
    }

    /** `SlnWriter(StreamWriter writer, IDictionary handlers)`: a null stream or a null map throws ArgumentNullException. */
    static method Create(writer: LineStream?, handlers: Option<Registry>, extract: Extractor)
      returns (r: Result<SlnWriter, Error>)
      ensures r.Failure? <==> writer == null || handlers.None?
      ensures r.Failure? ==> r.error == ArgumentNull
      ensures r.Success? ==> && fresh(r.value) && r.value.stream == writer && r.value.handlers == handlers.value
                             && r.value.extract == extract && !r.value.disposed && r.value.Valid()
    {
      if writer == null || handlers.None? {
        return Failure(ArgumentNull);
      }
      var w := new SlnWriter(writer, handlers.value, extract);
      return Success(w);
    }

    /** `Write(string raw)`: one line on the stream; a null string gives an empty line. */
    method WriteLine(raw: Option<string>) returns (r: Outcome<Error>)
      modifies stream
      ensures stream.releases == old(stream.releases)
      ensures old(stream.releases) == 0 ==> r == Pass && stream.lines == old(stream.lines) + [LineOf(raw)]
      ensures old(stream.releases) > 0 ==> r == Fail(ObjectDisposed) && stream.lines == old(stream.lines)
    {
      r := stream.WriteLine(LineOf(raw));
    }

    /** `Write(ISection section)`. */
    method WriteSection(section: Option<Section>) returns (r: Outcome<Error>)
      modifies stream
      ensures stream.releases == old(stream.releases)
      ensures section.None? ==> r == Fail(ArgumentNull) && stream.lines == old(stream.lines)
      ensures section.Some? && section.value.ignore ==> r == Pass && stream.lines == old(stream.lines)
      ensures section.Some? && !section.value.ignore && old(stream.releases) == 0 ==>
                r == Pass && stream.lines == old(stream.lines) + [Render(section.value, handlers, extract)]
      ensures section.Some? && !section.value.ignore && old(stream.releases) > 0 ==>
                r == Fail(ObjectDisposed) && stream.lines == old(stream.lines)
    {
      if section.None? {
        return Fail(ArgumentNull);
      }
      var s := section.value;
      if s.ignore {
        return Pass;
      }
      if s.handler == null {
        r := WriteLine(s.raw.data);
        return;
      }
      var tid := s.handler.kind;
      if tid in handlers && handlers[tid].handler.Some? {
        r := WriteLine(extract(handlers[tid].handler.value, handlers[tid].value));
      } else {
        r := WriteLine(s.raw.data);
      }
    }

    /** `GetSlnHandlers`: the distinct handlers of the sections. */
    method GetSlnHandlers(ss: seq<Section>) returns (sh: set<LAbstract>)
      ensures sh == HandlersIn(ss)
    {
      sh := {};
      for i := 0 to |ss|
        invariant sh == HandlersIn(ss[..i])
      {
        HandlersInAppend(ss, i);
        if ss[i].handler != null {
          sh := sh + {ss[i].handler};
        }
      }
      assert ss[..|ss|] == ss;
    }

    /**
     * `Validate(sections)`: builds the owners of co-handlers by type, then checks every registered
     * type, in some order of the registry, against the two co-handler rules.
     */
    method Validate(ss: seq<Section>) returns (r: Outcome<Error>)
      ensures r.Pass? <==> ValidationPasses(ss, handlers.Keys)
      ensures r.Fail? && r.error.DuplicateKey? <==> HasDuplicateKinds(CoOwners(HandlersIn(ss)))
      ensures r.Fail? && !r.error.DuplicateKey? ==>
                r.error.CoHandlerRule? && r.error.handler in handlers
                && Violation(CoOwners(HandlersIn(ss)), handlers.Keys, r.error.handler)
    {
      var hs := GetSlnHandlers(ss);
      var coh := set h | h in hs && h.coHandlers != {};
      assert coh == CoOwners(HandlersIn(ss));
      if a, b :| a in coh && b in coh && a != b && a.kind == b.kind {
        return Fail(DuplicateKey(b.kind));
      }
      var keys := handlers.Keys;
      var todo := keys;
      while todo != {}
        invariant todo <= keys
        invariant forall k :: k in keys && k !in todo ==> !Violation(coh, keys, k)
        decreases |todo|
      {
        var k :| k in todo;
        if HasCo(coh, k) {
          var children := CoOf(coh, k);
          ExceptShrinks(children, keys);
          if |children - keys| != |children| {
            return Fail(CoHandlerRule(k));
          }
        } else {
          var parents := set h | h in coh && k in h.coHandlers :: h.kind;
          if |parents - keys| > 0 {
            return Fail(CoHandlerRule(k));
          }
          assert parents - keys == {};
          forall h | h in coh && k in h.coHandlers
            ensures h.kind in keys
          {
            assert h.kind in parents;
            assert h.kind !in parents - keys;
          }
        }
        todo := todo - {k};
      }
      return Pass;
    }

    /** `WritableSections(sections)`: one pass that marks subsumed and already written handler types. */
    method WritableSections(ss: seq<Section>) returns (ret: seq<Section>)
      ensures ret == Writable(ss, handlers.Keys)
    {
      ret := [];
      var hTypes: set<HandlerType> := {};
      for i := 0 to |ss|
        invariant hTypes == SeenAfter(ss[..i], handlers.Keys)
        invariant ret == Writable(ss[..i], handlers.Keys)
      {
        assert ss[..i + 1][..i] == ss[..i];
        var part := ss[i];
        if part.ignore {
          continue;
        }
        if part.handler == null {
          ret := ret + [part];
          continue;
        }
        hTypes := hTypes + part.handler.coHandlers;
        var tid := part.handler.kind;
        if tid in hTypes {
          continue;
        }
        if tid in handlers {
          hTypes := hTypes + {tid};
        }
        ret := ret + [part];
      }
      assert ss[..|ss|] == ss;
    }

    /**
     * `Write(IEnumerable<ISection> sections)`: clones, validates, selects, then writes each selected
     * section. A null collection, a null section or a broken co-handler rule throws before anything
     * is written.
     */
    method WriteSections(sections: Option<seq<Option<Section>>>) returns (r: Outcome<Error>)
      modifies stream
      ensures stream.releases == old(stream.releases)
      ensures CloneAll(sections).Failure? ==> r == Fail(CloneAll(sections).error) && stream.lines == old(stream.lines)
      ensures CloneAll(sections).Success? && !ValidationPasses(CloneAll(sections).value, handlers.Keys) ==>
                var owners := CoOwners(HandlersIn(CloneAll(sections).value));
                && r.Fail? && stream.lines == old(stream.lines)
                && (HasDuplicateKinds(owners) ==> r.error.DuplicateKey?)
                && (!HasDuplicateKinds(owners) ==>
                      r.error.CoHandlerRule? && r.error.handler in handlers && Violation(owners, handlers.Keys, r.error.handler))
      ensures CloneAll(sections).Success? && ValidationPasses(CloneAll(sections).value, handlers.Keys) ==>
                var out := Output(CloneAll(sections).value, handlers, extract);
                && (old(stream.releases) == 0 ==> r == Pass && stream.lines == old(stream.lines) + out)
                && (old(stream.releases) > 0 ==> stream.lines == old(stream.lines) && (r == Pass <==> out == []))
                && (old(stream.releases) > 0 && out != [] ==> r == Fail(ObjectDisposed))
    {
      var cloned := CloneAll(sections);
      if cloned.Failure? {
        return Fail(cloned.error);
      }
      var clones := cloned.value;
      r := Validate(clones);
      if r.Fail? {
        return;
      }
      var ws := WritableSections(clones);
      ghost var out := RenderAll(ws, handlers, extract);
      for i := 0 to |ws|
        invariant stream.releases == old(stream.releases)
        invariant old(stream.releases) == 0 ==> stream.lines == old(stream.lines) + out[..i]
        invariant old(stream.releases) > 0 ==> stream.lines == old(stream.lines) && i == 0
      {
        var o := WriteSection(Some(ws[i]));
        if o.Fail? {
          return o;
        }
        assert out[..i + 1] == out[..i] + [out[i]];
      }
      assert out[..|ws|] == out;
      return Pass;
    }

    /** `Dispose()`: the first call releases the stream, later calls do nothing. */
    method Dispose()
      modifies this, stream
      ensures disposed
      ensures stream.lines == old(stream.lines)
      ensures old(Valid()) ==> Valid() && stream.releases == baseReleases + 1
      ensures stream.releases == old(stream.releases) + (if old(disposed) then 0 else 1)
    {
      if disposed {
        return;
      }
      disposed := true;
      stream.Dispose();
    }
  }

  /** `Except(keys).Count() != Count` holds exactly when some element is in `keys`. */
  lemma ExceptShrinks<T>(a: set<T>, b: set<T>)
    ensures |a - b| == |a| <==> a * b == {}
  {
    if a * b != {} {
      var x :| x in a * b;
      SubsetSmaller(a - b, a - {x});
    } else {
      assert a - b == a;
    }
  }

  lemma {:induction false} SubsetSmaller<T>(a: set<T>, b: set<T>)
    requires a <= b
    ensures |a| <= |b|
    decreases |b|
  {
    if b != {} {
      var x :| x in b;
      SubsetSmaller(a - {x}, b - {x});
    }
  }

  lemma HandlersInAppend(ss: seq<Section>, i: nat)
    requires i < |ss|
    ensures HandlersIn(ss[..i + 1]) == HandlersIn(ss[..i]) + (if ss[i].handler != null then {ss[i].handler as LAbstract} else {})
  {
    assert ss[..i + 1] == ss[..i] + [ss[i]];
  }
}
