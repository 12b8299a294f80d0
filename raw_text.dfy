/** RawText: one raw line of a solution file together with its trimmed form and its encoding. */
module Text {
  import opened Common

  /** An encoding, known only by its name. */
  datatype Encoding = Encoding(name: string)

  /** `Encoding.UTF8`, the default of the one-argument constructor. */
  const UTF8: Encoding := Encoding("utf-8")

  /** `Char.IsWhiteSpace`: the Unicode space separators, line and paragraph separators, and U+0009-U+000D, U+0085, U+00A0. */
  predicate IsWhiteSpace(c: char) {
    c == ' ' || ('\t' <= c <= '\r') || c == '\U{85}' || c == '\U{A0}' || c == '\U{1680}'
    || ('\U{2000}' <= c <= '\U{200A}') || c == '\U{2028}' || c == '\U{2029}'
    || c == '\U{202F}' || c == '\U{205F}' || c == '\U{3000}'
  }

  predicate AllWhiteSpace(s: string) {
    forall i :: 0 <= i < |s| ==> IsWhiteSpace(s[i])
  }

  /** Number of white-space characters at the start of `s`. */
  function LeadingWhiteSpace(s: string): (n: nat)
    ensures n <= |s|
    ensures AllWhiteSpace(s[..n])
    ensures n < |s| ==> !IsWhiteSpace(s[n])
  {
    if |s| == 0 || !IsWhiteSpace(s[0]) then 0 else 1 + LeadingWhiteSpace(s[1..])
  }

  /** Number of white-space characters at the end of `s`. */
  function TrailingWhiteSpace(s: string): (n: nat)
    ensures n <= |s|
    ensures AllWhiteSpace(s[|s| - n..])
    ensures n < |s| ==> !IsWhiteSpace(s[|s| - 1 - n])
  {
    if |s| == 0 || !IsWhiteSpace(s[|s| - 1]) then 0 else 1 + TrailingWhiteSpace(s[..|s| - 1])
  }

  /** `String.Trim()`: `s` without its leading and trailing white space. */
  function Trim(s: string): (r: string)
    ensures var a := LeadingWhiteSpace(s);
      a + |r| <= |s| && s[a..a + |r|] == r && AllWhiteSpace(s[..a]) && AllWhiteSpace(s[a + |r|..])
    ensures r == [] || (!IsWhiteSpace(r[0]) && !IsWhiteSpace(r[|r| - 1]))
  {
    var a := LeadingWhiteSpace(s);
    var rest := s[a..];
    var b := TrailingWhiteSpace(rest);
    assert s[a + (|rest| - b)..] == rest[|rest| - b..];
    rest[..|rest| - b]
  }

  lemma TrimIdempotent(s: string)
    ensures Trim(Trim(s)) == Trim(s)
  {
    var r := Trim(s);
    assert LeadingWhiteSpace(r) == 0;
    assert r[0..] == r;
  }

  /** The `RawText` struct; `data` and `trimmed` are null-able strings and `encoding` a null-able reference. */
  datatype RawText = RawText(encoding: Option<Encoding>, data: Option<string>, trimmed: Option<string>)
  {
    /** `ToString()` and the implicit conversion to string. */
    function ToString(): (r: Option<string>)
      ensures r == data
    {
      data
    }

    /** `Equals(object)`: false for null or another type, otherwise field-by-field. */
    function Equals(obj: Obj<RawText>): (r: bool)
      ensures r <==> obj == Inst(this)
    {
      match obj
      case NullRef => false
      case Foreign => false
      case Inst(b) => data == b.data && trimmed == b.trimmed && encoding == b.encoding
    }

    /** `operator ==`: a struct is never null, so this is `Equals` of the boxed operand. */
    function Eq(b: RawText): (r: bool)
      ensures r <==> (data == b.data && trimmed == b.trimmed && encoding == b.encoding)
    {
      Equals(Inst(b))
    }

    /** `operator !=`. */
    function NotEq(b: RawText): (r: bool)
      ensures r <==> !Eq(b)
      ensures r <==> this != b
    {
      !Eq(b)
    }
  }

  /** `RawText(string data, Encoding enc)`. */
  function NewRawText(data: Option<string>, enc: Option<Encoding>): (r: RawText)
    ensures r.data == data && r.encoding == enc
    ensures data.None? ==> r.trimmed.None?
    ensures data.Some? ==> r.trimmed.Some? && r.trimmed.value == Trim(data.value)
  {
    RawText(enc, data, if data.Some? then Some(Trim(data.value)) else None)
  }

  /** `RawText(string data)` and the implicit conversion from string: UTF-8 encoding. */
  function FromString(data: Option<string>): (r: RawText)
    ensures r.encoding == Some(UTF8) && r.data == data
    ensures r.trimmed == NewRawText(data, Some(UTF8)).trimmed
  {
    NewRawText(data, Some(UTF8))
  }

  /** string -> RawText -> string gives back the string. */
  lemma StringRoundTrip(s: Option<string>)
    ensures FromString(s).ToString() == s
  {
  }

  /** The converse does not hold: the encoding is lost and `trimmed` is recomputed. */
  lemma RawTextRoundTripLosesEncoding(r: RawText)
    requires r.encoding != Some(UTF8)
    ensures FromString(r.ToString()) != r
  {
  }

  /** A constructed RawText's trimmed text is already trimmed. */
  lemma TrimmedIsStable(data: string, enc: Option<Encoding>)
    ensures var t := NewRawText(Some(data), enc).trimmed.value; Trim(t) == t
  {
    TrimIdempotent(data);
  }
}
