/**
  The pure issue functions of the tracker base class: decode_issue, title and the
  placeholder substitution of format_issue. They read no tracker state other than
  the configured title format and template text, which are passed in.
 */
module Issues {
  import opened Wrappers
  import Lines
  import Utf8
  import Template

  /**
    A value of an issue record: text, raw bytes, or any other object, carried as the
    text format() gives for it.
   */
  datatype Value = Text(s: string) | Bytes(b: seq<Utf8.byte>) | Other(shown: string)

  /** An issue record: field name to value. */
  type Issue = map<string, Value>

  /** The reserved key decode_issue removes. */
  const IdentityKey := "_id"

  /** The key the title falls back to. */
  const IdKey := "id"

  /** No value of the record is still raw bytes. */
  predicate Decoded(d: Issue) {
    forall k :: k in d ==> !d[k].Bytes?
  }

  /**
    universal_newlines of decode_issue: bytes are decoded as UTF-8 dropping invalid
    bytes, then text gets '\n'.join(text.splitlines()); other values are unchanged.
   */
  function DecodeValue(v: Value): (r: Value)
    ensures !r.Bytes?
    ensures v.Other? ==> r == v
    ensures r.Text? ==> Lines.NewlinesOnly(r.s)
  {
    match v
    case Text(s) => Text(Lines.UniversalNewlines(s))
    case Bytes(b) => Text(Lines.UniversalNewlines(Utf8.DecodeIgnore(b)))
    case Other(_) => v
  }

  /** decode_issue: every entry except '_id', with its value decoded. */
  function DecodeIssue(issue: Issue): (d: Issue)
    ensures d.Keys == issue.Keys - {IdentityKey}
    ensures forall k :: k in d ==> d[k] == DecodeValue(issue[k])
    ensures Decoded(d)
  {
    map k | k in issue && k != IdentityKey :: DecodeValue(issue[k])
  }

  /** The text format() gives a decoded value. */
  function Display(v: Value): string
    requires !v.Bytes?
  {
    if v.Text? then v.s else v.shown
  }

  /** issue.get(name, '') as the text it is formatted to. */
  function FieldText(d: Issue, name: string): string
    requires Decoded(d)
  {
    if name in d then Display(d[name]) else ""
  }

  /**
    The keyword arguments title and format_issue build: one entry per field name the
    template mentions, holding the issue's value for that name or '' when it has none.
   */
  function FieldArguments(pieces: seq<Template.Piece>, d: Issue): (kwargs: map<string, string>)
    requires Decoded(d)
    ensures kwargs.Keys == Template.FieldNames(pieces)
  {
    map n | n in Template.FieldNames(pieces) :: FieldText(d, n)
  }

  /**
    The substitution of title and format_issue: the template is parsed once to
    collect its field names, then formatted with each name bound to the issue's
    value, or to '' when the issue has no such field.
   */
  function Substitute(t: string, d: Issue): (r: Result<string, Template.FormatError>)
    requires Decoded(d)
    ensures r.Ok? <==> (Template.Parse(t).error == None &&
      forall n :: n in Template.FieldNames(Template.Parse(t).pieces) ==> !Template.IsPositional(n))
    ensures r.Ok? ==> r.value == Filled(Template.Parse(t).pieces, d)
  {
    var p := Template.Parse(t);
    if p.error.Some? then Err(p.error.value)
    else
      NamedFieldsFill(p.pieces, d);
      Template.Format(t, FieldArguments(p.pieces, d))
  }

  /** The reference reading: literal characters kept, each field replaced by its text. */
  function Filled(pieces: seq<Template.Piece>, d: Issue): string
    requires Decoded(d)
  {
    if pieces == [] then ""
    else
      (if pieces[0].Char? then [pieces[0].c] else FieldText(d, pieces[0].name))
      + Filled(pieces[1..], d)
  }

  datatype TitleError =
    | TitleFormatFailed(error: Template.FormatError)
    | MissingId  // KeyError: 'id'

  /**
    title: with a non-empty title format, the substituted format; with None or '',
    the decoded issue's 'id' value itself.
   */
  function Title(titleFormat: Option<string>, issue: Issue): (r: Result<Value, TitleError>)
    ensures r.Ok? ==> !r.value.Bytes?
    ensures (titleFormat == None || titleFormat == Some("")) ==>
      (r.Ok? <==> IdKey in issue) && (r.Ok? ==> r.value == DecodeValue(issue[IdKey]))
    ensures titleFormat.Some? && titleFormat.value != "" ==>
      (r.Ok? <==> (Template.Parse(titleFormat.value).error == None &&
        forall n :: n in Template.FieldNames(Template.Parse(titleFormat.value).pieces) ==>
          !Template.IsPositional(n))) &&
      (r.Ok? ==> r.value == Text(Filled(Template.Parse(titleFormat.value).pieces, DecodeIssue(issue))))
  {
    var d := DecodeIssue(issue);
    if titleFormat.Some? && titleFormat.value != "" then
      match Substitute(titleFormat.value, d)
      case Ok(s) => Ok(Text(s))
      case Err(e) => Err(TitleFormatFailed(e))
    else if IdKey in d then Ok(d[IdKey])
    else Err(MissingId)
  }

  /** format_issue with a template file: the file's text, substituted like a title. */
  function FormatIssue(templateText: string, issue: Issue): (r: Result<string, Template.FormatError>)
    ensures r.Ok? <==> (Template.Parse(templateText).error == None &&
      forall n :: n in Template.FieldNames(Template.Parse(templateText).pieces) ==>
        !Template.IsPositional(n))
    ensures r.Ok? ==> r.value == Filled(Template.Parse(templateText).pieces, DecodeIssue(issue))
  {
    Substitute(templateText, DecodeIssue(issue))
  }

  // ---------------------------------------------------------------------------
  // Lemmas
  // ---------------------------------------------------------------------------

  /** Rendering with arguments that agree with the issue gives the reference text. */
  lemma {:induction false} RenderFilled(pieces: seq<Template.Piece>, kwargs: map<string, string>, d: Issue)
    requires Decoded(d)
    requires forall n :: n in Template.FieldNames(pieces) ==>
      !Template.IsPositional(n) && n in kwargs && kwargs[n] == FieldText(d, n)
    ensures Template.Render(pieces, kwargs) == Ok(Filled(pieces, d))
    decreases |pieces|
  {
    if pieces != [] {
      Template.FieldNamesCons(pieces);
      RenderFilled(pieces[1..], kwargs, d);
    }
  }

  /** Without positional fields, the built keyword arguments render the reference text. */
  lemma NamedFieldsFill(pieces: seq<Template.Piece>, d: Issue)
    requires Decoded(d)
    ensures (forall n :: n in Template.FieldNames(pieces) ==> !Template.IsPositional(n)) ==>
      Template.Render(pieces, FieldArguments(pieces, d)) == Ok(Filled(pieces, d))
  {
    if forall n :: n in Template.FieldNames(pieces) ==> !Template.IsPositional(n) {
      RenderFilled(pieces, FieldArguments(pieces, d), d);
    }
  }

  /** A field the issue lacks is filled exactly as if it held the empty text. */
  lemma MissingFieldIsEmpty(t: string, d: Issue, name: string)
    requires Decoded(d) && name !in d
    ensures Decoded(d[name := Text("")])
    ensures Substitute(t, d) == Substitute(t, d[name := Text("")])
  {
    var e := d[name := Text("")];
    var p := Template.Parse(t);
    assert FieldArguments(p.pieces, d) == FieldArguments(p.pieces, e);
  }

  /** Removing '_id' keeps 'id', and a text 'id' is normalised like any other text. */
  lemma DecodeIssueExample(issue: Issue)
    requires issue == map["_id" := Text("5f2b"), "id" := Text("X"), "log" := Text("a\r\nb\rc\n")]
    ensures DecodeIssue(issue) == map["id" := Text("X"), "log" := Text("a\nb\nc")]
  {
    Lines.UniversalNewlinesFixedPoint("X");
    Lines.UniversalNewlinesExample("a\r\nb\rc\n");
    DecodeThreeKeys(issue, "_id", "id", "log");
  }

  /** decode_issue on a record with '_id' and two other keys. */
  lemma DecodeThreeKeys(issue: Issue, a: string, b: string, c: string)
    requires a == IdentityKey && b != a && c != a && b != c
    requires issue.Keys == {a, b, c}
    ensures DecodeIssue(issue) == map[b := DecodeValue(issue[b]), c := DecodeValue(issue[c])]
  {
    var d := DecodeIssue(issue);
    var e := map[b := DecodeValue(issue[b]), c := DecodeValue(issue[c])];
    assert d.Keys == e.Keys;
  }

  /** decode_issue is not idempotent: "a\n\n" becomes "a\n" and then "a". */
  lemma DecodeIssueNotIdempotent(issue: Issue)
    requires issue == map["log" := Text("a\n\n")]
    ensures DecodeIssue(issue) == map["log" := Text("a\n")]
    ensures DecodeIssue(DecodeIssue(issue)) == map["log" := Text("a")]
  {
    Lines.UniversalNewlinesNotIdempotent();
  }

  /** Bytes that are the UTF-8 encoding of a text decode exactly as that text does. */
  lemma DecodeEncodedBytes(s: string)
    ensures DecodeValue(Bytes(Utf8.Encode(s))) == DecodeValue(Text(s))
  {
    Utf8.DecodeEncode(s);
  }

  /** Every decoded text splits at '\n' into exactly the source's splitlines(). */
  lemma DecodedLines(v: Value)
    requires v.Text? && v.s != []
    ensures Lines.SplitAtNewlines(DecodeValue(v).s) == Lines.SplitLines(v.s)
  {
    Lines.LinesOfUniversalNewlines(v.s);
  }

  /** "{id}: {summary}" on an issue with only an id gives "42: ". */
  lemma TitleExample(titleFormat: string, issue: Issue)
    requires titleFormat == "{id}: {summary}"
    requires issue == map["id" := Text("42")]
    ensures Title(Some(titleFormat), issue) == Ok(Text("42: "))
  {
    Lines.UniversalNewlinesFixedPoint("42");
    var d := DecodeIssue(issue);
    assert d == issue;
    SubstituteExample(titleFormat, d);
  }

  lemma SubstituteExample(t: string, d: Issue)
    requires t == "{id}: {summary}"
    requires d == map["id" := Text("42")]
    ensures Substitute(t, d) == Ok("42: ")
  {
    assert t == "{" + "id" + "}" + (":" + (" " + ("{" + "summary" + "}" + "")));
    assert !Template.IsPositional("id") by { assert !('0' <= "id"[0] <= '9'); }
    assert !Template.IsPositional("summary") by { assert !('0' <= "summary"[0] <= '9'); }
    SubstituteTwoFields(t, d, "id", "summary");
    assert |"summary"| != |"id"|;
    assert FieldText(d, "id") == "42" && FieldText(d, "summary") == "";
    assert "42" + (":" + (" " + "")) == "42: ";
  }

  /** "{a}: {b}" is filled with the issue's two values around the literal ": ". */
  lemma SubstituteTwoFields(t: string, d: Issue, a: string, b: string)
    requires Decoded(d)
    requires Template.PlainName(a) && !Template.IsPositional(a)
    requires Template.PlainName(b) && !Template.IsPositional(b)
    requires t == "{" + a + "}" + (":" + (" " + ("{" + b + "}" + "")))
    ensures Substitute(t, d) == Ok(FieldText(d, a) + (":" + (" " + FieldText(d, b))))
  {
    var pieces := [Template.Field(a), Template.Char(':'), Template.Char(' '), Template.Field(b)];
    ParseTwoFields(t, a, b);
    FillTwoFields(pieces, d, a, b);
  }

  lemma FillTwoFields(pieces: seq<Template.Piece>, d: Issue, a: string, b: string)
    requires Decoded(d)
    requires pieces == [Template.Field(a), Template.Char(':'), Template.Char(' '), Template.Field(b)]
    ensures Template.FieldNames(pieces) == {a, b}
    ensures Filled(pieces, d) == FieldText(d, a) + (":" + (" " + FieldText(d, b)))
  {
    var p1 := pieces[1..];
    var p2 := p1[1..];
    var p3 := p2[1..];
    assert p3 == [Template.Field(b)] && p3[1..] == [];
    assert p2[0] == Template.Char(' ') && p1[0] == Template.Char(':');
    Template.FieldNamesCons(pieces);
    Template.FieldNamesCons(p1);
    Template.FieldNamesCons(p2);
    Template.FieldNamesCons(p3);
    var y := FieldText(d, b);
    assert Filled(p3, d) == y + "";
    assert Filled(p2, d) == " " + y;
    assert Filled(p1, d) == ":" + (" " + y);
  }

  /** "{a}: {b}" reads as the two fields around the literal ": ". */
  lemma ParseTwoFields(t: string, a: string, b: string)
    requires Template.PlainName(a) && Template.PlainName(b)
    requires t == "{" + a + "}" + (":" + (" " + ("{" + b + "}" + "")))
    ensures Template.Parse(t) ==
      Template.Parsed([Template.Field(a), Template.Char(':'), Template.Char(' '), Template.Field(b)], None)
  {
    var u3 := "{" + b + "}" + "";
    var u2 := " " + u3;
    var u1 := ":" + u2;
    var p3 := [Template.Field(b)];
    var p2 := [Template.Char(' ')] + p3;
    var p1 := [Template.Char(':')] + p2;
    Template.ParseField(b, "");
    assert Template.Parse(u3) == Template.Parsed(p3, None);
    Template.ParseChar(' ', u3);
    assert Template.Parse(u2) == Template.Parsed(p2, None);
    Template.ParseChar(':', u2);
    assert Template.Parse(u1) == Template.Parsed(p1, None);
    Template.ParseField(a, u1);
    assert [Template.Field(a)] + p1 == [Template.Field(a), Template.Char(':'), Template.Char(' '), Template.Field(b)];
  }

  /** format_issue fills a template exactly as title fills the same text as its format. */
  lemma FormatIssueIsTitleSubstitution(t: string, issue: Issue)
    requires t != ""
    ensures FormatIssue(t, issue).Ok? <==> Title(Some(t), issue).Ok?
    ensures FormatIssue(t, issue).Ok? ==> Title(Some(t), issue) == Ok(Text(FormatIssue(t, issue).value))
  {
  }
}
