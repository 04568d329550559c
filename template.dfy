/**
  Python's str.format(**kwargs) and string.Formatter().parse restricted to plain
  named fields: the substitution used for the `{uid}` placeholder of a fuzzer's
  outdir and command, and for the issue fields of a tracker's title and template.
 */
module Template {
  import opened Wrappers

  /** A template is read as literal characters and replacement fields. */
  datatype Piece = Char(c: char) | Field(name: string)

  /** The exceptions str.format raises, named after their messages. */
  datatype FormatError =
    | SingleCloseBrace                 // ValueError: Single '}' encountered in format string
    | SingleOpenBrace                  // ValueError: Single '{' encountered in format string
    | UnclosedField                    // ValueError: expected '}' before end of string
    | BraceInFieldName                 // ValueError: unexpected '{' in field name
    | UnsupportedField(prefix: string) // a conversion, format spec, attribute or index
    | MissingKey(name: string)         // KeyError: no keyword argument of that name
    | PositionalField(name: string)    // IndexError: "{}" or "{0}" with no positional arguments

  /** The pieces read before the first syntax error, and that error if there is one. */
  datatype Parsed = Parsed(pieces: seq<Piece>, error: Option<FormatError>)

  /** Characters that end a field name. */
  predicate IsFieldStop(c: char) {
    c == '{' || c == '}' || c == ':' || c == '!' || c == '.' || c == '['
  }

  predicate PlainName(name: string) {
    forall i :: 0 <= i < |name| ==> !IsFieldStop(name[i])
  }

  /** Every field of the pieces has a plain name, as every parsed field does. */
  predicate WellFormed(pieces: seq<Piece>) {
    forall i :: 0 <= i < |pieces| ==> pieces[i].Field? ==> PlainName(pieces[i].name)
  }

  /** The field names that occur in the pieces. */
  function FieldNames(pieces: seq<Piece>): set<string> {
    set i | 0 <= i < |pieces| && pieces[i].Field? :: pieces[i].name
  }

  /** Index of the first field-name stop at or after i, or |t|. */
  function FieldEnd(t: string, i: nat): (j: nat)
    requires i <= |t|
    ensures i <= j <= |t|
    ensures forall k :: i <= k < j ==> !IsFieldStop(t[k])
    ensures j < |t| ==> IsFieldStop(t[j])
    decreases |t| - i
  {
    if i == |t| || IsFieldStop(t[i]) then i else FieldEnd(t, i + 1)
  }

  function Cons(p: Piece, rest: Parsed): Parsed {
    Parsed([p] + rest.pieces, rest.error)
  }

  /**
    Formatter().parse(t), read left to right: "{{" and "}}" are literal braces,
    "{name}" is a field, and a lone brace is a syntax error.
   */
  function Parse(t: string): (p: Parsed)
    ensures WellFormed(p.pieces)
    decreases |t|
  {
    if t == [] then Parsed([], None)
    else if t[0] == '{' then
      if |t| == 1 then Parsed([], Some(SingleOpenBrace))
      else if t[1] == '{' then Cons(Char('{'), Parse(t[2..]))
      else
        var j := FieldEnd(t, 1);
        if j == |t| then Parsed([], Some(UnclosedField))
        else if t[j] == '{' then Parsed([], Some(BraceInFieldName))
        else if t[j] != '}' then Parsed([], Some(UnsupportedField(t[1..j])))
        else Cons(Field(t[1..j]), Parse(t[j + 1..]))
    else if t[0] == '}' then
      if |t| >= 2 && t[1] == '}' then Cons(Char('}'), Parse(t[2..]))
      else Parsed([], Some(SingleCloseBrace))
    else Cons(Char(t[0]), Parse(t[1..]))
  }

  /** An empty or all-digit field name indexes the positional arguments. */
  predicate IsPositional(name: string) {
    forall i :: 0 <= i < |name| ==> '0' <= name[i] <= '9'
  }

  /** The text a field stands for, given only keyword arguments. */
  function Lookup(name: string, kwargs: map<string, string>): (r: Result<string, FormatError>)
    ensures r.Ok? <==> !IsPositional(name) && name in kwargs
    ensures r.Ok? ==> r.value == kwargs[name]
  {
    if IsPositional(name) then Err(PositionalField(name))
    else if name in kwargs then Ok(kwargs[name])
    else Err(MissingKey(name))
  }

  /** The text of one piece: the character itself, or the field's keyword argument. */
  function PieceText(p: Piece, kwargs: map<string, string>): Result<string, FormatError>
  {
    if p.Char? then Ok([p.c]) else Lookup(p.name, kwargs)
  }

  /**
    The pieces rendered left to right; the first field that cannot be filled fails.
    Rendering succeeds exactly when every field is named (not positional) and has a
    keyword argument, and the only errors it raises are KeyError and IndexError.
   */
  function Render(pieces: seq<Piece>, kwargs: map<string, string>): (r: Result<string, FormatError>)
    ensures r.Ok? <==> forall n :: n in FieldNames(pieces) ==> !IsPositional(n) && n in kwargs
    ensures r.Err? ==> r.error.MissingKey? || r.error.PositionalField?
    decreases |pieces|
  {
    if pieces == [] then Ok("")
    else
      FieldNamesCons(pieces);
      var head := PieceText(pieces[0], kwargs);
      if head.Err? then Err(head.error)
      else
        match Render(pieces[1..], kwargs)
        case Err(e) => Err(e)
        case Ok(s) => Ok(head.value + s)
  }

  /**
    t.format(**kwargs). Fields are filled in order, so a field that cannot be filled
    fails before a syntax error that comes after it. The result is text exactly when
    the template parses cleanly and every field it names has a keyword argument.
   */
  function Format(t: string, kwargs: map<string, string>): (r: Result<string, FormatError>)
    ensures r.Ok? <==> (Parse(t).error == None &&
      forall n :: n in FieldNames(Parse(t).pieces) ==> !IsPositional(n) && n in kwargs)
    ensures Parse(t).error.Some? && r.Err? ==>
      r.error == Parse(t).error.value || r.error.MissingKey? || r.error.PositionalField?
  {
    var p := Parse(t);
    match Render(p.pieces, kwargs)
    case Err(e) => Err(e)
    case Ok(s) => if p.error.Some? then Err(p.error.value) else Ok(s)
  }

  /** The text of a piece in a template: literal braces doubled, fields in braces. */
  function UnparsePiece(p: Piece): string {
    match p
    case Char(c) => if c == '{' || c == '}' then [c, c] else [c]
    case Field(n) => "{" + n + "}"
  }

  /** A template that parses to the given pieces; the inverse of Parse. */
  function Unparse(pieces: seq<Piece>): string {
    if pieces == [] then "" else UnparsePiece(pieces[0]) + Unparse(pieces[1..])
  }

  /** Every brace of t is part of a "{uid}" placeholder. */
  predicate UidOnly(t: string)
    decreases |t|
  {
    if t == [] then true
    else if |t| >= 5 && t[..5] == "{uid}" then UidOnly(t[5..])
    else t[0] != '{' && t[0] != '}' && UidOnly(t[1..])
  }

  /** t with every "{uid}" placeholder replaced by uid. */
  function ReplaceUid(t: string, uid: string): string
    decreases |t|
  {
    if t == [] then ""
    else if |t| >= 5 && t[..5] == "{uid}" then uid + ReplaceUid(t[5..], uid)
    else [t[0]] + ReplaceUid(t[1..], uid)
  }

  // ---------------------------------------------------------------------------
  // Lemmas
  // ---------------------------------------------------------------------------

  lemma RenderCons(p: Piece, rest: seq<Piece>, kwargs: map<string, string>)
    ensures Render([p] + rest, kwargs) ==
      var head := PieceText(p, kwargs);
      if head.Err? then Err(head.error)
      else
        match Render(rest, kwargs)
        case Err(e) => Err(e)
        case Ok(s) => Ok(head.value + s)
  {
    assert ([p] + rest)[0] == p;
    assert ([p] + rest)[1..] == rest;
  }

  /** FieldEnd on "{" + name + "}" + rest stops at the closing brace. */
  lemma FieldEndOfName(t: string, name: string, rest: string)
    requires PlainName(name) && t == "{" + name + "}" + rest
    ensures FieldEnd(t, 1) == |name| + 1
  {
    var j := FieldEnd(t, 1);
    assert t[|name| + 1] == '}';
    assert forall k :: 1 <= k < |name| + 1 ==> t[k] == name[k - 1];
  }

  /** A field with a plain name followed by more text is read as that field. */
  lemma ParseField(n: string, u: string)
    requires PlainName(n)
    ensures Parse("{" + n + "}" + u) == Cons(Field(n), Parse(u))
  {
    var t := "{" + n + "}" + u;
    FieldEndOfName(t, n, u);
    assert t[0] == '{' && |t| >= 2;
    assert t[1] != '{';
    assert t[1..|n| + 1] == n;
    assert t[|n| + 2..] == u;
  }

  /** A literal character, doubled when it is a brace, followed by more text. */
  lemma ParseChar(c: char, u: string)
    ensures Parse(UnparsePiece(Char(c)) + u) == Cons(Char(c), Parse(u))
  {
    var t := UnparsePiece(Char(c)) + u;
    if c == '{' || c == '}' {
      assert t[2..] == u;
    } else {
      assert t[1..] == u;
    }
  }

  /** Parsing the text of well-formed pieces gives those pieces back, without error. */
  lemma {:induction false} ParseUnparse(pieces: seq<Piece>)
    requires WellFormed(pieces)
    ensures Parse(Unparse(pieces)) == Parsed(pieces, None)
    decreases |pieces|
  {
    if pieces != [] {
      var p, rest := pieces[0], pieces[1..];
      assert WellFormed(rest) by {
        forall i | 0 <= i < |rest| ensures rest[i].Field? ==> PlainName(rest[i].name) {
          assert rest[i] == pieces[i + 1];
        }
      }
      ParseUnparse(rest);
      var u := Unparse(rest);
      assert Unparse(pieces) == UnparsePiece(p) + u;
      assert pieces == [p] + rest;
      match p
      case Char(c) =>
        ParseChar(c, u);
      case Field(n) =>
        assert PlainName(n);
        ParseField(n, u);
    }
  }

  /** A template that parses without error is exactly the text of its pieces. */
  lemma {:induction false} UnparseParse(t: string)
    requires Parse(t).error == None
    ensures Unparse(Parse(t).pieces) == t
    decreases |t|
  {
    if t != [] {
      var p := Parse(t);
      if t[0] == '{' && t[1] == '{' {
        var q := Parse(t[2..]);
        assert p == Cons(Char('{'), q);
        UnparseParse(t[2..]);
        UnparseCons(Char('{'), q.pieces);
        assert t == "{{" + t[2..];
      } else if t[0] == '{' {
        var j := FieldEnd(t, 1);
        var q := Parse(t[j + 1..]);
        assert p == Cons(Field(t[1..j]), q);
        UnparseParse(t[j + 1..]);
        UnparseCons(Field(t[1..j]), q.pieces);
        assert t == "{" + t[1..j] + "}" + t[j + 1..];
      } else if t[0] == '}' {
        var q := Parse(t[2..]);
        assert p == Cons(Char('}'), q);
        UnparseParse(t[2..]);
        UnparseCons(Char('}'), q.pieces);
        assert t == "}}" + t[2..];
      } else {
        var q := Parse(t[1..]);
        assert p == Cons(Char(t[0]), q);
        UnparseParse(t[1..]);
        UnparseCons(Char(t[0]), q.pieces);
        assert t == [t[0]] + t[1..];
      }
    }
  }

  lemma UnparseCons(p: Piece, rest: seq<Piece>)
    ensures Unparse([p] + rest) == UnparsePiece(p) + Unparse(rest)
  {
    assert ([p] + rest)[1..] == rest;
  }

  lemma FieldNamesCons(pieces: seq<Piece>)
    requires pieces != []
    ensures FieldNames(pieces) ==
      FieldNames(pieces[1..]) + (if pieces[0].Field? then {pieces[0].name} else {})
  {
    forall n ensures n in FieldNames(pieces) <==>
      n in FieldNames(pieces[1..]) || (pieces[0].Field? && n == pieces[0].name) {
      if n in FieldNames(pieces) {
        var i :| 0 <= i < |pieces| && pieces[i].Field? && pieces[i].name == n;
        if i > 0 {
          assert pieces[1..][i - 1] == pieces[i];
        }
      }
      if n in FieldNames(pieces[1..]) {
        var i :| 0 <= i < |pieces[1..]| && pieces[1..][i].Field? && pieces[1..][i].name == n;
        assert pieces[i + 1] == pieces[1..][i];
      }
    }
  }

  /** A template whose only braces are "{uid}" placeholders parses without error. */
  lemma {:induction false} ParseUidOnly(t: string, uid: string)
    requires UidOnly(t)
    ensures Parse(t).error == None
    ensures Render(Parse(t).pieces, map["uid" := uid]) == Ok(ReplaceUid(t, uid))
    decreases |t|
  {
    var kwargs := map["uid" := uid];
    if t != [] {
      if |t| >= 5 && t[..5] == "{uid}" {
        var rest := t[5..];
        ParseUidOnly(rest, uid);
        assert t == "{" + "uid" + "}" + rest;
        ParseField("uid", rest);
        assert !IsPositional("uid") by { assert !('0' <= "uid"[0] <= '9'); }
        RenderCons(Field("uid"), Parse(rest).pieces, kwargs);
      } else {
        ParseUidOnly(t[1..], uid);
        assert Parse(t) == Cons(Char(t[0]), Parse(t[1..]));
        RenderCons(Char(t[0]), Parse(t[1..]).pieces, kwargs);
      }
    }
  }

  /**
    outdir.format(uid=uid) on a template whose only braces are "{uid}" replaces
    every placeholder with uid.
   */
  lemma FormatUid(t: string, uid: string)
    requires UidOnly(t)
    ensures Format(t, map["uid" := uid]) == Ok(ReplaceUid(t, uid))
  {
    ParseUidOnly(t, uid);
  }

  /** The literal characters of a brace-free text. */
  function Chars(a: string): (ps: seq<Piece>)
    ensures |ps| == |a|
    ensures forall i :: 0 <= i < |a| ==> ps[i] == Char(a[i])
  {
    if a == [] then [] else [Char(a[0])] + Chars(a[1..])
  }

  /** A brace-free prefix is read as literal characters. */
  lemma {:induction false} ParseLiteralPrefix(a: string, b: string)
    requires forall i :: 0 <= i < |a| ==> a[i] != '{' && a[i] != '}'
    ensures Parse(a + b) == Parsed(Chars(a) + Parse(b).pieces, Parse(b).error)
    decreases |a|
  {
    if a == [] {
      assert a + b == b;
    } else {
      ParseLiteralPrefix(a[1..], b);
      assert (a + b)[1..] == a[1..] + b;
      assert Chars(a) + Parse(b).pieces == [Char(a[0])] + (Chars(a[1..]) + Parse(b).pieces);
    }
  }

  /** A field without a keyword argument, after literal text, raises KeyError. */
  lemma FormatMissingField(a: string, name: string, rest: string, kwargs: map<string, string>)
    requires forall i :: 0 <= i < |a| ==> a[i] != '{' && a[i] != '}'
    requires PlainName(name) && !IsPositional(name) && name !in kwargs
    ensures Format(a + ("{" + name + "}" + rest), kwargs) == Err(MissingKey(name))
  {
    var b := "{" + name + "}" + rest;
    ParseField(name, rest);
    ParseLiteralPrefix(a, b);
    var ps := Chars(a) + ([Field(name)] + Parse(rest).pieces);
    assert Parse(a + b).pieces == ps;
    assert ps[|a|] == Field(name);
    assert forall i :: 0 <= i < |a| ==> ps[i].Char? && PieceText(ps[i], kwargs).Ok?;
    assert PieceText(ps[|a|], kwargs) == Err(MissingKey(name));
    RenderPrefixFails(ps, |a|, kwargs);
  }

  /**
    Any other named field in an outdir or command template raises KeyError, even
    one the shell was meant to see, such as an awk program.
   */
  lemma FormatOtherFieldFails(command: string, uid: string)
    requires command == "awk '{print $1}' > {uid}.txt"
    ensures Format(command, UidArguments(uid)) == Err(MissingKey("print $1"))
  {
    var a, name, rest := "awk '", "print $1", "' > {uid}.txt";
    assert command == a + ("{" + name + "}" + rest);
    assert forall i :: 0 <= i < |a| ==> a[i] != '{' && a[i] != '}';
    assert PlainName(name);
    assert !IsPositional(name) by { assert !('0' <= name[0] <= '9'); }
    assert name !in map["uid" := uid];
    FormatMissingField(a, name, rest, map["uid" := uid]);
  }

  /** The keyword arguments of outdir.format(uid=uid) and command.format(uid=uid). */
  function UidArguments(uid: string): map<string, string> {
    map["uid" := uid]
  }

  /** Literal text followed by one "{uid}" placeholder: the placeholder becomes uid. */
  lemma FormatLiteralThenUid(a: string, uid: string)
    requires forall i :: 0 <= i < |a| ==> a[i] != '{' && a[i] != '}'
    ensures Format(a + "{uid}", UidArguments(uid)) == Ok(a + uid)
  {
    var b := "{uid}";
    assert b == "{" + "uid" + "}" + "";
    ParseField("uid", "");
    ParseLiteralPrefix(a, b);
    var ps := Chars(a) + [Field("uid")];
    assert Parse(a + b) == Parsed(ps, None);
    assert !IsPositional("uid") by { assert !('0' <= "uid"[0] <= '9'); }
    RenderLiteralPrefix(a, [Field("uid")], UidArguments(uid));
    RenderCons(Field("uid"), [], UidArguments(uid));
    assert uid + "" == uid;
  }

  /** Literal characters render as themselves. */
  lemma {:induction false} RenderLiteralPrefix(a: string, rest: seq<Piece>, kwargs: map<string, string>)
    ensures Render(Chars(a) + rest, kwargs) ==
      match Render(rest, kwargs)
      case Err(e) => Err(e)
      case Ok(s) => Ok(a + s)
    decreases |a|
  {
    if a == [] {
      assert Chars(a) + rest == rest;
      assert Render(rest, kwargs).Ok? ==> a + Render(rest, kwargs).value == Render(rest, kwargs).value;
    } else {
      assert Chars(a) + rest == [Char(a[0])] + (Chars(a[1..]) + rest);
      RenderCons(Char(a[0]), Chars(a[1..]) + rest, kwargs);
      RenderLiteralPrefix(a[1..], rest, kwargs);
      assert PieceText(Char(a[0]), kwargs) == Ok([a[0]]);
      match Render(rest, kwargs)
      case Err(e) =>
      case Ok(s) =>
        assert Render(Chars(a[1..]) + rest, kwargs) == Ok(a[1..] + s);
        assert [a[0]] + (a[1..] + s) == a + s;
    }
  }

  /** Rendering fails with the error of the first piece that cannot be filled. */
  lemma {:induction false} RenderPrefixFails(pieces: seq<Piece>, k: nat, kwargs: map<string, string>)
    requires k < |pieces| && PieceText(pieces[k], kwargs).Err?
    requires forall i :: 0 <= i < k ==> PieceText(pieces[i], kwargs).Ok?
    ensures Render(pieces, kwargs) == Err(PieceText(pieces[k], kwargs).error)
    decreases k
  {
    if k > 0 {
      RenderPrefixFails(pieces[1..], k - 1, kwargs);
    }
  }
}
