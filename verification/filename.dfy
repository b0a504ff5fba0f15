/**
 * The filename resolver of the download pipeline: sanitising track fields, a grammar for
 * the `str.format` templates the user configures, and the rendered filename with its
 * fallback form.
 */
module Filename {
  import opened Options
  import opened Strings
  import opened Catalog

  // ---------------------------------------------------------------------------
  // Sanitising
  // ---------------------------------------------------------------------------

  // The nine characters sanitising deletes: backslash, slash, star, question mark, colon,
  // double quote, less-than, greater-than and vertical bar.
  predicate Forbidden(c: char)
  {
    c in {'\\', '/', '*', '?', ':', '"', '<', '>', '|'}
  }

  /** No character of `s` is forbidden in a filename. */
  predicate Clean(s: string)
  {
    forall i :: 0 <= i < |s| ==> !Forbidden(s[i])
  }

  // The regular-expression substitution of the resolver: every forbidden character deleted.
  function Sanitize(s: string): (r: string)
    ensures Clean(r)
    ensures |r| <= |s|
  {
    if s == [] then []
    else (if Forbidden(s[0]) then [] else [s[0]]) + Sanitize(s[1..])
  }

  /** Sanitising works character by character: it distributes over concatenation. */
  lemma {:induction false} SanitizeAppend(a: string, b: string)
    ensures Sanitize(a + b) == Sanitize(a) + Sanitize(b)
    decreases |a|
  {
    if a == [] {
      assert a + b == b;
    } else {
      assert (a + b)[1..] == a[1..] + b;
      SanitizeAppend(a[1..], b);
    }
  }

  /** A string with nothing forbidden in it is left exactly as it is. */
  lemma {:induction false} SanitizeKeepsClean(s: string)
    requires Clean(s)
    ensures Sanitize(s) == s
    decreases |s|
  {
    if s != [] {
      assert Clean(s[1..]);
      SanitizeKeepsClean(s[1..]);
    }
  }

  /** Sanitising twice is sanitising once. */
  lemma SanitizeIdempotent(s: string)
    ensures Sanitize(Sanitize(s)) == Sanitize(s)
  {
    SanitizeKeepsClean(Sanitize(s));
  }

  /**
   * Only forbidden characters go: every other character occurs in the result exactly as
   * often as in the input, and no forbidden one occurs at all.
   */
  lemma {:induction false} SanitizeCounts(s: string, c: char)
    ensures multiset(Sanitize(s))[c] == if Forbidden(c) then 0 else multiset(s)[c]
    decreases |s|
  {
    if s != [] {
      SanitizeCounts(s[1..], c);
      assert s == [s[0]] + s[1..];
      assert multiset(s) == multiset{s[0]} + multiset(s[1..]);
    }
  }

  /** Joining with ", " and then sanitising equals sanitising each name and joining. */
  lemma {:induction false} SanitizeJoin(names: seq<string>)
    ensures Sanitize(Join(names, ", ")) == Join(SanitizeAll(names), ", ")
    decreases |names|
  {
    if |names| > 1 {
      assert Sanitize(", ") == ", ";
      SanitizeAppend(names[0], ", ");
      SanitizeAppend(names[0] + ", ", Join(names[1..], ", "));
      assert SanitizeAll(names)[1..] == SanitizeAll(names[1..]);
      SanitizeJoin(names[1..]);
    }
  }

  /** Each name sanitised on its own. */
  function SanitizeAll(names: seq<string>): (r: seq<string>)
    ensures |r| == |names|
    ensures forall i :: 0 <= i < |names| ==> r[i] == Sanitize(names[i])
  {
    if names == [] then [] else [Sanitize(names[0])] + SanitizeAll(names[1..])
  }

  // ---------------------------------------------------------------------------
  // Templates: literals, the escapes `{{` and `}}`, and `{name}` fields
  // ---------------------------------------------------------------------------

  /** One element of a parsed template. */
  datatype Piece = Literal(c: char) | Field(name: string)

  /** A field name with no brace in it. */
  predicate PlainName(n: string)
  {
    forall i :: 0 <= i < |n| ==> n[i] != '{' && n[i] != '}'
  }

  /** Every field of `ps` has a plain name. */
  predicate WellFormed(ps: seq<Piece>)
  {
    forall i :: 0 <= i < |ps| ==> ps[i].Field? ==> PlainName(ps[i].name)
  }

  /** The index of the `}` that closes a field whose name starts at `i`. */
  function CloseAt(t: string, i: nat): (r: Option<nat>)
    ensures r.Some? ==> i <= r.value < |t| && t[r.value] == '}' && PlainName(t[i..r.value])
    decreases |t| - i
  {
    if i >= |t| then None
    else if t[i] == '}' then Some(i)
    else if t[i] == '{' then None
    else CloseAt(t, i + 1)
  }

  /** The first brace after `i`, when it is a `}`, closes the field. */
  lemma {:induction false} CloseAtFinds(t: string, i: nat, j: nat)
    requires i <= j < |t| && t[j] == '}' && PlainName(t[i..j])
    ensures CloseAt(t, i) == Some(j)
    decreases j - i
  {
    if i < j {
      assert t[i] == t[i..j][0];
      assert t[i + 1..j] == t[i..j][1..];
      CloseAtFinds(t, i + 1, j);
    }
  }

  function Cons(p: Piece, rest: Option<seq<Piece>>): Option<seq<Piece>>
  {
    if rest.None? then None else Some([p] + rest.value)
  }

  /**
   * How `str.format` reads a template: `{{` and `}}` stand for one brace, `{name}` is a
   * field, and a lone `}`, a `{` never closed or a `{` inside a field name is an error.
   */
  function Parse(t: string): (r: Option<seq<Piece>>)
    decreases |t|
  {
    if t == [] then Some([])
    else if t[0] == '{' then
      if |t| > 1 && t[1] == '{' then Cons(Literal('{'), Parse(t[2..]))
      else
        (match CloseAt(t, 1)
         case None => None
         case Some(j) => Cons(Field(t[1..j]), Parse(t[j + 1..])))
    else if t[0] == '}' then
      if |t| > 1 && t[1] == '}' then Cons(Literal('}'), Parse(t[2..])) else None
    else Cons(Literal(t[0]), Parse(t[1..]))
  }

  /** The template text of one piece, braces escaped. */
  function PieceText(p: Piece): string
  {
    match p
    case Literal(c) => if c == '{' then "{{" else if c == '}' then "}}" else [c]
    case Field(n) => "{" + n + "}"
  }

  /** The template that reads as `ps`. */
  function Unparse(ps: seq<Piece>): string
  {
    if ps == [] then "" else PieceText(ps[0]) + Unparse(ps[1..])
  }

  /** Writing a well-formed piece sequence out and reading it back gives it back. */
  lemma {:induction false} ParseUnparse(ps: seq<Piece>)
    requires WellFormed(ps)
    ensures Parse(Unparse(ps)) == Some(ps)
    decreases |ps|
  {
    if ps != [] {
      var rest := Unparse(ps[1..]);
      var t := Unparse(ps);
      assert t == PieceText(ps[0]) + rest;
      assert WellFormed(ps[1..]) by {
        forall i | 0 <= i < |ps[1..]| && ps[1..][i].Field?
          ensures PlainName(ps[1..][i].name)
        {
          assert ps[1..][i] == ps[i + 1];
        }
      }
      ParseUnparse(ps[1..]);
      assert [ps[0]] + ps[1..] == ps;
      match ps[0]
      case Literal(c) =>
        if c == '{' {
          assert t[2..] == rest;
        } else if c == '}' {
          assert t[2..] == rest;
        } else {
          assert t[1..] == rest;
        }
      case Field(n) =>
        assert PlainName(n) by { assert ps[0].Field?; }
        assert t == "{" + n + "}" + rest;
        assert t[1..|n| + 1] == n;
        CloseAtFinds(t, 1, |n| + 1);
        assert t[|n| + 2..] == rest;
        if |n| > 0 {
          assert t[1] == n[0];
        }
    }
  }

  /** Writing out a sequence that starts with `p`. */
  lemma UnparseCons(p: Piece, qs: seq<Piece>)
    ensures Unparse([p] + qs) == PieceText(p) + Unparse(qs)
  {
    assert ([p] + qs)[1..] == qs;
  }

  /** A well-formed sequence stays well formed behind a piece with a plain name. */
  lemma WellFormedCons(p: Piece, qs: seq<Piece>)
    requires p.Field? ==> PlainName(p.name)
    requires WellFormed(qs)
    ensures WellFormed([p] + qs)
  {
    forall i | 0 < i < |[p] + qs|
      ensures ([p] + qs)[i] == qs[i - 1]
    {
    }
  }

  /** Reading a template and writing it out again gives the template back. */
  lemma {:induction false} UnparseParse(t: string)
    requires Parse(t).Some?
    ensures Unparse(Parse(t).value) == t
    ensures WellFormed(Parse(t).value)
    decreases |t|, 1
  {
    if t == [] {
    } else if t[0] == '{' && |t| > 1 && t[1] == '{' {
      UnparseParseEscape(t);
    } else if t[0] == '{' {
      UnparseParseField(t);
    } else if t[0] == '}' {
      UnparseParseEscape(t);
    } else {
      UnparseParseChar(t);
    }
  }

  /** `UnparseParse` for a template that starts with `{{` or `}}`. */
  lemma {:induction false} UnparseParseEscape(t: string)
    requires |t| > 1 && (t[0] == '{' || t[0] == '}') && t[1] == t[0]
    requires Parse(t).Some?
    ensures Unparse(Parse(t).value) == t
    ensures WellFormed(Parse(t).value)
    decreases |t|, 0
  {
    var rest := Parse(t[2..]).value;
    UnparseParse(t[2..]);
    assert Parse(t).value == [Literal(t[0])] + rest;
    UnparseCons(Literal(t[0]), rest);
    WellFormedCons(Literal(t[0]), rest);
    assert PieceText(Literal(t[0])) == t[..2];
    assert t == t[..2] + t[2..];
  }

  /** `UnparseParse` for a template that starts with a field. */
  lemma {:induction false} UnparseParseField(t: string)
    requires t != [] && t[0] == '{' && !(|t| > 1 && t[1] == '{')
    requires Parse(t).Some?
    ensures Unparse(Parse(t).value) == t
    ensures WellFormed(Parse(t).value)
    decreases |t|, 0
  {
    var j := CloseAt(t, 1).value;
    var rest := Parse(t[j + 1..]).value;
    UnparseParse(t[j + 1..]);
    assert Parse(t).value == [Field(t[1..j])] + rest;
    UnparseCons(Field(t[1..j]), rest);
    WellFormedCons(Field(t[1..j]), rest);
    BracedAt(t, j);
  }

  /** A template split around the field that spans `t[0..j + 1]`. */
  lemma BracedAt(t: string, j: nat)
    requires 0 < j < |t| && t[0] == '{' && t[j] == '}'
    ensures t == "{" + t[1..j] + "}" + t[j + 1..]
  {
    var u := "{" + t[1..j] + "}" + t[j + 1..];
    assert |u| == |t|;
    forall k | 0 <= k < |t|
      ensures u[k] == t[k]
    {
      if k == 0 {
      } else if k < j {
        assert u[k] == t[1..j][k - 1];
      } else if k == j {
      } else {
        assert u[k] == t[j + 1..][k - j - 1];
      }
    }
  }

  /** `UnparseParse` for a template that starts with a plain character. */
  lemma {:induction false} UnparseParseChar(t: string)
    requires t != [] && t[0] != '{' && t[0] != '}'
    requires Parse(t).Some?
    ensures Unparse(Parse(t).value) == t
    ensures WellFormed(Parse(t).value)
    decreases |t|, 0
  {
    var rest := Parse(t[1..]).value;
    UnparseParse(t[1..]);
    assert Parse(t).value == [Literal(t[0])] + rest;
    UnparseCons(Literal(t[0]), rest);
    WellFormedCons(Literal(t[0]), rest);
    assert t == [t[0]] + t[1..];
  }

  function Prepend(s: string, rest: Option<string>): Option<string>
  {
    if rest.None? then None else Some(s + rest.value)
  }

  /** `str.format` with keyword arguments `fields`: it fails on any field it has no value for. */
  function Substitute(ps: seq<Piece>, fields: map<string, string>): Option<string>
  {
    if ps == [] then Some("")
    else
      var rest := Substitute(ps[1..], fields);
      match ps[0]
      case Literal(c) => Prepend([c], rest)
      case Field(n) => if n in fields then Prepend(fields[n], rest) else None
  }

  /** Substitution fails exactly when some field names a key without a value. */
  lemma {:induction false} SubstituteFails(ps: seq<Piece>, fields: map<string, string>)
    ensures Substitute(ps, fields).None? <==> exists i :: 0 <= i < |ps| && ps[i].Field? && ps[i].name !in fields
    decreases |ps|
  {
    if ps != [] {
      SubstituteFails(ps[1..], fields);
      assert forall i :: 0 < i < |ps| ==> ps[i] == ps[1..][i - 1];
    }
  }

  /** `template.format(**fields)`, or None where Python raises. */
  function Format(template: string, fields: map<string, string>): Option<string>
  {
    match Parse(template)
    case None => None
    case Some(ps) => Substitute(ps, fields)
  }

  /** Substituting into a sequence that starts with a literal. */
  lemma SubstituteLiteral(c: char, ps: seq<Piece>, fields: map<string, string>)
    ensures Substitute([Literal(c)] + ps, fields) == Prepend([c], Substitute(ps, fields))
  {
    assert ([Literal(c)] + ps)[1..] == ps;
  }

  /** Substituting into a sequence that starts with a field the arguments provide. */
  lemma SubstituteField(n: string, ps: seq<Piece>, fields: map<string, string>)
    requires n in fields
    ensures Substitute([Field(n)] + ps, fields) == Prepend(fields[n], Substitute(ps, fields))
  {
    assert ([Field(n)] + ps)[1..] == ps;
  }

  /** A template with no brace in it formats to itself. */
  lemma {:induction false} FormatBraceFree(t: string, fields: map<string, string>)
    requires PlainName(t)
    ensures Format(t, fields) == Some(t)
    decreases |t|
  {
    if t != [] {
      assert PlainName(t[1..]);
      FormatBraceFree(t[1..], fields);
      var ps := Parse(t[1..]).value;
      assert Parse(t) == Some([Literal(t[0])] + ps);
      SubstituteLiteral(t[0], ps, fields);
      assert [t[0]] + t[1..] == t;
    }
  }

  // ---------------------------------------------------------------------------
  // The filename
  // ---------------------------------------------------------------------------

  /** The placeholders a template may name. */
  const Placeholders: set<string> := {"title", "artist", "artists", "album", "track", "id"}

  /** The keyword arguments the resolver passes to `format`. */
  function Fields(info: SongInfo): map<string, string>
  {
    var title := Sanitize(info.name);
    var artists := Sanitize(Join(info.artists, ", "));
    map["title" := title, "artist" := artists, "artists" := artists,
        "album" := Sanitize(info.album), "track" := title, "id" := info.id]
  }

  /** The name used when the template cannot be formatted. */
  function FallbackName(info: SongInfo): string
  {
    Sanitize(info.name) + " - " + Sanitize(Join(info.artists, ", "))
  }

  /**
   * The filename for a track: the formatted template, or the fallback form when formatting
   * fails, followed by "." and the container extension.
   */
  function GetFilename(template: string, info: SongInfo, ext: string): (r: string)
    ensures EndsWith(r, "." + ext)
  {
    var name := (match Format(template, Fields(info))
                 case Some(n) => n
                 case None => FallbackName(info));
    EndsWithAppend(name, "." + ext);
    assert name + "." + ext == name + ("." + ext);
    name + "." + ext
  }

  /** The value bound to each of the six placeholders. */
  lemma FieldValues(info: SongInfo)
    ensures Fields(info)["title"] == Fields(info)["track"] == Sanitize(info.name)
    ensures Fields(info)["artist"] == Fields(info)["artists"] == Sanitize(Join(info.artists, ", "))
    ensures Fields(info)["album"] == Sanitize(info.album) && Fields(info)["id"] == info.id
  {
  }

  /** Each placeholder, written in braces, is a one-field template with a plain name. */
  lemma BracedPlaceholders()
    ensures "{title}" == "{" + "title" + "}" && PlainName("title")
    ensures "{track}" == "{" + "track" + "}" && PlainName("track")
    ensures "{artist}" == "{" + "artist" + "}" && PlainName("artist")
    ensures "{artists}" == "{" + "artists" + "}" && PlainName("artists")
    ensures "{album}" == "{" + "album" + "}" && PlainName("album")
    ensures "{id}" == "{" + "id" + "}" && PlainName("id")
  {
  }

  /** On success `{title}` and `{track}` are both bound to the sanitised title (not a track number). */
  lemma TitleBindings(info: SongInfo, ext: string)
    ensures GetFilename("{title}", info, ext) == Sanitize(info.name) + "." + ext
    ensures GetFilename("{track}", info, ext) == Sanitize(info.name) + "." + ext
  {
    FieldValues(info);
    BracedPlaceholders();
    SingleField("title", info, ext);
    SingleField("track", info, ext);
  }

  /** On success `{artist}` and `{artists}` are both bound to the ", "-joined, sanitised artists. */
  lemma ArtistBindings(info: SongInfo, ext: string)
    ensures GetFilename("{artist}", info, ext) == Sanitize(Join(info.artists, ", ")) + "." + ext
    ensures GetFilename("{artists}", info, ext) == Sanitize(Join(info.artists, ", ")) + "." + ext
  {
    FieldValues(info);
    BracedPlaceholders();
    SingleField("artist", info, ext);
    SingleField("artists", info, ext);
  }

  /** On success `{album}` is the sanitised album and `{id}` the id as it stands, unsanitised. */
  lemma AlbumAndIdBindings(info: SongInfo, ext: string)
    ensures GetFilename("{album}", info, ext) == Sanitize(info.album) + "." + ext
    ensures GetFilename("{id}", info, ext) == info.id + "." + ext
  {
    FieldValues(info);
    BracedPlaceholders();
    SingleField("album", info, ext);
    SingleField("id", info, ext);
  }

  /** A template made of one field formats as that field's value. */
  lemma FormatSingleField(n: string, fields: map<string, string>)
    requires n in fields && PlainName(n)
    ensures Format("{" + n + "}", fields) == Some(fields[n])
  {
    assert WellFormed([Field(n)]);
    ParseUnparse([Field(n)]);
    assert Unparse([Field(n)]) == "{" + n + "}" by {
      UnparseCons(Field(n), []);
      assert [Field(n)] + [] == [Field(n)];
    }
    SubstituteField(n, [], fields);
    assert [Field(n)] + [] == [Field(n)];
    assert fields[n] + "" == fields[n];
  }

  /** A template made of one placeholder renders as that placeholder's value. */
  lemma SingleField(n: string, info: SongInfo, ext: string)
    requires n in Placeholders && PlainName(n)
    ensures GetFilename("{" + n + "}", info, ext) == Fields(info)[n] + "." + ext
  {
    FieldsKeys(info);
    FormatSingleField(n, Fields(info));
  }

  /** The default template "{title} - {artist}" gives title, " - ", artists and the extension. */
  lemma DefaultTemplate(info: SongInfo, ext: string)
    ensures GetFilename("{title} - {artist}", info, ext)
         == Sanitize(info.name) + " - " + Sanitize(Join(info.artists, ", ")) + "." + ext
  {
    var f := Fields(info);
    DefaultTemplateReads();
    DefaultTemplateFills(f);
    assert f["title"] == Sanitize(info.name);
    assert f["artist"] == Sanitize(Join(info.artists, ", "));
  }

  const DefaultPieces: seq<Piece> :=
    [Field("title"), Literal(' '), Literal('-'), Literal(' '), Field("artist")]

  /** The default pieces, written out, are the default template. */
  lemma DefaultPiecesText()
    ensures Unparse(DefaultPieces) == "{title} - {artist}"
  {
  }

  lemma DefaultTemplateReads()
    ensures Parse("{title} - {artist}") == Some(DefaultPieces)
  {
    DefaultPiecesText();
    assert WellFormed(DefaultPieces) by { BracedPlaceholders(); }
    ParseUnparse(DefaultPieces);
  }

  lemma DefaultTemplateFills(f: map<string, string>)
    requires "title" in f && "artist" in f
    ensures Substitute(DefaultPieces, f) == Some(f["title"] + " - " + f["artist"])
  {
    var ps := DefaultPieces;
    var title, artists := f["title"], f["artist"];
    assert Substitute(ps[5..], f) == Some("");
    assert Substitute(ps[4..], f) == Some(artists) by {
      SubstituteField("artist", [], f);
      assert [Field("artist")] + [] == ps[4..];
      assert artists + "" == artists;
    }
    assert Substitute(ps[3..], f) == Some(" " + artists) by {
      SubstituteLiteral(' ', ps[4..], f);
      assert [Literal(' ')] + ps[4..] == ps[3..];
    }
    assert Substitute(ps[2..], f) == Some("- " + artists) by {
      SubstituteLiteral('-', ps[3..], f);
      assert [Literal('-')] + ps[3..] == ps[2..];
      assert ['-'] + (" " + artists) == "- " + artists;
    }
    assert Substitute(ps[1..], f) == Some(" - " + artists) by {
      SubstituteLiteral(' ', ps[2..], f);
      assert [Literal(' ')] + ps[2..] == ps[1..];
      assert [' '] + ("- " + artists) == " - " + artists;
    }
    assert Substitute(ps, f) == Some(title + (" - " + artists)) by {
      SubstituteField("title", ps[1..], f);
      assert [Field("title")] + ps[1..] == ps;
    }
    assert title + (" - " + artists) == title + " - " + artists;
  }

  /** A template naming a placeholder the resolver does not provide yields the fallback name. */
  lemma UnknownPlaceholderFallsBack(ps: seq<Piece>, k: nat, info: SongInfo, ext: string)
    requires WellFormed(ps)
    requires k < |ps| && ps[k].Field?
    requires ps[k].name !in Placeholders
    ensures GetFilename(Unparse(ps), info, ext)
         == Sanitize(info.name) + " - " + Sanitize(Join(info.artists, ", ")) + "." + ext
  {
    ParseUnparse(ps);
    FieldsKeys(info);
    SubstituteFails(ps, Fields(info));
    assert Format(Unparse(ps), Fields(info)).None?;
  }

  lemma FieldsKeys(info: SongInfo)
    ensures Fields(info).Keys == Placeholders
  {
  }

  /** A template `str.format` rejects (a lone brace, a field never closed) yields the fallback name. */
  lemma MalformedTemplateFallsBack(template: string, info: SongInfo, ext: string)
    requires Parse(template).None?
    ensures GetFilename(template, info, ext)
         == Sanitize(info.name) + " - " + Sanitize(Join(info.artists, ", ")) + "." + ext
  {
  }

  /**
   * Formatting succeeds exactly when the template is well formed and names only the six
   * placeholders the resolver provides.
   */
  lemma FormatSucceedsIff(template: string, info: SongInfo)
    ensures Format(template, Fields(info)).Some? <==>
      Parse(template).Some? &&
      forall i :: 0 <= i < |Parse(template).value| && Parse(template).value[i].Field? ==>
        Parse(template).value[i].name in Placeholders
  {
    FieldsKeys(info);
    if Parse(template).Some? {
      SubstituteFails(Parse(template).value, Fields(info));
    }
  }

  /** Every literal of a parsed template is a character of the template. */
  lemma {:induction false} ParseLiterals(t: string)
    requires Parse(t).Some?
    ensures forall i :: 0 <= i < |Parse(t).value| && Parse(t).value[i].Literal? ==>
      Parse(t).value[i].c in t
  {
    UnparseParse(t);
    var ps := Parse(t).value;
    forall i | 0 <= i < |ps| && ps[i].Literal?
      ensures ps[i].c in t
    {
      UnparseHas(ps, i);
    }
  }

  /** The text of piece `i` lies inside the written-out template. */
  lemma {:induction false} UnparseHas(ps: seq<Piece>, i: nat)
    requires i < |ps| && ps[i].Literal?
    ensures ps[i].c in Unparse(ps)
    decreases |ps|
  {
    if i == 0 {
      assert Unparse(ps)[0] == ps[0].c by {
        UnparseCons(ps[0], ps[1..]);
        assert [ps[0]] + ps[1..] == ps;
      }
    } else {
      assert ps[i].c in Unparse(ps[1..]) by {
        assert ps[1..][i - 1] == ps[i];
        UnparseHas(ps[1..], i - 1);
      }
      assert Unparse(ps) == PieceText(ps[0]) + Unparse(ps[1..]);
    }
  }

  /** Substituting clean values into clean literals yields a clean string. */
  lemma {:induction false} SubstituteClean(ps: seq<Piece>, fields: map<string, string>)
    requires Substitute(ps, fields).Some?
    requires forall i :: 0 <= i < |ps| && ps[i].Literal? ==> !Forbidden(ps[i].c)
    requires forall k :: k in fields ==> Clean(fields[k])
    ensures Clean(Substitute(ps, fields).value)
    decreases |ps|
  {
    if ps != [] {
      assert forall i :: 0 < i < |ps| ==> ps[i] == ps[1..][i - 1];
      SubstituteClean(ps[1..], fields);
    }
  }

  /**
   * Sanitising keeps path separators and the other forbidden characters out of the name:
   * whatever the track fields hold, the filename is clean as long as the template, the id
   * (which is not sanitised) and the extension are.
   */
  lemma FilenameClean(template: string, info: SongInfo, ext: string)
    requires Clean(template) && Clean(info.id) && Clean(ext)
    ensures Clean(GetFilename(template, info, ext))
  {
    match Parse(template)
    case None =>
    case Some(ps) =>
      ParseLiterals(template);
      forall i | 0 <= i < |ps| && ps[i].Literal?
        ensures !Forbidden(ps[i].c)
      {
        var k :| 0 <= k < |template| && template[k] == ps[i].c;
      }
      if Substitute(ps, Fields(info)).Some? {
        SubstituteClean(ps, Fields(info));
      }
  }
}
