/**
 * The closed set of builtin libraries, with the name each one is known by
 * and the forgiving parser that maps user text back to a library.
 */
module Builtins {
  import opened Wrappers
  import opened StrOps

  datatype LuneBuiltin = Fs | Luau | Task | Serde | Stdio

  /** What the parser compares against the names: trimmed, then ASCII lower-cased. */
  function Normalize(s: string): (r: string)
    ensures NoEdgeWhitespace(r) && NoAsciiUpper(r)
  {
    var t := Trim(s);
    var r := ToAsciiLowercase(t);
    if |r| > 0 then
      LowercaseKeepsWhitespace(t[0]);
      LowercaseKeepsWhitespace(t[|t| - 1]);
      r
    else r
  }

  /** The fixed name of each library; it is already in normal form. */
  function Name(b: LuneBuiltin): (r: string)
    ensures |r| > 0 && Normalize(r) == r
  {
    var r := match b
      case Fs => "fs"
      case Luau => "luau"
      case Task => "task"
      case Serde => "serde"
      case Stdio => "stdio";
    NormalName(r);
    r
  }

  /** A name without whitespace at its ends and without upper case is its own normal form. */
  lemma NormalName(r: string)
    requires |r| > 0 && NoEdgeWhitespace(r) && NoAsciiUpper(r)
    ensures Normalize(r) == r
  {
    TrimExact([], r, []);
    assert [] + r + [] == r;
  }

  /** The message for text that names no library; it quotes the text as given. */
  function UnknownBuiltin(s: string): (r: string)
    ensures |r| == |s| + 26
    ensures r[25..|r| - 1] == s && r[|r| - 1] == '\''
  {
    "Unknown builtin library '" + s + "'"
  }

  /**
   * The fixed text before the quoted input, ending in the opening `'`;
   * with the contract of `UnknownBuiltin` this determines every message.
   */
  lemma UnknownBuiltinPrefix(s: string)
    ensures UnknownBuiltin(s)[..25] == "Unknown builtin library '"
    ensures UnknownBuiltin(s)[24] == '\''
  {
  }

  /**
   * `LuneBuiltin::from_str`: the library whose name equals the normal form
   * of `s`, or an error quoting the original, untrimmed `s`.
   */
  function FromStr(s: string): (r: Result<LuneBuiltin, string>)
    ensures r.Ok? ==> Name(r.value) == Normalize(s)
    ensures r.Err? ==> r.error == UnknownBuiltin(s) && forall b :: Name(b) != Normalize(s)
  {
    var n := Normalize(s);
    if n == "fs" then Ok(Fs)
    else if n == "luau" then Ok(Luau)
    else if n == "task" then Ok(Task)
    else if n == "serde" then Ok(Serde)
    else if n == "stdio" then Ok(Stdio)
    else Err(UnknownBuiltin(s))
  }

  /** The five names are distinct. */
  lemma NameInjective(a: LuneBuiltin, b: LuneBuiltin)
    ensures Name(a) == Name(b) ==> a == b
  {
  }

  /** Parsing a library's name gives the library back. */
  lemma NameRoundTrip(b: LuneBuiltin)
    ensures FromStr(Name(b)) == Ok(b)
  {
    var r := FromStr(Name(b));
    if r.Ok? {
      NameInjective(r.value, b);
    }
  }

  /** `s` parses to `b` exactly when the normal form of `s` is the name of `b`. */
  lemma FromStrOkIff(s: string, b: LuneBuiltin)
    ensures FromStr(s) == Ok(b) <==> Normalize(s) == Name(b)
  {
    if Normalize(s) == Name(b) {
      NameInjective(b, FromStr(s).value);
    }
  }

  /** Normalising twice is normalising once. */
  lemma NormalizeIdempotent(s: string)
    ensures Normalize(Normalize(s)) == Normalize(s)
  {
    var t := Trim(s);
    var n := ToAsciiLowercase(t);
    if |n| > 0 {
      LowercaseKeepsWhitespace(t[0]);
      LowercaseKeepsWhitespace(t[|t| - 1]);
    }
    TrimExact([], n, []);
    assert [] + n + [] == n;
    assert Trim(n) == n;
    LowercaseIdempotent(t);
  }

  lemma LowercaseIdempotent(s: string)
    ensures ToAsciiLowercase(ToAsciiLowercase(s)) == ToAsciiLowercase(s)
  {
  }

  /**
   * The parser only looks at the normal form: `s` and its normal form parse to
   * the same library, or both fail. Each error quotes its own input, so the
   * two messages differ when `s` is not already in normal form.
   */
  lemma FromStrSeesNormalForm(s: string)
    ensures FromStr(s).Ok? <==> FromStr(Normalize(s)).Ok?
    ensures FromStr(s).Ok? ==> FromStr(s) == FromStr(Normalize(s))
    ensures FromStr(s).Err? ==> FromStr(Normalize(s)) == Err(UnknownBuiltin(Normalize(s)))
  {
    var n := Normalize(s);
    NormalizeIdempotent(s);
    SameNormalFormSameParse(s, n);
  }

  /** Two texts with one normal form parse alike, errors apart. */
  lemma SameNormalFormSameParse(s: string, t: string)
    requires Normalize(s) == Normalize(t)
    ensures FromStr(s).Ok? <==> FromStr(t).Ok?
    ensures FromStr(s).Ok? ==> FromStr(s) == FromStr(t)
  {
    var r, q := FromStr(s), FromStr(t);
    if r.Ok? {
      assert Name(r.value) == Normalize(t);
      assert q.Ok?;
      NameInjective(r.value, q.value);
    }
  }

  /** Surrounding whitespace and upper case are ignored: `"  FS "` is `Fs`. */
  lemma FromStrPaddedUpper()
    ensures FromStr("  FS ") == Ok(Fs)
  {
    TrimExact("  ", "FS", " ");
    assert "  " + "FS" + " " == "  FS ";
    LowercaseOf("FS", "fs");
  }

  /** `"Luau"` is `Luau`. */
  lemma FromStrCapitalised()
    ensures FromStr("Luau") == Ok(Luau)
  {
    TrimExact([], "Luau", []);
    assert [] + "Luau" + [] == "Luau";
    LowercaseOf("Luau", "luau");
  }

  /** Unknown text is reported with its surrounding whitespace intact. */
  lemma FromStrUnknownExample()
    ensures FromStr(" http ") == Err("Unknown builtin library ' http '")
  {
    var r := FromStr(" http ");
    HttpNormalForm();
    HttpIsNoBuiltin();
    assert r.Err?;
    assert UnknownBuiltin(" http ") == "Unknown builtin library ' http '";
  }

  lemma HttpIsNoBuiltin()
    ensures forall b :: Name(b) != "http"
  {
    forall b ensures Name(b) != "http" {
      assert Name(b)[0] != 'h';
    }
  }

  lemma HttpNormalForm()
    ensures Normalize(" http ") == "http"
  {
    TrimExact(" ", "http", " ");
    assert " " + "http" + " " == " http ";
    LowercaseFixed("http");
  }

  lemma LowercaseOf(s: string, t: string)
    requires |s| == |t| && forall i :: 0 <= i < |s| ==> AsciiLower(s[i]) == t[i]
    ensures ToAsciiLowercase(s) == t
  {
  }
}
