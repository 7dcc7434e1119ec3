/**
 * The string helpers behind every message the engine produces: Python's
 * `str`/`repr` of the values it handles, the rendering of a call
 * (`name(1, "a", k=/p/)`), and private-name mangling.
 */
module Text {
  import opened Values

  // ---------------------------------------------------------------- numbers

  function DigitChar(d: nat): (c: char)
    requires d < 10
    ensures '0' <= c <= '9'
  {
    "0123456789"[d]
  }

  function DigitValue(c: char): (d: nat)
    requires '0' <= c <= '9'
    ensures d < 10
  {
    (c - '0') as nat
  }

  /** Python's `str()` of a non-negative integer: decimal, no leading zeros. */
  function NatToString(n: nat): (s: string)
    ensures |s| >= 1
    ensures forall i :: 0 <= i < |s| ==> '0' <= s[i] <= '9'
    ensures |s| > 1 ==> s[0] != '0'
    decreases n
  {
    if n < 10 then [DigitChar(n)] else NatToString(n / 10) + [DigitChar(n % 10)]
  }

  /** Reads a string of decimal digits back as a number. */
  function ParseNat(s: string): nat
    requires forall i :: 0 <= i < |s| ==> '0' <= s[i] <= '9'
  {
    if s == [] then 0 else ParseNat(s[..|s| - 1]) * 10 + DigitValue(s[|s| - 1])
  }

  /** The decimal rendering of a count reads back as that count. */
  lemma {:induction false} ParseNatToString(n: nat)
    ensures ParseNat(NatToString(n)) == n
    decreases n
  {
    if n < 10 {
      assert NatToString(n)[..0] == [];
    } else {
      var s := NatToString(n);
      assert s[..|s| - 1] == NatToString(n / 10);
      ParseNatToString(n / 10);
    }
  }

  /** Python's `str()` of an integer. */
  function IntToString(i: int): (s: string)
    ensures |s| >= 1
    ensures i >= 0 ==> s == NatToString(i)
    ensures i < 0 ==> s[0] == '-'
  {
    if i < 0 then "-" + NatToString(-i) else NatToString(i)
  }

  /** The numerals the library's messages show most often. */
  lemma SmallNumerals()
    ensures IntToString(0) == "0" && IntToString(1) == "1" && IntToString(2) == "2"
    ensures IntToString(3) == "3" && IntToString(4) == "4"
  {
  }

  // ---------------------------------------------------------------- strings

  /** `sep.join(parts)`. */
  function Join(parts: seq<string>, sep: string): string
  {
    if parts == [] then ""
    else if |parts| == 1 then parts[0]
    else parts[0] + sep + Join(parts[1..], sep)
  }

  predicate StartsWith(s: string, prefix: string)
  {
    |prefix| <= |s| && s[..|prefix|] == prefix
  }

  predicate EndsWith(s: string, suffix: string)
  {
    |suffix| <= |s| && s[|s| - |suffix|..] == suffix
  }

  lemma ConcatAffixes(a: string, b: string, c: string, d: string)
    ensures StartsWith(a + b + c + d, a) && EndsWith(a + b + c + d, d)
  {
    assert (a + b + c + d)[..|a|] == a;
    assert (a + b + c + d)[|a + b + c + d| - |d|..] == d;
  }

  /** `s.lstrip("_")`. */
  function LStripUnderscores(s: string): (r: string)
    ensures r == [] || r[0] != '_'
    ensures |r| <= |s| && r == s[|s| - |r|..]
    ensures forall i :: 0 <= i < |s| - |r| ==> s[i] == '_'
  {
    if s != [] && s[0] == '_' then LStripUnderscores(s[1..]) else s
  }

  // ---------------------------------------------------------------- values

  /**
   * Python's `repr()`. Strings are shown in single quotes without escaping
   * (Python switches to double quotes when the text holds a single quote).
   */
  function Repr(v: Value): string
    decreases v
  {
    match v
    case PyNone => "None"
    case Int(i) => IntToString(i)
    case Str(s) => "'" + s + "'"
    case Tuple(items) =>
      var shown := seq(|items|, k requires 0 <= k < |items| => Repr(items[k]));
      if |items| == 1 then "(" + shown[0] + ",)" else "(" + Join(shown, ", ") + ")"
    case ClassRef(cls) => "<class '" + cls + "'>"
    case PatternRef(p) => "re.compile('" + p + "')"
    case Opaque(_, text, _, _) => text
  }

  /** Python's `str()`: the text itself for a string, `repr()` otherwise. */
  function StrOf(v: Value): (s: string)
    ensures v.Str? ==> s == v.s
    ensures !v.Str? ==> s == Repr(v)
  {
    if v.Str? then v.s else Repr(v)
  }

  /**
   * How one argument is shown in a rendered call: a pattern between
   * slashes, a string between double quotes, anything else by `str()`.
   */
  function ArgToStr(v: Value): (s: string)
    ensures v.PatternRef? ==> s == "/" + v.pattern + "/"
    ensures v.Str? ==> s == "\"" + v.s + "\""
    ensures !v.PatternRef? && !v.Str? ==> s == Repr(v)
  {
    match v
    case PatternRef(p) => "/" + p + "/"
    case Str(s) => "\"" + s + "\""
    case _ => StrOf(v)
  }

  /** Each positional argument as a rendered call shows it. */
  function PositionalItems(kargs: seq<Value>): (items: seq<string>)
    ensures |items| == |kargs|
  {
    seq(|kargs|, k requires 0 <= k < |kargs| => ArgToStr(kargs[k]))
  }

  /** Each keyword argument as `key=value`, in insertion order. */
  function KeywordItems(kwargs: Kw): (items: seq<string>)
    ensures |items| == |kwargs|
  {
    seq(|kwargs|, k requires 0 <= k < |kwargs| => kwargs[k].0 + "=" + ArgToStr(kwargs[k].1))
  }

  function ShowPositional(kargs: seq<Value>): string
  {
    Join(PositionalItems(kargs), ", ")
  }

  function ShowKeywords(kwargs: Kw): string
  {
    Join(KeywordItems(kwargs), ", ")
  }

  /**
   * A call as the engine prints it: `name(positionals, key=value, ...)`,
   * keywords in insertion order; a missing argument set prints as `name()`.
   */
  function FormatArgs(name: string, args: Option<ArgSet>): (s: string)
    ensures StartsWith(s, name + "(") && EndsWith(s, ")")
    ensures args.None? ==> s == name + "()"
  {
    if args.None? then name + "()"
    else
      var p := ShowPositional(args.value.kargs);
      var k := ShowKeywords(args.value.kwargs);
      var inner := if p != "" && k != "" then p + ", " + k else p + k;
      assert (name + "(" + inner + ")")[..|name + "("|] == name + "(";
      name + "(" + inner + ")"
  }

  /** A call with no arguments prints exactly like a call whose arguments were never set. */
  lemma FormatNoArgs(name: string)
    ensures FormatArgs(name, Some(NoArgs)) == FormatArgs(name, None)
  {
    assert ShowPositional([]) == "";
    assert ShowKeywords([]) == "";
  }

  /** A string argument and a pattern argument never render alike, and each kind renders its own text recoverably. */
  lemma ArgToStrDistinguishes(a: string, b: string)
    ensures ArgToStr(Str(a)) != ArgToStr(PatternRef(b))
    ensures ArgToStr(Str(a)) == ArgToStr(Str(b)) <==> a == b
    ensures ArgToStr(PatternRef(a)) == ArgToStr(PatternRef(b)) <==> a == b
  {
    assert ArgToStr(Str(a))[0] == '"';
    assert ArgToStr(PatternRef(b))[0] == '/';
    if ArgToStr(Str(a)) == ArgToStr(Str(b)) {
      assert a == ArgToStr(Str(a))[1..|a| + 1];
      assert b == ArgToStr(Str(b))[1..|b| + 1];
    }
    if ArgToStr(PatternRef(a)) == ArgToStr(PatternRef(b)) {
      assert a == ArgToStr(PatternRef(a))[1..|a| + 1];
      assert b == ArgToStr(PatternRef(b))[1..|b| + 1];
    }
  }

  /** The rendered arguments of a call, positionals first, then `key=value` in insertion order. */
  function RenderedItems(a: ArgSet): (items: seq<string>)
    ensures |items| == |a.kargs| + |a.kwargs|
  {
    PositionalItems(a.kargs) + KeywordItems(a.kwargs)
  }

  lemma {:induction false} JoinAppend(xs: seq<string>, ys: seq<string>, sep: string)
    requires xs != [] && ys != []
    ensures Join(xs + ys, sep) == Join(xs, sep) + sep + Join(ys, sep)
    decreases |xs|
  {
    if |xs| == 1 {
      assert (xs + ys)[1..] == ys;
    } else {
      assert (xs + ys)[1..] == xs[1..] + ys;
      JoinAppend(xs[1..], ys, sep);
    }
  }

  lemma JoinNonEmpty(xs: seq<string>, sep: string)
    requires xs != [] && xs[0] != ""
    ensures Join(xs, sep) != ""
  {
    if |xs| > 1 {
      assert |Join(xs, sep)| >= |xs[0]|;
    }
  }

  /**
   * When no positional argument renders as empty text, a rendered call is
   * its name followed by all its rendered arguments, comma-separated, in
   * parentheses.
   */
  lemma FormatArgsJoinsItems(name: string, a: ArgSet)
    requires forall k :: 0 <= k < |a.kargs| ==> ArgToStr(a.kargs[k]) != ""
    ensures FormatArgs(name, Some(a)) == name + "(" + Join(RenderedItems(a), ", ") + ")"
  {
    var ps := PositionalItems(a.kargs);
    var ks := KeywordItems(a.kwargs);
    if ps == [] {
      assert ps + ks == ks;
    } else if ks == [] {
      assert ps + ks == ps;
      assert ShowKeywords(a.kwargs) == "";
    } else {
      JoinNonEmpty(ps, ", ");
      KeywordsRenderNonEmpty(a.kwargs);
      JoinAppend(ps, ks, ", ");
    }
  }

  lemma KeywordsRenderNonEmpty(kwargs: Kw)
    requires kwargs != []
    ensures Join(KeywordItems(kwargs), ", ") != ""
  {
    var ks := KeywordItems(kwargs);
    assert ks[0] == kwargs[0].0 + "=" + ArgToStr(kwargs[0].1);
    assert ks[0][|kwargs[0].0|] == '=';
    JoinNonEmpty(ks, ", ");
  }

  /** Python's `repr()` of a list of strings: `['a', 'b']`. */
  function ListRepr(names: seq<string>): string
  {
    "[" + Join(seq(|names|, k requires 0 <= k < |names| => "'" + names[k] + "'"), ", ") + "]"
  }

  lemma ListReprSingle(name: string)
    ensures ListRepr([name]) == "['" + name + "']"
  {
    var quoted := seq(1, k requires 0 <= k < 1 => "'" + [name][k] + "'");
    assert quoted == ["'" + name + "'"];
    assert "[" + ("'" + name + "'") + "]" == "['" + name + "']";
  }

  /** `"argument"` or `"arguments"`, as the current revision chooses by count. */
  function Arguments(n: int): string
  {
    if n == 1 then "argument" else "arguments"
  }

  // ---------------------------------------------------------------- mangling

  /**
   * Python's private-name mangling: `__x` on class `_C` is stored as `_C__x`.
   * Applies when the name starts with two underscores, does not end with
   * two, and the target is not a module.
   */
  function MangleName(name: string, targetIsModule: bool, className: string): (r: string)
    ensures !StartsWith(name, "__") || EndsWith(name, "__") || targetIsModule ==> r == name
    ensures StartsWith(name, "__") && !EndsWith(name, "__") && !targetIsModule ==>
              StartsWith(r, "_" + LStripUnderscores(className) + "__") && EndsWith(r, LStripUnderscores(name)) &&
              |r| == |LStripUnderscores(className)| + 3 + |LStripUnderscores(name)|
  {
    if StartsWith(name, "__") && !EndsWith(name, "__") && !targetIsModule then
      var r := "_" + LStripUnderscores(className) + "__" + LStripUnderscores(name);
      ConcatAffixes("_" + LStripUnderscores(className) + "__", [], [], LStripUnderscores(name));
      assert "_" + LStripUnderscores(className) + "__" + [] + [] + LStripUnderscores(name) == r;
      r
    else name
  }

  /** A name that mangling rewrites keeps something after its leading underscores. */
  lemma MangledStemNonEmpty(name: string)
    requires StartsWith(name, "__") && !EndsWith(name, "__")
    ensures LStripUnderscores(name) != []
  {
  }

  lemma StripThreeUnderscores(n: string)
    requires n != [] && n[0] != '_'
    ensures LStripUnderscores("___" + n) == n
  {
    assert ("___" + n)[1..] == "__" + n;
    assert ("__" + n)[1..] == "_" + n;
    assert ("_" + n)[1..] == n;
  }

  /** Mangling an already mangled name changes nothing. */
  lemma MangleIdempotent(name: string, targetIsModule: bool, className: string)
    ensures MangleName(MangleName(name, targetIsModule, className), targetIsModule, className)
            == MangleName(name, targetIsModule, className)
  {
    var m := MangleName(name, targetIsModule, className);
    if m != name {
      var c := LStripUnderscores(className);
      var n := LStripUnderscores(name);
      MangledStemNonEmpty(name);
      if c != [] {
        MangledWithClassNameIsNotPrivate(c, n);
      } else {
        MangledWithoutClassNameIsStable(name, n);
      }
    }
  }

  lemma MangledWithClassNameIsNotPrivate(c: string, n: string)
    requires c != [] && c[0] != '_'
    ensures !StartsWith("_" + c + "__" + n, "__")
  {
    assert ("_" + c + "__" + n)[1] == c[0];
  }

  lemma MangledWithoutClassNameIsStable(name: string, n: string)
    requires StartsWith(name, "__") && !EndsWith(name, "__")
    requires n == LStripUnderscores(name) && n != []
    ensures LStripUnderscores("_" + "" + "__" + n) == n
    ensures !EndsWith("_" + "" + "__" + n, "__")
  {
    assert "_" + "" + "__" + n == "___" + n;
    StripThreeUnderscores(n);
    SameEnding(name, n);
  }

  lemma EndsWithDunder(s: string)
    ensures EndsWith(s, "__") <==> |s| >= 2 && s[|s| - 2] == '_' && s[|s| - 1] == '_'
  {
    if |s| >= 2 && s[|s| - 2] == '_' && s[|s| - 1] == '_' {
      assert s[|s| - 2..] == "__";
    }
  }

  /** The stripped stem ends the way the name ends. */
  lemma SameEnding(name: string, n: string)
    requires !EndsWith(name, "__")
    requires n != [] && n[0] != '_'
    requires |n| <= |name| && n == name[|name| - |n|..]
    ensures !EndsWith("___" + n, "__")
  {
    var m := "___" + n;
    EndsWithDunder(name);
    EndsWithDunder(m);
    if |n| >= 2 {
      assert m[|m| - 2] == n[|n| - 2] == name[|name| - 2];
      assert m[|m| - 1] == n[|n| - 1] == name[|name| - 1];
    } else {
      assert m[|m| - 1] == n[0];
    }
  }
}
