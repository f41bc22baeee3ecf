/**
 * The two pieces of Python string handling the provisioning templates rely on:
 * `sep.join(parts)` and `str.format(**kwargs)` with keyword fields only.
 *
 * `Format` models plain keyword fields only: `{{` and `}}` are escapes for a
 * single brace, `{name}` is replaced by the keyword argument `name`, a lone
 * `}` or a `{` with no closing `}` is a `ValueError`, an unknown keyword is a
 * `KeyError` and the empty field `{}` (a positional field, while only
 * keywords are given) is an `IndexError`.  Conversions and format specs
 * (`{a!r}`, `{a:>4}`), attribute and index access (`{a.b}`, `{a[0]}`) and
 * numbered fields (`{0}`) are not modelled: the whole text between the braces
 * is taken as a keyword name.
 */
module PyFormat {
  import opened Wrappers

  datatype FormatError = KeyError(key: string) | IndexError | ValueError(message: string)

  /** `s` holds no brace, so formatting leaves it as it is. */
  predicate NoBraces(s: string) {
    '{' !in s && '}' !in s
  }

  /** A keyword field that `args` can fill: `{name}` with a plain, non-empty name. */
  predicate IsField(name: string, args: map<string, string>) {
    name != [] && NoBraces(name) && name in args
  }

  /** Python's `sep.join(parts)`. */
  function Join(sep: string, parts: seq<string>): (r: string)
    ensures |parts| == 1 ==> r == parts[0]
  {
    if |parts| == 0 then ""
    else if |parts| == 1 then parts[0]
    else parts[0] + (sep + Join(sep, parts[1..]))
  }

  /** The first index at or after `from` that holds `c`, or `|t|` when there is none. */
  function IndexFrom(t: string, from: nat, c: char): (j: nat)
    requires from <= |t|
    ensures from <= j <= |t|
    ensures j < |t| ==> t[j] == c
    decreases |t| - from
  {
    if from == |t| then |t| else if t[from] == c then from else IndexFrom(t, from + 1, c)
  }

  function Prepend(s: string, r: Result<string, FormatError>): Result<string, FormatError> {
    match r
    case Success(v) => Success(s + v)
    case Failure(_) => r
  }

  /** `t.format(**args)`. */
  function Format(t: string, args: map<string, string>): Result<string, FormatError>
    decreases |t|
  {
    if t == [] then Success([])
    else if t[0] == '{' then
      if |t| == 1 then Failure(ValueError("Single '{' encountered in format string"))
      else if t[1] == '{' then Prepend("{", Format(t[2..], args))
      else
        var j := IndexFrom(t, 1, '}');
        if j == |t| then Failure(ValueError("expected '}' before end of string"))
        else
          var name := t[1..j];
          if '{' in name then Failure(ValueError("unexpected '{' in field name"))
          else if name == [] then Failure(IndexError)
          else if name !in args then Failure(KeyError(name))
          else Prepend(args[name], Format(t[j + 1..], args))
    else if t[0] == '}' then
      if |t| >= 2 && t[1] == '}' then Prepend("}", Format(t[2..], args))
      else Failure(ValueError("Single '}' encountered in format string"))
    else Prepend([t[0]], Format(t[1..], args))
  }

  lemma PrependAssoc(p: string, x: string, y: Result<string, FormatError>)
    ensures Prepend(p, Prepend(x, y)) == Prepend(p + x, y)
  {
    if y.Success? { assert p + (x + y.value) == (p + x) + y.value; }
  }

  lemma {:induction false} IndexFromPrefix(a: string, b: string, from: nat, c: char)
    requires from <= |a| && IndexFrom(a, from, c) < |a|
    ensures IndexFrom(a + b, from, c) == IndexFrom(a, from, c)
    decreases |a| - from
  {
    if a[from] != c { IndexFromPrefix(a, b, from + 1, c); }
  }

  /**
   * Formatting is compositional: a template that formats on its own formats
   * the same way in front of any continuation, because the scanner never
   * looks past the end of a complete escape or field.
   */
  lemma {:induction false} FormatConcat(a: string, b: string, args: map<string, string>)
    requires Format(a, args).Success?
    ensures Format(a + b, args) == Prepend(Format(a, args).value, Format(b, args))
    decreases |a|
  {
    if a == [] {
      assert a + b == b;
      if Format(b, args).Success? { assert "" + Format(b, args).value == Format(b, args).value; }
    } else if a[0] == '{' {
      if a[1] == '{' {
        assert (a + b)[2..] == a[2..] + b;
        FormatConcat(a[2..], b, args);
        PrependAssoc("{", Format(a[2..], args).value, Format(b, args));
      } else {
        var j := IndexFrom(a, 1, '}');
        IndexFromPrefix(a, b, 1, '}');
        assert (a + b)[1..j] == a[1..j];
        assert (a + b)[j + 1..] == a[j + 1..] + b;
        FormatConcat(a[j + 1..], b, args);
        PrependAssoc(args[a[1..j]], Format(a[j + 1..], args).value, Format(b, args));
      }
    } else if a[0] == '}' {
      assert (a + b)[2..] == a[2..] + b;
      FormatConcat(a[2..], b, args);
      PrependAssoc("}", Format(a[2..], args).value, Format(b, args));
    } else {
      assert (a + b)[1..] == a[1..] + b;
      FormatConcat(a[1..], b, args);
      PrependAssoc([a[0]], Format(a[1..], args).value, Format(b, args));
    }
  }

  /** Text without braces is copied unchanged. */
  lemma {:induction false} FormatPlain(s: string, args: map<string, string>)
    requires NoBraces(s)
    ensures Format(s, args) == Success(s)
    decreases |s|
  {
    if s != [] {
      assert s[0] in s;
      assert forall c :: c in s[1..] ==> c in s;
      assert NoBraces(s[1..]);
      FormatPlain(s[1..], args);
      assert [s[0]] + s[1..] == s;
    }
  }

  /** No `c` occurs between `from` and the index `IndexFrom` finds. */
  lemma {:induction false} IndexFromFirst(t: string, from: nat, c: char, k: nat)
    requires from <= |t| && from <= k < IndexFrom(t, from, c)
    ensures t[k] != c
    decreases |t| - from
  {
    if k > from { IndexFromFirst(t, from + 1, c, k); }
  }

  lemma IndexFromField(n: string)
    requires NoBraces(n)
    ensures IndexFrom("{" + n + "}", 1, '}') == |n| + 1
  {
    var t := "{" + n + "}";
    assert t[|n| + 1] == '}';
    var j := IndexFrom(t, 1, '}');
    if j > |n| + 1 { IndexFromFirst(t, 1, '}', |n| + 1); }
  }

  /** `{name}` is replaced by the value of the keyword argument `name`. */
  lemma FormatField(n: string, args: map<string, string>)
    requires IsField(n, args)
    ensures Format("{" + n + "}", args) == Success(args[n])
  {
    var t := "{" + n + "}";
    IndexFromField(n);
    assert t[1..|n| + 1] == n;
    assert t[|n| + 2..] == [];
    assert args[n] + [] == args[n];
  }

  /** `pre{name}post`: the field is filled in and the rest formatted. */
  lemma FormatHole(pre: string, n: string, post: string, args: map<string, string>)
    requires NoBraces(pre) && IsField(n, args) && Format(post, args).Success?
    ensures Format(pre + ("{" + n + "}" + post), args) == Success(pre + (args[n] + Format(post, args).value))
  {
    FormatField(n, args);
    FormatConcat("{" + n + "}", post, args);
    FormatPrefix(pre, "{" + n + "}" + post, args);
  }

  /** A brace-free prefix is copied in front of the formatted rest. */
  lemma FormatPrefix(pre: string, rest: string, args: map<string, string>)
    requires NoBraces(pre) && Format(rest, args).Success?
    ensures Format(pre + rest, args) == Success(pre + Format(rest, args).value)
  {
    FormatPlain(pre, args);
    FormatConcat(pre, rest, args);
  }

  /** `{{` is the escape for one `{`. */
  lemma FormatOpen(post: string, args: map<string, string>)
    requires Format(post, args).Success?
    ensures Format("{{" + post, args) == Success("{" + Format(post, args).value)
  {
    assert ("{{" + post)[2..] == post;
  }

  /** `}}` is the escape for one `}`. */
  lemma FormatClose(post: string, args: map<string, string>)
    requires Format(post, args).Success?
    ensures Format("}}" + post, args) == Success("}" + Format(post, args).value)
  {
    assert ("}}" + post)[2..] == post;
  }

  /**
   * Formatting a joined template line by line: when the separator holds no
   * braces, `sep.join(lines).format(**args)` equals the join of the lines
   * formatted one at a time.
   */
  lemma {:induction false} FormatJoin(sep: string, ls: seq<string>, rs: seq<string>, args: map<string, string>)
    requires NoBraces(sep) && |ls| == |rs|
    requires forall i :: 0 <= i < |ls| ==> Format(ls[i], args) == Success(rs[i])
    ensures Format(Join(sep, ls), args) == Success(Join(sep, rs))
  {
    if |ls| >= 2 {
      var rest := Join(sep, ls[1..]);
      FormatJoin(sep, ls[1..], rs[1..], args);
      FormatPrefix(sep, rest, args);
      FormatConcat(ls[0], sep + rest, args);
    }
  }
}
