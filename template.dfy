/** The primary-search filter template: how it is stored, and how a key is put into it
    with Python's `template % key`. */
module Template {
  import opened Errors

  /** `__init__` wraps a template that has no `(` in parentheses and keeps any other as given. */
  function Parenthesize(t: string): (r: string)
    ensures '(' in r
    ensures '(' in t ==> r == t
    ensures '(' !in t ==> r == "(" + t + ")" && r[1..|r| - 1] == t
  {
    if '(' !in t then "(" + t + ")" else t
  }

  /** A stored template is already parenthesized: doing it again changes nothing,
      which is why `using` can pass the stored template back through `__init__`. */
  lemma ParenthesizeIdempotent(t: string)
    ensures Parenthesize(Parenthesize(t)) == Parenthesize(t)
  {
  }

  const NOT_ALL_CONVERTED := "not all arguments converted during string formatting"
  const NOT_ENOUGH := "not enough arguments for format string"
  const INCOMPLETE := "incomplete format"
  const UNSUPPORTED := "unsupported format character"

  /** `t % arg` for a single argument whose text is `arg`. `mapping` says whether the argument
      is a mapping to Python (a list or a dict is; a string is not): `%` then never complains
      that the argument was left unused. */
  function Substitute(t: string, arg: string, mapping: bool): Result<string>
  {
    Scan(t, arg, false, mapping)
  }

  /** Left to right over `t`; `used` records whether `%s` has consumed the argument.
      `%%` gives one `%`, a second `%s` has no argument left, and a non-mapping argument
      that no `%s` consumed is an error at the end. */
  function Scan(t: string, arg: string, used: bool, mapping: bool): Result<string>
    decreases |t|
  {
    if t == [] then
      if used || mapping then Ok("") else Err(TypeError(NOT_ALL_CONVERTED))
    else if t[0] != '%' then
      Prefix([t[0]], Scan(t[1..], arg, used, mapping))
    else if |t| == 1 then
      Err(ValueError(INCOMPLETE))
    else if t[1] == '%' then
      Prefix("%", Scan(t[2..], arg, used, mapping))
    else if t[1] == 's' then
      if used then Err(TypeError(NOT_ENOUGH)) else Prefix(arg, Scan(t[2..], arg, true, mapping))
    else
      Err(ValueError(UNSUPPORTED))
  }

  function Prefix(p: string, r: Result<string>): Result<string>
  {
    match r
    case Ok(s) => Ok(p + s)
    case Err(e) => Err(e)
  }

  /** Text without `%` is copied as it is; it is an error only when a non-mapping argument is still unused. */
  lemma {:induction false} ScanPlain(s: string, arg: string, used: bool, mapping: bool)
    requires '%' !in s
    ensures Scan(s, arg, used, mapping) == if used || mapping then Ok(s) else Err(TypeError(NOT_ALL_CONVERTED))
    decreases |s|
  {
    if s != [] {
      assert '%' !in s[1..] by {
        forall i | 0 <= i < |s[1..]| ensures s[1..][i] != '%' { assert s[1..][i] == s[i + 1]; }
      }
      ScanPlain(s[1..], arg, used, mapping);
      assert [s[0]] + s[1..] == s;
    }
  }

  /** A template with one `%s` and no other `%` receives the key exactly once, in place of the `%s`. */
  lemma {:induction false} SubstituteOnce(pre: string, post: string, arg: string, mapping: bool)
    requires '%' !in pre && '%' !in post
    ensures Substitute(pre + "%s" + post, arg, mapping) == Ok(pre + arg + post)
    decreases |pre|
  {
    SubstituteOnceFrom(pre, post, arg, mapping);
  }

  lemma {:induction false} SubstituteOnceFrom(pre: string, post: string, arg: string, mapping: bool)
    requires '%' !in pre && '%' !in post
    ensures Scan(pre + "%s" + post, arg, false, mapping) == Ok(pre + arg + post)
    decreases |pre|
  {
    if pre == [] {
      assert pre + "%s" + post == "%s" + post && pre + arg + post == arg + post;
      PlaceholderFirst(post, arg, mapping);
    } else {
      var t := pre + "%s" + post;
      assert t == [pre[0]] + (pre[1..] + "%s" + post);
      assert '%' !in pre[1..] by {
        forall i | 0 <= i < |pre[1..]| ensures pre[1..][i] != '%' { assert pre[1..][i] == pre[i + 1]; }
      }
      SubstituteOnceFrom(pre[1..], post, arg, mapping);
      PlainFirst(pre[0], pre[1..] + "%s" + post, arg, mapping);
      assert [pre[0]] + (pre[1..] + arg + post) == pre + arg + post;
    }
  }

  lemma PlaceholderFirst(post: string, arg: string, mapping: bool)
    requires '%' !in post
    ensures Scan("%s" + post, arg, false, mapping) == Ok(arg + post)
  {
    var t := "%s" + post;
    assert t[0] == '%' && t[1] == 's' && t[2..] == post;
    ScanPlain(post, arg, true, mapping);
  }

  lemma PlainFirst(c: char, rest: string, arg: string, mapping: bool)
    requires c != '%'
    ensures Scan([c] + rest, arg, false, mapping) == Prefix([c], Scan(rest, arg, false, mapping))
  {
    assert ([c] + rest)[1..] == rest;
  }

  /** A template without any `%` cannot take a non-mapping key: Python rejects the extra
      argument. A mapping key is accepted and the template comes back unchanged. */
  lemma NoPlaceholder(t: string, arg: string, mapping: bool)
    requires '%' !in t
    ensures !mapping ==> Substitute(t, arg, mapping) == Err(TypeError(NOT_ALL_CONVERTED))
    ensures mapping ==> Substitute(t, arg, mapping) == Ok(t)
  {
    ScanPlain(t, arg, false, mapping);
  }
}
