/** `buildUrl`: fills `:key` placeholders of an API path from a parameter
    record, one entry at a time, each with JavaScript's
    `String.prototype.replace` on a string pattern (first occurrence only,
    and the replacement's `$` patterns are expanded). */
module SharedRoutes {
  import opened Util

  /** The largest integer a JavaScript number holds exactly (2^53 - 1). */
  const MaxSafeInteger: int := 9007199254740991

  /** A JavaScript safe integer: in this range `String` writes the exact
      decimal numeral. */
  type SafeInteger = n: int | -MaxSafeInteger <= n <= MaxSafeInteger

  /** A parameter value: `string | number`; numbers are safe integers here. */
  datatype ParamValue = Text(text: string) | Number(number: SafeInteger)

  /** `String(value)`. */
  function ValueString(v: ParamValue): string
  {
    match v
    case Text(t) => t
    case Number(n) => IntToString(n)
  }

  /** What the two-character pattern `$c` stands for in the replacement of
      a match of `matched` at `position` in `str`: `$$` is a dollar sign,
      `$&` the match, `` $` `` the text before it and `$'` the text after
      it. */
  function Expansion(matched: string, str: string, position: nat, c: char): string
    requires position + |matched| <= |str|
  {
    if c == '$' then "$"
    else if c == '&' then matched
    else if c == '`' then str[..position]
    else str[position + |matched|..]
  }

  /** The replacement text for a match of `matched` at `position` in `str`,
      expanding the template's `$$`, `$&`, `` $` `` and `$'` as a
      string-pattern `replace` does (it has no capture groups, so every other
      `$` stands for itself). */
  function Substitution(matched: string, str: string, position: nat, template: string): string
    requires position + |matched| <= |str|
    decreases |template|
  {
    if template == [] then []
    else if template[0] == '$' && |template| >= 2 && template[1] in "$&`'" then
      Expansion(matched, str, position, template[1]) + Substitution(matched, str, position, template[2..])
    else
      [template[0]] + Substitution(matched, str, position, template[1..])
  }

  /** A template without `$` is inserted literally. */
  lemma {:induction false} SubstitutionLiteral(matched: string, str: string, position: nat, template: string)
    requires position + |matched| <= |str|
    requires '$' !in template
    ensures Substitution(matched, str, position, template) == template
    decreases |template|
  {
    if template != [] {
      assert template == [template[0]] + template[1..];
      SubstitutionLiteral(matched, str, position, template[1..]);
    }
  }

  /** `str.replace(pattern, replacement)` with a string pattern. */
  function ReplaceFirst(str: string, pattern: string, replacement: string): string
  {
    match IndexOf(str, pattern)
    case None => str
    case Some(k) =>
      str[..k] + Substitution(pattern, str, k, replacement) + str[k + |pattern|..]
  }

  /** The placeholder for `key`. */
  function Placeholder(key: string): string
  {
    ":" + key
  }

  /** One turn of the `forEach`: if the URL so far contains `:key`,
      replace its first occurrence by the value. */
  function ApplyParam(url: string, key: string, value: ParamValue): string
  {
    if IndexOf(url, Placeholder(key)).Some? then ReplaceFirst(url, Placeholder(key), ValueString(value))
    else url
  }

  /** The URL after the entries have been applied in order. */
  function ApplyParams(path: string, entries: seq<(string, ParamValue)>): string
  {
    if entries == [] then path
    else
      var last := entries[|entries| - 1];
      ApplyParam(ApplyParams(path, entries[..|entries| - 1]), last.0, last.1)
  }

  /** `buildUrl(path, params)`: `params` is `None` when it is absent, and
      otherwise its entries in the order `Object.entries` lists them. */
  method BuildUrl(path: string, params: Option<seq<(string, ParamValue)>>) returns (url: string)
    ensures params.None? ==> url == path
    ensures params.Some? ==> url == ApplyParams(path, params.value)
  {
    url := path;
    if params.Some? {
      var entries := params.value;
      for i := 0 to |entries|
        invariant url == ApplyParams(path, entries[..i])
      {
        assert entries[..i + 1][..i] == entries[..i];
        var (key, value) := entries[i];
        if IndexOf(url, ":" + key).Some? {
          url := ReplaceFirst(url, ":" + key, ValueString(value));
        }
      }
      assert entries[..|entries|] == entries;
    }
  }

  /** An empty parameter record leaves the path unchanged. */
  lemma NoParamsNoChange(path: string)
    ensures ApplyParams(path, []) == path
  {
  }

  /** A key whose placeholder does not occur leaves the URL unchanged. */
  lemma AbsentKeyNoChange(url: string, key: string, value: ParamValue)
    requires forall k: nat :: !OccursAt(url, Placeholder(key), k)
    ensures ApplyParam(url, key, value) == url
  {
  }

  /** A key whose placeholder occurs, first at position `k`, rewrites only
      that occurrence: the text before it and the whole text after it,
      later occurrences included, are kept, and a value without `$` is
      inserted as it is. */
  lemma FirstOccurrenceReplaced(url: string, key: string, value: ParamValue, k: nat)
    requires OccursAt(url, Placeholder(key), k)
    requires forall j: nat :: j < k ==> !OccursAt(url, Placeholder(key), j)
    ensures k + |key| + 1 <= |url|
    ensures ApplyParam(url, key, value)
         == url[..k] + Substitution(Placeholder(key), url, k, ValueString(value)) + url[k + |key| + 1..]
    ensures '$' !in ValueString(value) ==>
      ApplyParam(url, key, value) == url[..k] + ValueString(value) + url[k + |key| + 1..]
  {
    var p, v := Placeholder(key), ValueString(value);
    assert IndexOf(url, p) == Some(k) by {
      IndexOfFinds(url, p, k);
    }
    assert ApplyParam(url, key, value) == ReplaceFirst(url, p, v);
    assert ReplaceFirst(url, p, v) == url[..k] + Substitution(p, url, k, v) + url[k + |p|..];
    if '$' !in v {
      SubstitutionLiteral(p, url, k, v);
    }
  }

  /** The search finds the first occurrence. */
  lemma IndexOfFinds(s: string, pat: string, k: nat)
    requires OccursAt(s, pat, k)
    requires forall j: nat :: j < k ==> !OccursAt(s, pat, j)
    ensures IndexOf(s, pat) == Some(k)
  {
  }

  /** Entries are applied in order, each to the URL as the earlier ones
      left it: applying `a + b` is applying `a`, then `b`. */
  lemma {:induction false} ApplyParamsSequential(path: string, a: seq<(string, ParamValue)>, b: seq<(string, ParamValue)>)
    ensures ApplyParams(path, a + b) == ApplyParams(ApplyParams(path, a), b)
    decreases |b|
  {
    if b == [] {
      assert a + b == a;
    } else {
      assert (a + b)[..|a + b| - 1] == a + b[..|b| - 1];
      ApplyParamsSequential(path, a, b[..|b| - 1]);
    }
  }

  /** A placeholder preceded by colon-free text is its first occurrence. */
  lemma FirstPlaceholderAt(pre: string, key: string, post: string)
    requires ':' !in pre
    ensures IndexOf(pre + Placeholder(key) + post, Placeholder(key)) == Some(|pre|)
  {
    var url := pre + Placeholder(key) + post;
    var k := |pre|;
    var p := Placeholder(key);
    assert url[k..k + |p|] == p;
    forall j: nat | j < k ensures !OccursAt(url, p, j) {
      assert url[j] == pre[j] != ':' == p[0];
      assert j + |p| <= |url| ==> url[j..j + |p|][0] == url[j];
    }
    IndexOfFinds(url, p, k);
  }

  /** A placeholder preceded by colon-free text is the one replaced, and
      the text around it is kept. */
  lemma PlaceholderAfter(pre: string, key: string, post: string, value: ParamValue)
    requires ':' !in pre
    ensures var url := pre + Placeholder(key) + post;
      ApplyParam(url, key, value) == pre + Substitution(Placeholder(key), url, |pre|, ValueString(value)) + post
  {
    var url := pre + Placeholder(key) + post;
    var k := |pre|;
    FirstPlaceholderAt(pre, key, post);
    assert url[..k] == pre;
    assert url[k + |key| + 1..] == post;
  }

  /** Matching is by plain substring: a key whose placeholder is the start
      of a longer one (`id` inside `:idx`) rewrites that longer placeholder
      when it comes first, leaving the rest of its name in place. */
  lemma NotTokenAware(pre: string, key: string, ext: string, post: string, value: ParamValue)
    requires ':' !in pre
    requires '$' !in ValueString(value)
    ensures ApplyParam(pre + Placeholder(key + ext) + post, key, value) == pre + ValueString(value) + (ext + post)
  {
    var url := pre + Placeholder(key + ext) + post;
    assert url == pre + Placeholder(key) + (ext + post);
    PlaceholderAfter(pre, key, ext + post, value);
    SubstitutionLiteral(Placeholder(key), url, |pre|, ValueString(value));
  }

  /** A value is a replacement template: `$&` in it stands for the
      placeholder itself. */
  lemma DollarPatternsExpand(pre: string, key: string, post: string, a: string, b: string)
    requires ':' !in pre
    requires '$' !in a && '$' !in b
    ensures ApplyParam(pre + Placeholder(key) + post, key, Text(a + "$&" + b))
         == pre + (a + Placeholder(key) + b) + post
  {
    var url := pre + Placeholder(key) + post;
    var t := a + "$&" + b;
    assert ValueString(Text(t)) == t;
    PlaceholderAfter(pre, key, post, Text(t));
    SubstitutionMatch(Placeholder(key), url, |pre|, a, b);
  }

  /** A template `a$&b` without other `$` gives `a`, the match, then `b`. */
  lemma {:induction false} SubstitutionMatch(matched: string, str: string, position: nat, a: string, b: string)
    requires position + |matched| <= |str|
    requires '$' !in a && '$' !in b
    ensures Substitution(matched, str, position, a + "$&" + b) == a + matched + b
    decreases |a|
  {
    var t := a + "$&" + b;
    if a == [] {
      assert Substitution(matched, str, position, t) == matched + b by {
        assert t == "$&" + b;
        assert t[0] == '$' && t[1] == '&' && t[2..] == b;
        SubstitutionLiteral(matched, str, position, b);
      }
      assert a + matched + b == matched + b;
    } else {
      assert Substitution(matched, str, position, t) == [a[0]] + Substitution(matched, str, position, t[1..]) by {
        assert a[0] in a;
        assert t[0] == a[0] != '$';
      }
      assert t[1..] == a[1..] + "$&" + b;
      SubstitutionMatch(matched, str, position, a[1..], b);
      assert a + matched + b == [a[0]] + (a[1..] + matched + b);
    }
  }
}
